/** embeddings.py: a book's text is cut into chapters at the chapter-title
    matches, and the chapters are handed to the vector store once per book.
    PDF loading and the regular expression are not modelled: the pages'
    text and the match spans come in as inputs. */
module Embeddings {
  import opened Python
  import opened JsonValue

  const NoChapterTitles: string := "No chapter titles found. Ensure chapters are formatted correctly."
  const AlreadyExistStatus: string := "Embeddings already exist for this book"
  const StoredStatus: string := "Embeddings stored successfully"

  /** One regex match in the full text: match.start(), match.end() and
      match.group(1), the raw chapter title. */
  datatype Match = Match(start: nat, end: nat, title: string)

  /** "\n".join(page_content for each page) with every NUL removed. */
  function FullText(pages: seq<string>): (r: string)
    ensures '\0' !in r
  {
    Without(Join("\n", pages), '\0')
  }

  /** match.group(1).strip(). */
  function ChapterName(m: Match): string {
    Strip(m.title)
  }

  /** Where chapter i's text stops: the start of the next match, or the
      end of the text after the last one. */
  function SpanEnd(full: string, matches: seq<Match>, i: nat): nat
    requires i < |matches|
  {
    if i + 1 < |matches| then matches[i + 1].start else |full|
  }

  /** The text of chapter i, stripped and without NULs. */
  function ChapterText(full: string, matches: seq<Match>, i: nat): (r: string)
    requires i < |matches|
    ensures '\0' !in r
  {
    Without(Strip(Slice(full, matches[i].end, SpanEnd(full, matches, i))), '\0')
  }

  /** The chapter name of every match. */
  function Names(matches: seq<Match>): (r: seq<string>)
    ensures |r| == |matches|
  {
    seq(|matches|, k requires 0 <= k < |matches| => ChapterName(matches[k]))
  }

  /** The chapter text of every match. */
  function Texts(full: string, matches: seq<Match>): (r: seq<string>)
    ensures |r| == |matches|
    ensures forall k :: 0 <= k < |r| ==> '\0' !in r[k]
  {
    seq(|matches|, k requires 0 <= k < |matches| => ChapterText(full, matches, k))
  }

  /** The chapters dict after the loop has handled the first n matches:
      a chapter with text is assigned under its name. */
  function Assign(names: seq<string>, texts: seq<string>, n: nat): (r: Fields)
    requires |names| == |texts| && n <= |names|
  {
    if n == 0 then []
    else
      var d := Assign(names, texts, n - 1);
      if texts[n - 1] != [] then Put(d, names[n - 1], JStr(texts[n - 1])) else d
  }

  /** extract_and_chunk_text: ValueError when no chapter title matched. */
  function Extract(pages: seq<string>, matches: seq<Match>): (r: Result<Fields, Exception>)
    ensures r.Err? <==> matches == []
    ensures r.Err? ==> r.error == ValueError(NoChapterTitles)
  {
    if matches == [] then Err(ValueError(NoChapterTitles))
    else Ok(Assign(Names(matches), Texts(FullText(pages), matches), |matches|))
  }

  /** The names of the chapters that have text, in match order, repeats
      included. */
  function KeptNames(names: seq<string>, texts: seq<string>, n: nat): (r: seq<string>)
    requires |names| == |texts| && n <= |names|
    ensures forall name :: name in r <==>
      exists k :: 0 <= k < n && texts[k] != [] && names[k] == name
  {
    if n == 0 then []
    else
      var init := KeptNames(names, texts, n - 1);
      if texts[n - 1] != [] then init + [names[n - 1]] else init
  }

  /** The text of the last chapter with text that carries this name among
      the first n, if any. */
  function LastText(names: seq<string>, texts: seq<string>, n: nat, name: string): (r: Option<Json>)
    requires |names| == |texts| && n <= |names|
  {
    if n == 0 then None
    else if texts[n - 1] != [] && names[n - 1] == name then Some(JStr(texts[n - 1]))
    else LastText(names, texts, n - 1, name)
  }

  /** The dict's keys are the names of the chapters with text, each once,
      in the order each name first appeared: a repeated name keeps its
      first position. */
  lemma {:induction false} AssignKeys(names: seq<string>, texts: seq<string>, n: nat)
    requires |names| == |texts| && n <= |names|
    ensures Keys(Assign(names, texts, n)) == Dedup(KeptNames(names, texts, n))
  {
    if n > 0 {
      AssignKeys(names, texts, n - 1);
      var kept := KeptNames(names, texts, n - 1);
      if texts[n - 1] != [] {
        var x := names[n - 1];
        assert KeptNames(names, texts, n) == kept + [x];
        PutDedupKeys(Assign(names, texts, n - 1), kept, x, JStr(texts[n - 1]));
      } else {
        assert KeptNames(names, texts, n) == kept;
      }
    }
  }

  /** Each name maps to the text of the last chapter with that name: a
      repeated name overwrites the earlier text. */
  lemma {:induction false} AssignLastText(names: seq<string>, texts: seq<string>, n: nat, name: string)
    requires |names| == |texts| && n <= |names|
    ensures Lookup(Assign(names, texts, n), name) == LastText(names, texts, n, name)
  {
    if n > 0 {
      AssignLastText(names, texts, n - 1, name);
      if texts[n - 1] != [] {
        PutLookup(Assign(names, texts, n - 1), names[n - 1], JStr(texts[n - 1]), name);
      }
    }
  }

  /** Every value is one of the non-empty texts. */
  lemma {:induction false} AssignTexts(names: seq<string>, texts: seq<string>, n: nat)
    requires |names| == |texts| && n <= |names|
    ensures forall p :: p in Assign(names, texts, n) ==>
      p.1.JStr? && p.1.s != [] && p.1.s in texts
  {
    if n > 0 {
      AssignTexts(names, texts, n - 1);
      if texts[n - 1] != [] {
        PutFields(Assign(names, texts, n - 1), names[n - 1], JStr(texts[n - 1]));
      }
    }
  }

  /** What the chapters dict of a book holds: each name of a chapter with
      text exactly once, in first-appearance order, mapped to the last
      text seen under that name, every text non-empty and free of NULs. */
  lemma ExtractFacts(pages: seq<string>, matches: seq<Match>, name: string)
    requires matches != []
    ensures var chapters := Extract(pages, matches).value;
      var names := Names(matches);
      var texts := Texts(FullText(pages), matches);
      && Keys(chapters) == Dedup(KeptNames(names, texts, |matches|))
      && (name in Keys(chapters) <==> exists k :: 0 <= k < |matches| && texts[k] != [] && names[k] == name)
      && Lookup(chapters, name) == LastText(names, texts, |matches|, name)
      && (forall p :: p in chapters ==> p.1.JStr? && p.1.s != [] && '\0' !in p.1.s)
  {
    var names := Names(matches);
    var texts := Texts(FullText(pages), matches);
    AssignKeys(names, texts, |matches|);
    AssignLastText(names, texts, |matches|, name);
    AssignTexts(names, texts, |matches|);
  }

  /** names and texts hold the chapter name and text of every match. */
  ghost predicate ChaptersOf(names: seq<string>, texts: seq<string>, fullText: string, matches: seq<Match>) {
    && |names| == |matches| && |texts| == |matches|
    && (forall k {:trigger ChapterName(matches[k])} :: 0 <= k < |matches| ==>
         names[k] == ChapterName(matches[k]))
    && (forall k {:trigger ChapterText(fullText, matches, k)} :: 0 <= k < |matches| ==>
         texts[k] == ChapterText(fullText, matches, k))
  }

  lemma NamesTextsAreChaptersOf(fullText: string, matches: seq<Match>)
    ensures ChaptersOf(Names(matches), Texts(fullText, matches), fullText, matches)
  {
  }

  /** The name and text of chapter i, as one turn of the loop computes them. */
  method ChapterAt(fullText: string, matches: seq<Match>, i: nat, ghost names: seq<string>, ghost texts: seq<string>) returns (chapterName: string, chapterText: string)
    requires i < |matches| && ChaptersOf(names, texts, fullText, matches)
    ensures chapterName == names[i] && chapterText == texts[i]
  {
    chapterName := Strip(matches[i].title);
    assert chapterName == ChapterName(matches[i]);
    var startIndex := matches[i].end;
    var endIndex := if i + 1 < |matches| then matches[i + 1].start else |fullText|;
    assert endIndex == SpanEnd(fullText, matches, i);
    chapterText := Strip(Slice(fullText, startIndex, endIndex));
    chapterText := Without(chapterText, '\0');
    assert chapterText == ChapterText(fullText, matches, i);
  }

  /** One more chapter handled. */
  lemma AssignStep(names: seq<string>, texts: seq<string>, i: nat)
    requires |names| == |texts| && i < |names|
    ensures Assign(names, texts, i + 1)
      == if texts[i] != [] then Put(Assign(names, texts, i), names[i], JStr(texts[i])) else Assign(names, texts, i)
  {
  }

  /** The loop of extract_and_chunk_text: it fills the chapters dict. */
  method FillChapters(fullText: string, matches: seq<Match>, ghost names: seq<string>, ghost texts: seq<string>) returns (chapters: Fields)
    requires ChaptersOf(names, texts, fullText, matches)
    ensures chapters == Assign(names, texts, |matches|)
  {
    chapters := [];
    var i := 0;
    while i < |matches|
      invariant 0 <= i <= |matches|
      invariant chapters == Assign(names, texts, i)
    {
      var chapterName, chapterText := ChapterAt(fullText, matches, i, names, texts);
      AssignStep(names, texts, i);
      if chapterText != [] {
        chapters := Put(chapters, chapterName, JStr(chapterText));
      }
      i := i + 1;
    }
  }

  /** extract_and_chunk_text as the source writes it. */
  method ExtractAndChunkText(pages: seq<string>, matches: seq<Match>) returns (r: Result<Fields, Exception>)
    ensures r == Extract(pages, matches)
  {
    var fullText := Join("\n", pages);
    fullText := Without(fullText, '\0');
    if matches == [] {
      return Err(ValueError(NoChapterTitles));
    }
    NamesTextsAreChaptersOf(fullText, matches);
    var chapters := FillChapters(fullText, matches, Names(matches), Texts(fullText, matches));
    return Ok(chapters);
  }

  /** One entry of doc_chunks. */
  function DocChunk(name: string, text: Json): Json {
    JObj([("chapter_name", JStr(name)), ("text", text)])
  }

  /** doc_chunks: one entry per chapter, in dict order. */
  function DocChunks(chapters: Fields): (docs: seq<Json>)
    ensures |docs| == |chapters|
    ensures forall k :: 0 <= k < |docs| ==> docs[k] == DocChunk(chapters[k].0, chapters[k].1)
  {
    seq(|chapters|, k requires 0 <= k < |chapters| => DocChunk(chapters[k].0, chapters[k].1))
  }

  /** The (chapter_name, text) pair a stored entry describes. */
  function EntryOf(doc: Json): (string, Json) {
    if doc.JObj? then
      var name := Get(doc.fields, "chapter_name", JNull);
      (if name.JStr? then name.s else "", Get(doc.fields, "text", JNull))
    else ("", JNull)
  }

  /** The stored entries describe the chapters dict exactly. */
  lemma DocChunksRoundTrip(chapters: Fields)
    ensures seq(|chapters|, k requires 0 <= k < |chapters| => EntryOf(DocChunks(chapters)[k])) == chapters
  {
    var docs := DocChunks(chapters);
    forall k | 0 <= k < |chapters|
      ensures EntryOf(docs[k]) == chapters[k]
    {
      var f: Fields := [("chapter_name", JStr(chapters[k].0)), ("text", chapters[k].1)];
      LookupCons("chapter_name", JStr(chapters[k].0), [("text", chapters[k].1)], "chapter_name");
      LookupCons("chapter_name", JStr(chapters[k].0), [("text", chapters[k].1)], "text");
      LookupCons("text", chapters[k].1, [], "text");
    }
  }

  /** What create_embeddings returns and, when it stores, the entries it
      hands to store_docs_to_collection. */
  datatype Embedding = Embedding(response: Json, stored: Option<seq<Json>>)

  function StatusReply(status: string, bookId: string): Json {
    JObj([("status", JStr(status)), ("book_id", JStr(bookId))])
  }

  /** create_embeddings, given whether the vector store already holds a
      record for the book. */
  function CreateEmbeddings(recordExists: bool, pages: seq<string>, matches: seq<Match>, bookId: string): (r: Result<Embedding, Exception>)
    ensures recordExists ==> r == Ok(Embedding(StatusReply(AlreadyExistStatus, bookId), None))
    ensures !recordExists && matches == [] ==> r == Err(ValueError(NoChapterTitles))
    ensures !recordExists && matches != [] ==>
      && r.Ok? && r.value.response == StatusReply(StoredStatus, bookId)
      && r.value.stored == Some(DocChunks(Extract(pages, matches).value))
  {
    if recordExists then Ok(Embedding(StatusReply(AlreadyExistStatus, bookId), None))
    else match Extract(pages, matches)
      case Err(e) => Err(e)
      case Ok(chapters) => Ok(Embedding(StatusReply(StoredStatus, bookId), Some(DocChunks(chapters))))
  }

  /** Whatever is stored names each chapter with text once. */
  lemma StoredChaptersDistinct(pages: seq<string>, matches: seq<Match>, bookId: string)
    requires CreateEmbeddings(false, pages, matches, bookId).Ok?
    ensures var docs := CreateEmbeddings(false, pages, matches, bookId).value.stored.value;
      forall k, l :: 0 <= k < l < |docs| ==> EntryOf(docs[k]).0 != EntryOf(docs[l]).0
  {
    var chapters := Extract(pages, matches).value;
    var docs := DocChunks(chapters);
    AssignKeys(Names(matches), Texts(FullText(pages), matches), |matches|);
    DocChunksRoundTrip(chapters);
    forall k, l | 0 <= k < l < |docs|
      ensures EntryOf(docs[k]).0 != EntryOf(docs[l]).0
    {
      assert EntryOf(docs[k]) == chapters[k] && EntryOf(docs[l]) == chapters[l];
      assert Keys(chapters)[k] == chapters[k].0 && Keys(chapters)[l] == chapters[l].0;
    }
  }
}
