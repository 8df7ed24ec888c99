/** llm_question_generator.py: questions are generated chapter by chapter
    from the chunks the vector store returns. Retrieval, the LLM call and
    json.loads are inputs to the model. */
module QuestionGenerator {
  import opened Python
  import opened JsonValue

  /** One chunk as retrieve_relevant_chapter_chunks returns it. */
  datatype Chunk = Chunk(chapterName: string, text: string)

  /** What llm.invoke gives back: the reply's text, or an exception. */
  datatype LlmReply = LlmRaised | LlmText(text: string)

  /** The collaborators of the generator.
      - retrieve(query, k): the book's chunks for a chapter name ("" for all).
      - llm(chapterName, context): the reply to the generation prompt.
      - parse(text): json.loads on a text that starts with '{', which can
        only yield a dict; None where it raises JSONDecodeError. */
  datatype Services = Services(
    retrieve: (string, nat) -> seq<Chunk>,
    llm: (string, string) -> LlmReply,
    parse: string -> Option<Fields>)

  const ContextLimit: nat := 6000
  const AllChunksK: nat := 50
  const ChapterChunksK: nat := 10

  /** The chapter names of the book, deduplicated in the order found. */
  function ChapterNames(chunks: seq<Chunk>): (names: seq<string>)
    ensures forall n :: n in names <==> exists c :: c in chunks && c.chapterName == n
    ensures forall i, j :: 0 <= i < j < |names| ==> names[i] != names[j]
  {
    var all := seq(|chunks|, i requires 0 <= i < |chunks| => chunks[i].chapterName);
    assert forall c :: c in chunks ==> c.chapterName in all by {
      forall c | c in chunks
        ensures c.chapterName in all
      {
        var i :| 0 <= i < |chunks| && chunks[i] == c;
        assert all[i] == c.chapterName;
      }
    }
    Dedup(all)
  }

  /** " ".join(chunk["text"] for chunk in chunks)[:6000]. */
  function CombinedText(chunks: seq<Chunk>): (r: string)
    ensures r <= Join(" ", seq(|chunks|, i requires 0 <= i < |chunks| => chunks[i].text))
    ensures |r| <= ContextLimit
    ensures |Join(" ", seq(|chunks|, i requires 0 <= i < |chunks| => chunks[i].text))| <= ContextLimit ==>
      r == Join(" ", seq(|chunks|, i requires 0 <= i < |chunks| => chunks[i].text))
  {
    Take(Join(" ", seq(|chunks|, i requires 0 <= i < |chunks| => chunks[i].text)), ContextLimit)
  }

  /** response_text[find("{") : rfind("}") + 1], or None where either brace
      is missing (the ValueError the loop catches). */
  function ExtractJsonText(t: string): (r: Option<string>)
    ensures r.None? <==> '{' !in t || '}' !in t
    ensures r.Some? && r.value != [] ==>
      && r.value[0] == '{' && r.value[|r.value| - 1] == '}'
      && exists i :: 0 <= i <= |t| - |r.value| && t[i..i + |r.value|] == r.value
           && '{' !in t[..i] && '}' !in t[i + |r.value|..]
    ensures r.Some? && r.value == [] ==>
      forall i, j :: 0 <= i < |t| && 0 <= j < |t| && t[i] == '{' && t[j] == '}' ==> j < i
  {
    var start := Find(t, '{');
    var end := RFind(t, '}');
    if start == -1 || end == -1 then None
    else
      var s := Slice(t, start, end + 1);
      if start <= end then
        assert t[start..start + |s|] == s;
        Some(s)
      else
        assert forall i :: 0 <= i < start ==> t[i] != '{' by {
          assert forall i :: 0 <= i < start ==> t[i] == t[..start][i];
        }
        assert forall j :: end < j < |t| ==> t[j] != '}' by {
          assert forall j :: end < j < |t| ==> t[j] == t[end + 1..][j - end - 1];
        }
        Some(s)
  }

  /** chapter_number of a generated dict (0 if it has none). */
  function NumberOf(j: Json): int {
    if j.JObj? then
      match Lookup<Json>(j.fields, "chapter_number")
      case Some(JInt(n)) => n
      case _ => 0
    else 0
  }

  /** formatted_qa. */
  function FormattedQa(userId: string, bookId: string, chapterName: Json, number: int, questions: Json): (r: Json)
    ensures r.JObj? && Keys(r.fields) == ["user_id", "book_id", "chapter_name", "chapter_number", "questions_answers"]
    ensures Lookup(r.fields, "user_id") == Some(JStr(userId))
    ensures Lookup(r.fields, "book_id") == Some(JStr(bookId))
    ensures Lookup(r.fields, "chapter_name") == Some(chapterName)
    ensures Lookup(r.fields, "questions_answers") == Some(questions)
    ensures NumberOf(r) == number
  {
    var f4: Fields := [("questions_answers", questions)];
    var f3 := [("chapter_number", JInt(number))] + f4;
    var f2 := [("chapter_name", chapterName)] + f3;
    var f1 := [("book_id", JStr(bookId))] + f2;
    var f := [("user_id", JStr(userId))] + f1;
    LookupCons("user_id", JStr(userId), f1, "chapter_name");
    LookupCons("book_id", JStr(bookId), f2, "chapter_name");
    LookupCons("user_id", JStr(userId), f1, "chapter_number");
    LookupCons("book_id", JStr(bookId), f2, "chapter_number");
    LookupCons("chapter_name", chapterName, f3, "chapter_number");
    LookupCons("user_id", JStr(userId), f1, "questions_answers");
    LookupCons("book_id", JStr(bookId), f2, "questions_answers");
    LookupCons("chapter_name", chapterName, f3, "questions_answers");
    LookupCons("chapter_number", JInt(number), f4, "questions_answers");
    JObj(f)
  }

  /** The dict appended for one chapter, or None where the loop reaches a
      `continue`: the LLM call raised, the reply is blank, no braces, the
      slice does not decode (json.loads("") always raises), or a required
      key is missing. */
  function ChapterOutcome(bookId: string, userId: string, name: string, number: int, sv: Services): (r: Option<Json>)
    ensures r.Some? ==>
      && r.value.JObj?
      && NumberOf(r.value) == number
      && Lookup(r.value.fields, "user_id") == Some(JStr(userId))
      && Lookup(r.value.fields, "book_id") == Some(JStr(bookId))
    ensures var reply := sv.llm(name, CombinedText(sv.retrieve(name, ChapterChunksK)));
      r.Some? <==>
        && reply.LlmText?
        && Strip(reply.text) != []
        && ExtractJsonText(reply.text).Some?
        && ExtractJsonText(reply.text).value != []
        && sv.parse(ExtractJsonText(reply.text).value).Some?
        && HasKey(sv.parse(ExtractJsonText(reply.text).value).value, "chapter_name")
        && HasKey(sv.parse(ExtractJsonText(reply.text).value).value, "questions_answers")
    ensures var reply := sv.llm(name, CombinedText(sv.retrieve(name, ChapterChunksK)));
      r.Some? ==>
        var qa := sv.parse(ExtractJsonText(reply.text).value).value;
        r.value == FormattedQa(userId, bookId, Lookup(qa, "chapter_name").value, number, Lookup(qa, "questions_answers").value)
  {
    var reply := sv.llm(name, CombinedText(sv.retrieve(name, ChapterChunksK)));
    if reply.LlmRaised? || Strip(reply.text) == [] then None
    else match ExtractJsonText(reply.text)
      case None => None
      case Some(body) =>
        if body == [] then None
        else match sv.parse(body)
          case None => None
          case Some(qa) =>
            match (Lookup(qa, "chapter_name"), Lookup(qa, "questions_answers"))
            case (Some(cn), Some(qs)) => Some(FormattedQa(userId, bookId, cn, number, qs))
            case _ => None
  }

  /** The outcome of each chapter, by name and 1-based position. */
  function OutcomeOf(bookId: string, userId: string, sv: Services): (string, int) -> Option<Json> {
    (name, number) => ChapterOutcome(bookId, userId, name, number, sv)
  }

  /** The loop over the chapter names from position i on, given the outcome
      of each chapter. */
  function GenerateFrom(outcome: (string, int) -> Option<Json>, names: seq<string>, i: nat): (r: seq<Json>)
    requires i <= |names|
    ensures |r| <= |names| - i
    decreases |names| - i
  {
    if i == |names| then []
    else
      var rest := GenerateFrom(outcome, names, i + 1);
      match outcome(names[i], i + 1)
      case Some(c) => [c] + rest
      case None => rest
  }

  /** generate_questions_for_book. */
  function Generate(bookId: string, userId: string, sv: Services): seq<Json> {
    var names := ChapterNames(sv.retrieve("", AllChunksK));
    if names == [] then [] else GenerateFrom(OutcomeOf(bookId, userId, sv), names, 0)
  }

  /** Every outcome that is not skipped carries the position it was given. */
  ghost predicate KeepsNumber(outcome: (string, int) -> Option<Json>) {
    forall name, n :: outcome(name, n).Some? ==> NumberOf(outcome(name, n).value) == n
  }

  /** Each dict carries a chapter number in i + 1 .. |names| and is the
      outcome for the chapter at that position. */
  ghost predicate OutcomesInRange(outcome: (string, int) -> Option<Json>, names: seq<string>, i: nat, r: seq<Json>) {
    forall k :: 0 <= k < |r| ==>
      i + 1 <= NumberOf(r[k]) <= |names|
      && outcome(names[NumberOf(r[k]) - 1], NumberOf(r[k])) == Some(r[k])
  }

  /** The dicts are in strictly increasing chapter_number order. */
  ghost predicate Increasing(r: seq<Json>) {
    forall k, l :: 0 <= k < l < |r| ==> NumberOf(r[k]) < NumberOf(r[l])
  }

  /** Every chapter from position i on whose outcome is not skipped is
      present. */
  ghost predicate NoneMissing(outcome: (string, int) -> Option<Json>, names: seq<string>, i: nat, r: seq<Json>) {
    forall p :: i <= p < |names| && outcome(names[p], p + 1).Some? ==>
      exists k :: 0 <= k < |r| && NumberOf(r[k]) == p + 1
  }

  /** What the loop from position i produces. */
  ghost predicate GeneratedFrom(outcome: (string, int) -> Option<Json>, names: seq<string>, i: nat, r: seq<Json>) {
    OutcomesInRange(outcome, names, i, r) && Increasing(r) && NoneMissing(outcome, names, i, r)
  }

  /** A dict prepended by one step of the loop is the rest shifted by one. */
  lemma PrependShift(c: Json, rest: seq<Json>, r: seq<Json>)
    requires r == [c] + rest
    ensures |r| == |rest| + 1 && r[0] == c
    ensures forall k :: 0 <= k < |rest| ==> r[k + 1] == rest[k]
  {
  }

  lemma InRangeStep(outcome: (string, int) -> Option<Json>, names: seq<string>, i: nat, rest: seq<Json>, r: seq<Json>)
    requires i < |names|
    requires OutcomesInRange(outcome, names, i + 1, rest)
    requires r == rest || (outcome(names[i], i + 1).Some?
      && r == [outcome(names[i], i + 1).value] + rest && NumberOf(r[0]) == i + 1)
    ensures OutcomesInRange(outcome, names, i, r)
  {
    if r != rest {
      PrependShift(r[0], rest, r);
      forall k | 0 <= k < |r|
        ensures i + 1 <= NumberOf(r[k]) <= |names|
        ensures outcome(names[NumberOf(r[k]) - 1], NumberOf(r[k])) == Some(r[k])
      {
        if k > 0 {
          assert r[k] == rest[k - 1];
        }
      }
    }
  }

  lemma IncreasingStep(names: seq<string>, i: nat, rest: seq<Json>, c: Json, r: seq<Json>)
    requires forall k :: 0 <= k < |rest| ==> i + 1 < NumberOf(rest[k])
    requires Increasing(rest)
    requires r == [c] + rest && NumberOf(c) == i + 1
    ensures Increasing(r)
  {
    PrependShift(c, rest, r);
    forall k, l | 0 <= k < l < |r|
      ensures NumberOf(r[k]) < NumberOf(r[l])
    {
      assert r[l] == rest[l - 1];
      if k > 0 {
        assert r[k] == rest[k - 1];
      }
    }
  }

  lemma NoneMissingStep(outcome: (string, int) -> Option<Json>, names: seq<string>, i: nat, rest: seq<Json>, r: seq<Json>)
    requires i < |names|
    requires NoneMissing(outcome, names, i + 1, rest)
    requires outcome(names[i], i + 1).None? ==> r == rest
    requires outcome(names[i], i + 1).Some? ==>
      r == [outcome(names[i], i + 1).value] + rest && NumberOf(r[0]) == i + 1
    ensures NoneMissing(outcome, names, i, r)
  {
    if outcome(names[i], i + 1).Some? {
      PrependShift(r[0], rest, r);
      forall p | i <= p < |names| && outcome(names[p], p + 1).Some?
        ensures exists k :: 0 <= k < |r| && NumberOf(r[k]) == p + 1
      {
        if p > i {
          var k :| 0 <= k < |rest| && NumberOf(rest[k]) == p + 1;
          assert r[k + 1] == rest[k];
        }
      }
    }
  }

  /** One step of the loop keeps GeneratedFrom: the chapter at position i
      is either prepended or skipped. */
  lemma GeneratedFromStep(outcome: (string, int) -> Option<Json>, names: seq<string>, i: nat, rest: seq<Json>, r: seq<Json>)
    requires i < |names|
    requires GeneratedFrom(outcome, names, i + 1, rest)
    requires outcome(names[i], i + 1).None? ==> r == rest
    requires outcome(names[i], i + 1).Some? ==>
      r == [outcome(names[i], i + 1).value] + rest && NumberOf(r[0]) == i + 1
    ensures GeneratedFrom(outcome, names, i, r)
  {
    InRangeStep(outcome, names, i, rest, r);
    NoneMissingStep(outcome, names, i, rest, r);
    if outcome(names[i], i + 1).Some? {
      IncreasingStep(names, i, rest, r[0], r);
    }
  }

  lemma {:induction false} GenerateFromFacts(outcome: (string, int) -> Option<Json>, names: seq<string>, i: nat)
    requires KeepsNumber(outcome)
    requires i <= |names|
    ensures GeneratedFrom(outcome, names, i, GenerateFrom(outcome, names, i))
    decreases |names| - i
  {
    if i < |names| {
      GenerateFromFacts(outcome, names, i + 1);
      GeneratedFromStep(outcome, names, i, GenerateFrom(outcome, names, i + 1), GenerateFrom(outcome, names, i));
    }
  }

  /** Chapter numbers are the 1-based positions in the deduplicated name
      list: the result follows that order, a skipped chapter leaves a gap,
      and each appended dict is the outcome for its own chapter. */
  lemma GeneratedChapters(bookId: string, userId: string, sv: Services)
    ensures var names := ChapterNames(sv.retrieve("", AllChunksK));
      var r := Generate(bookId, userId, sv);
      && |r| <= |names|
      && (names == [] ==> r == [])
      && GeneratedFrom(OutcomeOf(bookId, userId, sv), names, 0, r)
  {
    var names := ChapterNames(sv.retrieve("", AllChunksK));
    var outcome := OutcomeOf(bookId, userId, sv);
    forall name, n | outcome(name, n).Some?
      ensures NumberOf(outcome(name, n).value) == n
    {
      assert outcome(name, n) == ChapterOutcome(bookId, userId, name, n, sv);
    }
    GenerateFromFacts(outcome, names, 0);
  }

  /** A chapter whose reply holds nothing but whitespace is skipped. */
  lemma BlankReplySkipped(bookId: string, userId: string, name: string, number: int, sv: Services, t: string)
    requires sv.llm(name, CombinedText(sv.retrieve(name, ChapterChunksK))) == LlmText(t)
    requires forall k :: 0 <= k < |t| ==> IsSpace(t[k])
    ensures ChapterOutcome(bookId, userId, name, number, sv) == None
  {
    StripEmpty(t);
  }

  /** The body of the loop for one chapter: the formatted dict, or None
      where the source reaches `continue`. */
  method GenerateChapter(bookId: string, userId: string, name: string, number: int, sv: Services) returns (o: Option<Json>)
    ensures o == ChapterOutcome(bookId, userId, name, number, sv)
  {
    var context := CombinedText(sv.retrieve(name, ChapterChunksK));
    var reply := sv.llm(name, context);
    if reply.LlmRaised? || Strip(reply.text) == [] {
      return None;
    }
    var start := Find(reply.text, '{');
    var end := RFind(reply.text, '}');
    if start == -1 || end == -1 {
      return None;
    }
    var body := Slice(reply.text, start, end + 1);
    assert ExtractJsonText(reply.text) == Some(body);
    if body == [] {
      return None;
    }
    var parsed := sv.parse(body);
    if parsed.None? {
      return None;
    }
    var chapterName := Lookup(parsed.value, "chapter_name");
    var questions := Lookup(parsed.value, "questions_answers");
    if chapterName.None? || questions.None? {
      return None;
    }
    o := Some(FormattedQa(userId, bookId, chapterName.value, number, questions.value));
  }

  /** One turn of the loop: the chapter at position i is appended unless its
      outcome is skipped. */
  lemma LoopStep(outcome: (string, int) -> Option<Json>, names: seq<string>, i: nat, qa: seq<Json>, o: Option<Json>)
    requires i < |names| && o == outcome(names[i], i + 1)
    ensures qa + GenerateFrom(outcome, names, i)
      == (if o.Some? then qa + [o.value] else qa) + GenerateFrom(outcome, names, i + 1)
  {
    if o.Some? {
      assert qa + ([o.value] + GenerateFrom(outcome, names, i + 1))
        == (qa + [o.value]) + GenerateFrom(outcome, names, i + 1);
    }
  }

  /** outcome gives, for every chapter name and position, what one turn of
      the loop yields. */
  ghost predicate Realizes(outcome: (string, int) -> Option<Json>, bookId: string, userId: string, sv: Services) {
    forall name, n {:trigger ChapterOutcome(bookId, userId, name, n, sv)} ::
      outcome(name, n) == ChapterOutcome(bookId, userId, name, n, sv)
  }

  lemma OutcomeOfRealizes(bookId: string, userId: string, sv: Services)
    ensures Realizes(OutcomeOf(bookId, userId, sv), bookId, userId, sv)
  {
  }

  /** One turn of the loop, seen through the outcome function it realizes. */
  method ChapterTurn(bookId: string, userId: string, name: string, number: int, sv: Services, ghost outcome: (string, int) -> Option<Json>) returns (o: Option<Json>)
    requires Realizes(outcome, bookId, userId, sv)
    ensures o == outcome(name, number)
  {
    o := GenerateChapter(bookId, userId, name, number, sv);
  }

  /** The loop of generate_questions_for_book over the chapter names: it
      appends one dict per chapter and goes on to the next past a failure. */
  method GenerateLoop(bookId: string, userId: string, names: seq<string>, sv: Services, ghost outcome: (string, int) -> Option<Json>) returns (qa: seq<Json>)
    requires Realizes(outcome, bookId, userId, sv)
    ensures qa == GenerateFrom(outcome, names, 0)
  {
    qa := [];
    var i := 0;
    assert [] + GenerateFrom(outcome, names, 0) == GenerateFrom(outcome, names, 0);
    while i < |names|
      invariant 0 <= i <= |names|
      invariant GenerateFrom(outcome, names, 0) == qa + GenerateFrom(outcome, names, i)
    {
      var o := ChapterTurn(bookId, userId, names[i], i + 1, sv, outcome);
      LoopStep(outcome, names, i, qa, o);
      if o.Some? {
        qa := qa + [o.value];
      }
      i := i + 1;
    }
    assert qa + [] == qa;
  }

  /** generate_questions_for_book: no chapter names, no questions. */
  method GenerateQuestionsForBook(bookId: string, userId: string, sv: Services) returns (qa: seq<Json>)
    ensures qa == Generate(bookId, userId, sv)
  {
    var names := ChapterNames(sv.retrieve("", AllChunksK));
    if names == [] {
      return [];
    }
    OutcomeOfRealizes(bookId, userId, sv);
    qa := GenerateLoop(bookId, userId, names, sv, OutcomeOf(bookId, userId, sv));
  }
}
