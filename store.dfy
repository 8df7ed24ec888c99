/** The questions_and_answers table of store_questions_answers.py: one row
    per (user_id, book_id), holding the chapters as {"chapters": [...]},
    the time of writing and a random 16-character row id. */
module QuestionStore {
  import opened Python
  import opened JsonValue

  /** The table's conflict key: (user_id, book_id). */
  type RowKey = (string, string)

  /** One row; the questions_answers column always holds {"chapters": chapters}. */
  datatype Row = Row(chapters: seq<Json>, time: string, rowId: string)

  /** What fetch_questions_answers returns. */
  datatype StoredData = StoredData(chapters: seq<Json>, rowId: Option<string>, createdOn: Option<string>)

  /** The status dict store_questions_answers returns when it does not raise. */
  datatype StoreStatus = NoQuestionsGenerated | StoredOk(rowId: string)

  const RowIdAlphabet: string := "ABCDEFGHIJKLMNOPQRSTUVWXYZ0123456789"
  const RowIdLength: nat := 16
  const FirstQuestionId: int := 100

  /** One draw of random.choices over the 36 characters: an index into them. */
  type Draw = d: nat | d < 36

  /** generate_row_id: 16 characters, the k-th chosen by the k-th random draw. */
  function GenerateRowId(pick: nat -> Draw): (r: string)
    ensures |r| == RowIdLength
    ensures forall k :: 0 <= k < |r| ==> r[k] in RowIdAlphabet
    ensures forall k :: 0 <= k < |r| ==> r[k] == RowIdAlphabet[pick(k)]
  {
    assert |RowIdAlphabet| == 36;
    seq(RowIdLength, k requires 0 <= k < RowIdLength => RowIdAlphabet[pick(k)])
  }

  function IndexIn(s: string, c: char): (i: nat)
    requires c in s
    ensures i < |s| && s[i] == c
  {
    if s[0] == c then 0 else 1 + IndexIn(s[1..], c)
  }

  /** Conversely, every 16-character string over A-Z and 0-9 is a possible row id. */
  lemma EveryRowIdCanBeDrawn(s: string)
    requires |s| == RowIdLength
    requires forall k :: 0 <= k < |s| ==> s[k] in RowIdAlphabet
    ensures exists pick: nat -> Draw :: GenerateRowId(pick) == s
  {
    assert |RowIdAlphabet| == 36;
    var pick: nat -> Draw := (k: nat) => if k < |s| && s[k] in RowIdAlphabet then IndexIn(RowIdAlphabet, s[k]) else 0;
    assert GenerateRowId(pick) == s;
  }

  /** The value the numbering loop leaves behind, the counter after it, and
      the exception that stopped it, if any. */
  datatype Numbered<T> = Numbered(value: T, next: int, failure: Option<Exception>)

  /** `for qa in items: qa["question_id"] = next; next += 1`. Item assignment
      on an element that is not a dict raises TypeError, leaving the earlier
      elements numbered and the rest untouched. */
  function NumberQuestions(items: seq<Json>, next: int): (r: Numbered<seq<Json>>)
    ensures |r.value| == |items|
    ensures r.failure.None? ==> r.next == next + |items|
  {
    if items == [] then Numbered([], next, None)
    else match items[0]
      case JObj(f) =>
        var rest := NumberQuestions(items[1..], next + 1);
        Numbered([JObj(Put(f, "question_id", JInt(next)))] + rest.value, rest.next, rest.failure)
      case _ => Numbered(items, next, Some(TypeError))
  }

  /** The body of the outer loop for one chapter: chapter["chapter_number"] =
      number, then the questions of chapter["questions_answers"] are numbered
      from next. A chapter that is not a dict raises TypeError, a missing
      questions_answers key KeyError; iterating a non-empty str or dict
      gives str elements, on which the assignment raises TypeError, and any
      other value is not iterable. */
  function NumberChapter(ch: Json, number: int, next: int): Numbered<Json> {
    match ch
    case JObj(f) =>
      var f1 := Put(f, "chapter_number", JInt(number));
      // Setting chapter_number does not change what questions_answers holds.
      (match Lookup<Json>(f, "questions_answers")
       case None => Numbered(JObj(f1), next, Some(KeyError("questions_answers")))
       case Some(JArr(items)) =>
         var n := NumberQuestions(items, next);
         Numbered(JObj(Put(f1, "questions_answers", JArr(n.value))), n.next, n.failure)
       case Some(qs) =>
         Numbered(JObj(f1), next, if (qs.JStr? || qs.JObj?) && !Truthy(qs) then None else Some(TypeError)))
    case _ => Numbered(ch, next, Some(TypeError))
  }

  /** The loop `for i, chapter in enumerate(qa_data, start=1)` from
      position i on, with `body` the work done on one chapter: chapter i
      gets chapter_number i + 1, questions are numbered from next, and the
      first exception stops the loop with the later chapters untouched. */
  function NumberEach(body: (Json, int, int) -> Numbered<Json>, chs: seq<Json>, i: nat, next: int): (r: Numbered<seq<Json>>)
    requires i <= |chs|
    ensures |r.value| == |chs| - i
    decreases |chs| - i
  {
    if i == |chs| then Numbered([], next, None)
    else
      var c := body(chs[i], i + 1, next);
      if c.failure.Some? then Numbered([c.value] + chs[i + 1..], c.next, c.failure)
      else
        var rest := NumberEach(body, chs, i + 1, c.next);
        Numbered([c.value] + rest.value, rest.next, rest.failure)
  }

  /** The numbering loop of store_questions_answers from position i on. */
  function NumberChapters(chs: seq<Json>, i: nat, next: int): (r: Numbered<seq<Json>>)
    requires i <= |chs|
    ensures |r.value| == |chs| - i
  {
    NumberEach(NumberChapter, chs, i, next)
  }

  /** The table, the qa_data list and the result after one call. */
  datatype StoreOutcome = StoreOutcome(status: Result<StoreStatus, Exception>, rows: map<RowKey, Row>, chapters: seq<Json>)

  /** store_questions_answers on a table value: empty input is refused
      without writing; otherwise the chapters are numbered in place and, when
      that does not raise, the row for (user_id, book_id) is inserted or
      replaced. */
  function Store(rows: map<RowKey, Row>, userId: string, bookId: string, qaData: seq<Json>, rowId: string, now: string): (r: StoreOutcome)
    ensures qaData == [] ==> r == StoreOutcome(Ok(NoQuestionsGenerated), rows, qaData)
    ensures r.status != Ok(StoredOk(rowId)) ==> r.rows == rows
    ensures r.status == Ok(StoredOk(rowId)) ==>
      && r.rows.Keys == rows.Keys + {(userId, bookId)}
      && r.rows[(userId, bookId)] == Row(r.chapters, now, rowId)
      && (forall k :: k in rows && k != (userId, bookId) ==> r.rows[k] == rows[k])
    ensures r.status.Ok? ==> r.status == Ok(NoQuestionsGenerated) || r.status == Ok(StoredOk(rowId))
    ensures qaData != [] ==>
      var n := NumberChapters(qaData, 0, FirstQuestionId);
      && r.chapters == n.value
      && (r.status.Err? <==> n.failure.Some?)
      && (r.status.Err? ==> n.failure == Some(r.status.error))
  {
    if qaData == [] then StoreOutcome(Ok(NoQuestionsGenerated), rows, qaData)
    else
      var n := NumberChapters(qaData, 0, FirstQuestionId);
      if n.failure.Some? then StoreOutcome(Err(n.failure.value), rows, n.value)
      else StoreOutcome(Ok(StoredOk(rowId)), rows[(userId, bookId) := Row(n.value, now, rowId)], n.value)
  }

  /** fetch_questions_answers on a table value. */
  function Fetch(rows: map<RowKey, Row>, userId: string, bookId: string): (r: StoredData)
    ensures (userId, bookId) in rows ==>
      var row := rows[(userId, bookId)];
      r == StoredData(row.chapters, Some(row.rowId), Some(row.time))
    ensures (userId, bookId) !in rows ==> r == StoredData([], None, None)
  {
    if (userId, bookId) in rows then
      var row := rows[(userId, bookId)];
      StoredData(row.chapters, Some(row.rowId), Some(row.time))
    else StoredData([], None, None)
  }

  /** A fetch right after a successful store returns what was written and the row id the store reported. */
  lemma FetchAfterStore(rows: map<RowKey, Row>, userId: string, bookId: string, qaData: seq<Json>, rowId: string, now: string)
    requires Store(rows, userId, bookId, qaData, rowId, now).status == Ok(StoredOk(rowId))
    ensures var out := Store(rows, userId, bookId, qaData, rowId, now);
      Fetch(out.rows, userId, bookId) == StoredData(out.chapters, Some(rowId), Some(now))
  {
  }

  /** The list stored under "questions_answers" of a chapter, when it is a list. */
  function ChapterQuestions(ch: Json): seq<Json> {
    if ch.JObj? then
      match Lookup<Json>(ch.fields, "questions_answers")
      case Some(JArr(items)) => items
      case _ => []
    else []
  }

  /** The question_id of each question, JNull where a question has none. */
  function ItemIds(items: seq<Json>): (ids: seq<Json>)
    ensures |ids| == |items|
  {
    if items == [] then []
    else [if items[0].JObj? then Get(items[0].fields, "question_id", JNull) else JNull] + ItemIds(items[1..])
  }

  /** The question ids of all chapters, chapter by chapter, in order. */
  function QuestionIds(chs: seq<Json>): seq<Json> {
    if chs == [] then [] else ItemIds(ChapterQuestions(chs[0])) + QuestionIds(chs[1..])
  }

  /** ids is the run from, from + 1, ..., from + |ids| - 1. */
  predicate RunsFrom(ids: seq<Json>, from: int) {
    forall k :: 0 <= k < |ids| ==> ids[k] == JInt(from + k)
  }

  lemma ConsRun(x: Json, rest: seq<Json>, from: int)
    requires x == JInt(from) && RunsFrom(rest, from + 1)
    ensures RunsFrom([x] + rest, from)
  {
    forall k | 1 <= k < 1 + |rest|
      ensures ([x] + rest)[k] == rest[k - 1]
    {
    }
  }

  lemma AppendRuns(a: seq<Json>, b: seq<Json>, from: int)
    requires RunsFrom(a, from) && RunsFrom(b, from + |a|)
    ensures RunsFrom(a + b, from)
  {
    forall k | |a| <= k < |a| + |b|
      ensures (a + b)[k] == b[k - |a|]
    {
    }
  }

  lemma {:induction false} NumberQuestionsIds(items: seq<Json>, next: int)
    requires NumberQuestions(items, next).failure.None?
    ensures RunsFrom(ItemIds(NumberQuestions(items, next).value), next)
  {
    if items != [] {
      var f := items[0].fields;
      NumberQuestionsIds(items[1..], next + 1);
      var r := NumberQuestions(items, next).value;
      assert r[1..] == NumberQuestions(items[1..], next + 1).value;
      PutLookup(f, "question_id", JInt(next), "question_id");
      ConsRun(JInt(next), ItemIds(r[1..]), next);
      assert ItemIds(r) == [JInt(next)] + ItemIds(r[1..]);
    }
  }

  /** Every element of s is a dict. */
  predicate AllDicts(s: seq<Json>) {
    forall k :: 0 <= k < |s| ==> s[k].JObj?
  }

  /** Elements 0, ..., k of s are dicts. */
  predicate DictsThrough(s: seq<Json>, k: int) {
    forall l :: 0 <= l <= k && l < |s| ==> s[l].JObj?
  }

  /** The inner loop completes exactly when every question is a dict, and
      raises TypeError otherwise. */
  lemma {:induction false} NumberQuestionsFailure(items: seq<Json>, next: int)
    ensures var r := NumberQuestions(items, next);
      && (r.failure.None? <==> AllDicts(items))
      && (r.failure.Some? ==> r.failure == Some(TypeError))
  {
    if items != [] && items[0].JObj? {
      var tail := items[1..];
      NumberQuestionsFailure(tail, next + 1);
      assert NumberQuestions(items, next).failure == NumberQuestions(tail, next + 1).failure;
      assert forall l :: 1 <= l < |items| ==> items[l] == tail[l - 1];
      if AllDicts(tail) {
        forall l | 0 <= l < |items| ensures items[l].JObj? {
          if l > 0 { assert items[l] == tail[l - 1]; }
        }
      }
    }
  }

  /** Question k gets question_id next + k when it and every question
      before it are dicts. */
  lemma {:induction false} NumberQuestionsContent(items: seq<Json>, next: int)
    ensures forall k :: 0 <= k < |items| && DictsThrough(items, k) ==>
      NumberQuestions(items, next).value[k] == JObj(Put(items[k].fields, "question_id", JInt(next + k)))
  {
    if items != [] && items[0].JObj? {
      var tail := items[1..];
      NumberQuestionsContent(tail, next + 1);
      var r := NumberQuestions(items, next).value;
      var rest := NumberQuestions(tail, next + 1).value;
      assert r == [JObj(Put(items[0].fields, "question_id", JInt(next)))] + rest;
      forall k | 1 <= k < |items| && DictsThrough(items, k)
        ensures r[k] == JObj(Put(items[k].fields, "question_id", JInt(next + k)))
      {
        assert r[k] == rest[k - 1] && items[k] == tail[k - 1];
        forall l | 0 <= l <= k - 1 && l < |tail| ensures tail[l].JObj? {
          assert items[l + 1] == tail[l];
        }
      }
    }
  }

  /** The questions from the first one that is not a dict on are left as
      they were. */
  lemma {:induction false} NumberQuestionsUntouched(items: seq<Json>, next: int)
    ensures forall k :: 0 <= k < |items| && !DictsThrough(items, k) ==>
      NumberQuestions(items, next).value[k] == items[k]
  {
    if items != [] && items[0].JObj? {
      var tail := items[1..];
      NumberQuestionsUntouched(tail, next + 1);
      var r := NumberQuestions(items, next).value;
      var rest := NumberQuestions(tail, next + 1).value;
      assert r[1..] == rest;
      forall k | 1 <= k < |items| && !DictsThrough(items, k)
        ensures r[k] == items[k]
      {
        assert r[k] == rest[k - 1] && items[k] == tail[k - 1];
        var l :| 0 <= l <= k && l < |items| && !items[l].JObj?;
        assert tail[l - 1] == items[l];
      }
    }
  }

  /** A chapter that numbers without error is a dict holding its
      chapter_number. */
  lemma NumberChapterNumber(ch: Json, number: int, next: int)
    requires NumberChapter(ch, number, next).failure.None?
    ensures var c := NumberChapter(ch, number, next);
      c.value.JObj? && Lookup(c.value.fields, "chapter_number") == Some(JInt(number))
  {
    var f := ch.fields;
    var f1 := Put(f, "chapter_number", JInt(number));
    PutLookup(f, "chapter_number", JInt(number), "chapter_number");
    if Lookup(f, "questions_answers").value.JArr? {
      var n := NumberQuestions(Lookup(f, "questions_answers").value.items, next);
      PutLookup(f1, "questions_answers", JArr(n.value), "chapter_number");
    }
  }

  /** A chapter that numbers without error gets the ids next, next + 1, ...
      on its questions, and the counter moves past them. */
  lemma NumberChapterIds(ch: Json, number: int, next: int)
    requires NumberChapter(ch, number, next).failure.None?
    ensures var c := NumberChapter(ch, number, next);
      && RunsFrom(ItemIds(ChapterQuestions(c.value)), next)
      && c.next == next + |ItemIds(ChapterQuestions(c.value))|
  {
    var f := ch.fields;
    var f1 := Put(f, "chapter_number", JInt(number));
    match Lookup<Json>(f, "questions_answers")
    case Some(JArr(items)) =>
      var n := NumberQuestions(items, next);
      NumberQuestionsIds(items, next);
      PutLookup(f1, "questions_answers", JArr(n.value), "questions_answers");
    case Some(qs) =>
      PutLookup(f, "chapter_number", JInt(number), "questions_answers");
  }

  /** The exception, if any, that numbering one chapter raises. It depends
      on the chapter alone: not a dict gives TypeError, no
      questions_answers key gives KeyError, a list with an element that is
      not a dict gives TypeError, and questions_answers of any other kind
      completes only when it is an empty str or an empty dict. */
  function ChapterFailure(ch: Json): Option<Exception> {
    if !ch.JObj? then Some(TypeError)
    else match Lookup<Json>(ch.fields, "questions_answers")
      case None => Some(KeyError("questions_answers"))
      case Some(JArr(items)) => if AllDicts(items) then None else Some(TypeError)
      case Some(qs) => if (qs.JStr? || qs.JObj?) && !Truthy(qs) then None else Some(TypeError)
  }

  lemma NumberChapterFailure(ch: Json, number: int, next: int)
    ensures NumberChapter(ch, number, next).failure == ChapterFailure(ch)
  {
    if ch.JObj? {
      match Lookup<Json>(ch.fields, "questions_answers")
      case Some(JArr(items)) => NumberQuestionsFailure(items, next);
      case _ =>
    }
  }

  /** numbered is orig with a question_id put on every question (a dict). */
  predicate Renumbered(orig: seq<Json>, numbered: seq<Json>) {
    && |numbered| == |orig|
    && forall j :: 0 <= j < |orig| ==>
         orig[j].JObj? && numbered[j] == JObj(Put(orig[j].fields, "question_id", ItemIds(numbered)[j]))
  }

  /** c is chapter orig after numbering: every key other than chapter_number
      and questions_answers keeps its value, a list of questions is the same
      list renumbered, and any other questions_answers value is kept. */
  ghost predicate KeepsChapter(orig: Json, c: Json) {
    && orig.JObj? && c.JObj?
    && (forall key :: key != "chapter_number" && key != "questions_answers" ==>
          Lookup(c.fields, key) == Lookup(orig.fields, key))
    && Lookup(orig.fields, "questions_answers").Some?
    && (if Lookup(orig.fields, "questions_answers").value.JArr? then
          && Lookup(c.fields, "questions_answers") == Some(JArr(ChapterQuestions(c)))
          && Renumbered(ChapterQuestions(orig), ChapterQuestions(c))
        else Lookup(c.fields, "questions_answers") == Lookup(orig.fields, "questions_answers"))
  }

  lemma NumberChapterKeeps(ch: Json, number: int, next: int)
    requires NumberChapter(ch, number, next).failure.None?
    ensures KeepsChapter(ch, NumberChapter(ch, number, next).value)
  {
    var c := NumberChapter(ch, number, next);
    var f := ch.fields;
    var f1 := Put(f, "chapter_number", JInt(number));
    forall key ensures Lookup(f1, key) == if key == "chapter_number" then Some(JInt(number)) else Lookup(f, key) {
      PutLookup(f, "chapter_number", JInt(number), key);
    }
    match Lookup<Json>(f, "questions_answers")
    case Some(JArr(items)) =>
      var n := NumberQuestions(items, next);
      forall key ensures Lookup(c.value.fields, key) == if key == "questions_answers" then Some(JArr(n.value)) else Lookup(f1, key) {
        PutLookup(f1, "questions_answers", JArr(n.value), key);
      }
      NumberQuestionsFailure(items, next);
      NumberQuestionsContent(items, next);
      NumberQuestionsIds(items, next);
      forall j | 0 <= j < |items|
        ensures n.value[j] == JObj(Put(items[j].fields, "question_id", ItemIds(n.value)[j]))
      {
        assert DictsThrough(items, j);
      }
    case Some(qs) =>
  }

  /** Chapter k of chs is a dict whose chapter_number is first + k. */
  predicate ChapterNumbersFrom(chs: seq<Json>, first: int) {
    forall k :: 0 <= k < |chs| ==>
      chs[k].JObj? && Lookup(chs[k].fields, "chapter_number") == Some(JInt(first + k))
  }

  lemma ConsChapterNumbers(x: Json, rest: seq<Json>, first: int)
    requires x.JObj? && Lookup(x.fields, "chapter_number") == Some(JInt(first))
    requires ChapterNumbersFrom(rest, first + 1)
    ensures ChapterNumbersFrom([x] + rest, first)
  {
    forall k | 1 <= k < |[x] + rest|
      ensures ([x] + rest)[k] == rest[k - 1]
    {
    }
  }

  /** The question ids of chs are from, ..., to - 1. */
  predicate IdsBetween(chs: seq<Json>, from: int, to: int) {
    RunsFrom(QuestionIds(chs), from) && to == from + |QuestionIds(chs)|
  }

  lemma ConsQuestionIds(x: Json, rest: seq<Json>, from: int, mid: int, to: int)
    requires RunsFrom(ItemIds(ChapterQuestions(x)), from) && mid == from + |ItemIds(ChapterQuestions(x))|
    requires IdsBetween(rest, mid, to)
    ensures IdsBetween([x] + rest, from, to)
  {
    assert ([x] + rest)[1..] == rest;
    AppendRuns(ItemIds(ChapterQuestions(x)), QuestionIds(rest), from);
  }

  /** A loop that completes from position i completed chapter i and
      everything after it. */
  lemma NumberEachDone(body: (Json, int, int) -> Numbered<Json>, chs: seq<Json>, i: nat, next: int)
    requires i < |chs|
    requires NumberEach(body, chs, i, next).failure.None?
    ensures var c := body(chs[i], i + 1, next);
      var rest := NumberEach(body, chs, i + 1, c.next);
      && c.failure.None? && rest.failure.None?
      && NumberEach(body, chs, i, next) == Numbered([c.value] + rest.value, rest.next, None)
  {
  }

  /** Each chapter body that completes numbers its own questions from the
      counter it is given and moves the counter past them. */
  ghost predicate NumbersQuestions(body: (Json, int, int) -> Numbered<Json>) {
    forall ch, n, next :: body(ch, n, next).failure.None? ==>
      && RunsFrom(ItemIds(ChapterQuestions(body(ch, n, next).value)), next)
      && body(ch, n, next).next == next + |ItemIds(ChapterQuestions(body(ch, n, next).value))|
  }

  /** Each chapter body that completes leaves a dict with the chapter_number it is given. */
  ghost predicate SetsChapterNumber(body: (Json, int, int) -> Numbered<Json>) {
    forall ch, n, next :: body(ch, n, next).failure.None? ==>
      body(ch, n, next).value.JObj? && Lookup(body(ch, n, next).value.fields, "chapter_number") == Some(JInt(n))
  }

  lemma {:induction false} NumberEachIds(body: (Json, int, int) -> Numbered<Json>, chs: seq<Json>, i: nat, next: int)
    requires NumbersQuestions(body)
    requires i <= |chs|
    requires NumberEach(body, chs, i, next).failure.None?
    ensures IdsBetween(NumberEach(body, chs, i, next).value, next, NumberEach(body, chs, i, next).next)
    decreases |chs| - i
  {
    if i < |chs| {
      var c := body(chs[i], i + 1, next);
      NumberEachDone(body, chs, i, next);
      NumberEachIds(body, chs, i + 1, c.next);
      var rest := NumberEach(body, chs, i + 1, c.next);
      ConsQuestionIds(c.value, rest.value, next, c.next, rest.next);
    }
  }

  lemma {:induction false} NumberEachNumbers(body: (Json, int, int) -> Numbered<Json>, chs: seq<Json>, i: nat, next: int)
    requires SetsChapterNumber(body)
    requires i <= |chs|
    requires NumberEach(body, chs, i, next).failure.None?
    ensures ChapterNumbersFrom(NumberEach(body, chs, i, next).value, i + 1)
    decreases |chs| - i
  {
    if i < |chs| {
      var c := body(chs[i], i + 1, next);
      NumberEachDone(body, chs, i, next);
      NumberEachNumbers(body, chs, i + 1, c.next);
      var rest := NumberEach(body, chs, i + 1, c.next);
      ConsChapterNumbers(c.value, rest.value, i + 1);
    }
  }

  /** Each chapter body raises what ChapterFailure names for its chapter. */
  ghost predicate FailsAs(body: (Json, int, int) -> Numbered<Json>) {
    forall ch, n, next :: body(ch, n, next).failure == ChapterFailure(ch)
  }

  /** Each chapter body that completes keeps its chapter's content. */
  ghost predicate KeepsContent(body: (Json, int, int) -> Numbered<Json>) {
    forall ch, n, next :: body(ch, n, next).failure.None? ==> KeepsChapter(ch, body(ch, n, next).value)
  }

  /** Chapter k is the first from position i on whose numbering fails. */
  predicate FirstFailureAt(chs: seq<Json>, i: nat, k: nat) {
    && i <= k < |chs| && ChapterFailure(chs[k]).Some?
    && forall l :: i <= l < k ==> ChapterFailure(chs[l]).None?
  }

  /** The loop completes exactly when no chapter from position i on fails,
      and otherwise raises what the first failing chapter raises. */
  lemma {:induction false} NumberEachFailure(body: (Json, int, int) -> Numbered<Json>, chs: seq<Json>, i: nat, next: int)
    requires FailsAs(body)
    requires i <= |chs|
    ensures var r := NumberEach(body, chs, i, next);
      && (r.failure.None? <==> forall k :: i <= k < |chs| ==> ChapterFailure(chs[k]).None?)
      && (r.failure.Some? ==> exists k: nat :: FirstFailureAt(chs, i, k) && r.failure == ChapterFailure(chs[k]))
    decreases |chs| - i
  {
    if i < |chs| {
      var c := body(chs[i], i + 1, next);
      assert c.failure == ChapterFailure(chs[i]);
      if c.failure.None? {
        NumberEachFailure(body, chs, i + 1, c.next);
      }
    }
  }

  lemma {:induction false} NumberEachKeeps(body: (Json, int, int) -> Numbered<Json>, chs: seq<Json>, i: nat, next: int)
    requires KeepsContent(body)
    requires i <= |chs|
    requires NumberEach(body, chs, i, next).failure.None?
    ensures forall k :: 0 <= k < |chs| - i ==> KeepsChapter(chs[i + k], NumberEach(body, chs, i, next).value[k])
    decreases |chs| - i
  {
    if i < |chs| {
      var c := body(chs[i], i + 1, next);
      NumberEachDone(body, chs, i, next);
      NumberEachKeeps(body, chs, i + 1, c.next);
      var r := NumberEach(body, chs, i, next).value;
      var rest := NumberEach(body, chs, i + 1, c.next).value;
      assert r == [c.value] + rest;
      forall k | 1 <= k < |chs| - i
        ensures KeepsChapter(chs[i + k], r[k])
      {
        assert r[k] == rest[k - 1];
        assert chs[i + k] == chs[(i + 1) + (k - 1)];
      }
    }
  }

  /** Numbering qa_data raises exactly when some chapter fails, and then
      raises what the first failing chapter raises; a numbering that
      completes keeps the content of every chapter. */
  lemma NumberChaptersContent(chs: seq<Json>, next: int)
    ensures var r := NumberChapters(chs, 0, next);
      && (r.failure.None? <==> forall k :: 0 <= k < |chs| ==> ChapterFailure(chs[k]).None?)
      && (r.failure.Some? ==> exists k: nat :: FirstFailureAt(chs, 0, k) && r.failure == ChapterFailure(chs[k]))
      && (r.failure.None? ==> forall k :: 0 <= k < |chs| ==> KeepsChapter(chs[k], r.value[k]))
  {
    forall ch, n, nx ensures NumberChapter(ch, n, nx).failure == ChapterFailure(ch) {
      NumberChapterFailure(ch, n, nx);
    }
    forall ch, n, nx | NumberChapter(ch, n, nx).failure.None?
      ensures KeepsChapter(ch, NumberChapter(ch, n, nx).value)
    {
      NumberChapterKeeps(ch, n, nx);
    }
    NumberEachFailure(NumberChapter, chs, 0, next);
    if NumberChapters(chs, 0, next).failure.None? {
      NumberEachKeeps(NumberChapter, chs, 0, next);
    }
  }

  /** A numbering of qa_data that completes gives question ids that run on
      without gap from next, and chapter k from position i the
      chapter_number i + k + 1. */
  lemma NumberChaptersIds(chs: seq<Json>, i: nat, next: int)
    requires i <= |chs|
    requires NumberChapters(chs, i, next).failure.None?
    ensures var r := NumberChapters(chs, i, next);
      IdsBetween(r.value, next, r.next) && ChapterNumbersFrom(r.value, i + 1)
  {
    forall ch, n, nx | NumberChapter(ch, n, nx).failure.None?
      ensures RunsFrom(ItemIds(ChapterQuestions(NumberChapter(ch, n, nx).value)), nx)
      ensures NumberChapter(ch, n, nx).next == nx + |ItemIds(ChapterQuestions(NumberChapter(ch, n, nx).value))|
      ensures NumberChapter(ch, n, nx).value.JObj?
      ensures Lookup(NumberChapter(ch, n, nx).value.fields, "chapter_number") == Some(JInt(n))
    {
      NumberChapterIds(ch, n, nx);
      NumberChapterNumber(ch, n, nx);
    }
    NumberEachIds(NumberChapter, chs, i, next);
    NumberEachNumbers(NumberChapter, chs, i, next);
  }

  /** After a successful store, the chapters held for (user_id, book_id) are
      numbered 1, 2, ... by position, and their question ids are 100, 101,
      ... consecutively across all chapters, hence unique and strictly
      increasing. */
  lemma StoredNumbering(rows: map<RowKey, Row>, userId: string, bookId: string, qaData: seq<Json>, rowId: string, now: string)
    requires Store(rows, userId, bookId, qaData, rowId, now).status == Ok(StoredOk(rowId))
    ensures var stored := Store(rows, userId, bookId, qaData, rowId, now).rows[(userId, bookId)].chapters;
      var ids := QuestionIds(stored);
      && |stored| == |qaData|
      && ChapterNumbersFrom(stored, 1)
      && RunsFrom(ids, FirstQuestionId)
      && (forall i, j :: 0 <= i < j < |ids| ==> ids[i].n < ids[j].n)
      && (forall k :: 0 <= k < |qaData| ==> KeepsChapter(qaData[k], stored[k]))
  {
    NumberChaptersIds(qaData, 0, FirstQuestionId);
    NumberChaptersContent(qaData, FirstQuestionId);
  }

  /** A store on non-empty qa_data succeeds exactly when no chapter fails,
      and otherwise raises what the first failing chapter raises, leaving
      the table as it was. */
  lemma StoreFailure(rows: map<RowKey, Row>, userId: string, bookId: string, qaData: seq<Json>, rowId: string, now: string)
    ensures var out := Store(rows, userId, bookId, qaData, rowId, now);
      && (out.status == Ok(StoredOk(rowId)) <==>
            qaData != [] && forall k :: 0 <= k < |qaData| ==> ChapterFailure(qaData[k]).None?)
      && (out.status.Err? ==>
            && out.rows == rows
            && exists k: nat :: FirstFailureAt(qaData, 0, k) && ChapterFailure(qaData[k]) == Some(out.status.error))
  {
    NumberChaptersContent(qaData, FirstQuestionId);
  }

  /** The table of store_questions_answers.py as an object whose methods
      update it in place. */
  class QuestionTable {
    var rows: map<RowKey, Row>

    constructor ()
      ensures rows == map[]
    {
      rows := map[];
    }

    /** The inner loop: numbers the questions of one chapter from next. */
    static method NumberItems(items: seq<Json>, next: int) returns (r: Numbered<seq<Json>>)
      ensures r == NumberQuestions(items, next)
    {
      var done: seq<Json> := [];
      var counter := next;
      var j := 0;
      assert items[j..] == items;
      assert [] + NumberQuestions(items, next).value == NumberQuestions(items, next).value;
      while j < |items|
        invariant 0 <= j <= |items|
        invariant NumberQuestions(items, next) == PrependItems(done, NumberQuestions(items[j..], counter))
        decreases |items| - j
      {
        NumberQuestionsStep(items[j..], counter);
        if !items[j].JObj? {
          return Numbered(done + items[j..], counter, Some(TypeError));
        }
        assert items[j..][1..] == items[j + 1..];
        var x := JObj(Put(items[j].fields, "question_id", JInt(counter)));
        PrependAssoc(done, x, NumberQuestions(items[j + 1..], counter + 1));
        done := done + [x];
        counter := counter + 1;
        j := j + 1;
      }
      assert items[j..] == [] && done + [] == done;
      r := Numbered(done, counter, None);
    }

    /** The outer loop body for one chapter. */
    static method NumberOne(ch: Json, number: int, next: int) returns (c: Numbered<Json>)
      ensures c == NumberChapter(ch, number, next)
    {
      if !ch.JObj? {
        return Numbered(ch, next, Some(TypeError));
      }
      var f1 := Put(ch.fields, "chapter_number", JInt(number));
      var qs := Lookup(ch.fields, "questions_answers");
      if qs.None? {
        c := Numbered(JObj(f1), next, Some(KeyError("questions_answers")));
      } else if qs.value.JArr? {
        var n := NumberItems(qs.value.items, next);
        c := Numbered(JObj(Put(f1, "questions_answers", JArr(n.value))), n.next, n.failure);
      } else {
        var empty := (qs.value.JStr? || qs.value.JObj?) && !Truthy(qs.value);
        c := Numbered(JObj(f1), next, if empty then None else Some(TypeError));
      }
    }

    /** The outer loop of store_questions_answers: numbers the chapters of
        qa_data in place, chapters from 1 and questions from 100. */
    static method NumberInPlace(qaData: array<Json>) returns (failure: Option<Exception>)
      modifies qaData
      ensures var n := NumberChapters(old(qaData[..]), 0, FirstQuestionId);
        qaData[..] == n.value && failure == n.failure
    {
      ghost var orig := qaData[..];
      ghost var spec := NumberChapters(orig, 0, FirstQuestionId);
      ghost var done: seq<Json> := [];
      var counter := FirstQuestionId;
      var i := 0;
      assert orig == done + orig[i..];
      PrependNothing(spec);
      while i < qaData.Length
        invariant 0 <= i <= qaData.Length == |orig|
        invariant qaData[..] == done + orig[i..]
        invariant spec == PrependItems(done, NumberChapters(orig, i, counter))
      {
        var c := NumberOne(qaData[i], i + 1, counter);
        ChapterLoopStep(spec, done, orig, i, counter, c);
        SpliceOne(qaData[..], done, c.value, orig[i..]);
        qaData[i] := c.value;
        if c.failure.Some? {
          return c.failure;
        }
        done := done + [c.value];
        assert orig[i..][1..] == orig[i + 1..];
        counter := c.next;
        i := i + 1;
      }
      assert qaData[..] == done;
      failure := None;
    }

    /** store_questions_answers: numbers qa_data in place and upserts it. */
    method StoreQuestionsAnswers(userId: string, bookId: string, qaData: array<Json>, pick: nat -> Draw, now: string)
      returns (status: Result<StoreStatus, Exception>)
      modifies this, qaData
      ensures var out := Store(old(rows), userId, bookId, old(qaData[..]), GenerateRowId(pick), now);
        status == out.status && rows == out.rows && qaData[..] == out.chapters
    {
      if qaData.Length == 0 {
        return Ok(NoQuestionsGenerated);
      }
      var rowId := GenerateRowId(pick);
      var failure := NumberInPlace(qaData);
      if failure.Some? {
        return Err(failure.value);
      }
      rows := rows[(userId, bookId) := Row(qaData[..], now, rowId)];
      status := Ok(StoredOk(rowId));
    }

    /** fetch_questions_answers: the row for (user_id, book_id), or the default. */
    method FetchQuestionsAnswers(userId: string, bookId: string) returns (r: StoredData)
      ensures r == Fetch(rows, userId, bookId)
    {
      if (userId, bookId) in rows {
        var row := rows[(userId, bookId)];
        r := StoredData(row.chapters, Some(row.rowId), Some(row.time));
      } else {
        r := StoredData([], None, None);
      }
    }
  }

  /** The result of a loop that has already produced `done` and whose
      remaining iterations produce `rest`. */
  function PrependItems<T>(done: seq<T>, rest: Numbered<seq<T>>): Numbered<seq<T>> {
    Numbered(done + rest.value, rest.next, rest.failure)
  }

  lemma PrependNothing<T>(rest: Numbered<seq<T>>)
    ensures PrependItems([], rest) == rest
  {
    assert [] + rest.value == rest.value;
  }

  lemma PrependAssoc<T>(done: seq<T>, x: T, rest: Numbered<seq<T>>)
    ensures PrependItems(done, Numbered([x] + rest.value, rest.next, rest.failure))
         == PrependItems(done + [x], rest)
  {
    assert done + ([x] + rest.value) == (done + [x]) + rest.value;
  }

  /** Writing x at position |done| of done + rest. */
  lemma SpliceOne<T>(a: seq<T>, done: seq<T>, x: T, rest: seq<T>)
    requires a == done + rest && rest != []
    ensures a[|done| := x] == done + [x] + rest[1..]
  {
  }

  /** One iteration of the chapter loop, on values: `spec` is the whole
      loop's result and `done` the chapters before position i. */
  lemma ChapterLoopStep(spec: Numbered<seq<Json>>, done: seq<Json>, chs: seq<Json>, i: nat, next: int, c: Numbered<Json>)
    requires i < |chs|
    requires spec == PrependItems(done, NumberChapters(chs, i, next))
    requires c == NumberChapter(chs[i], i + 1, next)
    ensures c.failure.Some? ==> spec == Numbered(done + [c.value] + chs[i + 1..], c.next, c.failure)
    ensures c.failure.None? ==> spec == PrependItems(done + [c.value], NumberChapters(chs, i + 1, c.next))
  {
    if c.failure.Some? {
      assert done + ([c.value] + chs[i + 1..]) == done + [c.value] + chs[i + 1..];
    } else {
      PrependAssoc(done, c.value, NumberChapters(chs, i + 1, c.next));
    }
  }

  lemma NumberQuestionsStep(items: seq<Json>, next: int)
    requires items != []
    ensures NumberQuestions(items, next) ==
      if items[0].JObj? then
        var rest := NumberQuestions(items[1..], next + 1);
        Numbered([JObj(Put(items[0].fields, "question_id", JInt(next)))] + rest.value, rest.next, rest.failure)
      else Numbered(items, next, Some(TypeError))
  {
  }
}
