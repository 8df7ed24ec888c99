/** The question map and the grading loop. validate_answers in
    langgraph_workflow.py and the /validate_answers handler in
    validation_api.py repeat the same code for both; they differ only in
    what they do with an unknown question id, which is left to them. */
module Grading {
  import opened Python
  import opened JsonValue
  import opened ValidationApi

  /** question_map[question_id]: what grading keeps of a stored question.
      questionType is the stored value as written; it is a str, since
      .lower() has already been called on it. */
  datatype QuestionInfo = QuestionInfo(
    question: Json,
    questionType: string,
    chapterName: Json,
    chapterId: Json,
    correctAnswer: Json,
    options: Json)

  type QuestionMap = Dict<QuestionInfo>

  /** A question dict of a chapter, with the chapter's name and number. */
  datatype Tagged = Tagged(qa: Fields, chapterName: Json, chapterNumber: Json)

  const UnknownChapter: string := "Unknown Chapter"

  /** chapter.get("questions_answers", []), decoded when it is a str (a
      decoding error gives []): its elements when it is a list, none
      otherwise. */
  function ChapterItems(f: Fields, parse: string -> Result<Json, string>): seq<Json> {
    var qas := Get(f, "questions_answers", JArr([]));
    var decoded := if qas.JStr? then (if parse(qas.s).Ok? then parse(qas.s).value else JArr([])) else qas;
    if decoded.JArr? then decoded.items else []
  }

  /** The dicts among items[..k], tagged with their chapter. */
  function TagItems(items: seq<Json>, k: nat, name: Json, number: Json): (r: seq<Tagged>)
    requires k <= |items|
    ensures |r| <= k
  {
    if k == 0 then []
    else
      TagItems(items, k - 1, name, number)
      + (if items[k - 1].JObj? then [Tagged(items[k - 1].fields, name, number)] else [])
  }

  /** The questions one entry of chapters_data contributes: none unless it
      is a dict. */
  function ChapterTags(ch: Json, parse: string -> Result<Json, string>): seq<Tagged> {
    if ch.JObj? then
      var items := ChapterItems(ch.fields, parse);
      TagItems(items, |items|,
        Get(ch.fields, "chapter_name", JStr(UnknownChapter)),
        Get(ch.fields, "chapter_number", JInt(0)))
    else []
  }

  /** The questions of chs[..n], chapter by chapter, in order. */
  function Flatten(chs: seq<Json>, n: nat, parse: string -> Result<Json, string>): seq<Tagged>
    requires n <= |chs|
  {
    if n == 0 then [] else Flatten(chs, n - 1, parse) + ChapterTags(chs[n - 1], parse)
  }

  /** Each option after str().strip().lower(). */
  function CleanAll(options: seq<Json>): (r: seq<string>)
    ensures |r| == |options|
    ensures forall k :: 0 <= k < |r| ==> r[k] == Clean(options[k])
  {
    seq(|options|, k requires 0 <= k < |options| => Clean(options[k]))
  }

  /** The position of the first of keys[i..] equal to key. */
  function IndexFrom(keys: seq<string>, key: string, i: nat): (r: Option<nat>)
    requires i <= |keys|
    ensures r.Some? ==>
      && i <= r.value < |keys| && keys[r.value] == key
      && forall k :: i <= k < r.value ==> keys[k] != key
    ensures r.None? ==> forall k :: i <= k < |keys| ==> keys[k] != key
    decreases |keys| - i
  {
    if i == |keys| then None
    else if keys[i] == key then Some(i)
    else IndexFrom(keys, key, i + 1)
  }

  /** The canonical MCQ answer: the index of the first option equal to the
      answer under strip() and lower(), None when no option matches. */
  function CanonicalIndex(options: seq<Json>, answer: Json): (r: Option<nat>)
    ensures r.Some? ==>
      && r.value < |options| && Clean(options[r.value]) == Clean(answer)
      && forall k :: 0 <= k < r.value ==> Clean(options[k]) != Clean(answer)
    ensures r.None? <==> forall k :: 0 <= k < |options| ==> Clean(options[k]) != Clean(answer)
  {
    IndexFrom(CleanAll(options), Clean(answer), 0)
  }

  /** The search for correct_index: enumerate the options and stop at the
      first match. */
  method FindCorrectIndex(options: seq<Json>, answer: Json) returns (idx: Option<nat>)
    ensures idx == CanonicalIndex(options, answer)
  {
    var key := Clean(answer);
    ghost var keys := CleanAll(options);
    var i := 0;
    while i < |options|
      invariant i <= |options|
      invariant IndexFrom(keys, key, 0) == IndexFrom(keys, key, i)
    {
      var option := Clean(options[i]);
      assert option == keys[i];
      if option == key {
        return Some(i);
      }
      i := i + 1;
    }
    return None;
  }

  /** An optional index as the JSON value stored for it. */
  function IndexValue(index: Option<nat>): Json {
    if index.Some? then JInt(index.value) else JNull
  }

  /** str(qa.get("question_id")): a question without an id is filed under
      "None". */
  function QuestionId(t: Tagged): string {
    Str(Get(t.qa, "question_id", JNull))
  }

  /** The map entry for one question, or the AttributeError that
      qa.get("question_type", "").lower() raises when the type is not a str. */
  function Entry(t: Tagged): (r: Result<(string, QuestionInfo), Exception>)
    ensures r.Err? <==> !Get(t.qa, "question_type", JStr("")).JStr?
    ensures r.Err? ==> r.error == AttributeError
    ensures r.Ok? ==>
      && r.value.0 == QuestionId(t)
      && r.value.1.chapterName == t.chapterName && r.value.1.chapterId == t.chapterNumber
      && r.value.1.question == Get(t.qa, "question", JStr(""))
      && r.value.1.questionType == Get(t.qa, "question_type", JStr("")).s
    ensures r.Ok? && Lower(r.value.1.questionType) == "mcq" ==>
      var options := Get(t.qa, "options", JArr([]));
      && r.value.1.options == options
      && r.value.1.correctAnswer ==
           (if options.JArr? then IndexValue(CanonicalIndex(options.items, Get(t.qa, "answer", JStr("")))) else JNull)
      && (r.value.1.correctAnswer.JInt? ==>
            && options.JArr? && 0 <= r.value.1.correctAnswer.n < |options.items|
            && Clean(options.items[r.value.1.correctAnswer.n]) == Clean(Get(t.qa, "answer", JStr(""))))
      && (r.value.1.correctAnswer.JNull? <==>
            !options.JArr?
            || forall k :: 0 <= k < |options.items| ==> Clean(options.items[k]) != Clean(Get(t.qa, "answer", JStr(""))))
      && (r.value.1.correctAnswer.JInt? || r.value.1.correctAnswer.JNull?)
    ensures r.Ok? && Lower(r.value.1.questionType) != "mcq" ==>
      r.value.1.correctAnswer == Get(t.qa, "answer", JStr("")) && r.value.1.options == JObj([])
  {
    match Get(t.qa, "question_type", JStr(""))
    case JStr(qt) =>
      var options := Get(t.qa, "options", JArr([]));
      var answer := Get(t.qa, "answer", JStr(""));
      var mcq := Lower(qt) == "mcq";
      var index := if mcq && options.JArr? then CanonicalIndex(options.items, answer) else None;
      Ok((QuestionId(t), QuestionInfo(
        Get(t.qa, "question", JStr("")), qt, t.chapterName, t.chapterNumber,
        if mcq then IndexValue(index) else answer,
        if mcq then options else JObj([]))))
    case _ => Err(AttributeError)
  }

  /** The body of the inner loop: the map entry for one question dict. */
  method QuestionEntry(qa: Fields, chapterName: Json, chapterNumber: Json) returns (r: Result<(string, QuestionInfo), Exception>)
    ensures r == Entry(Tagged(qa, chapterName, chapterNumber))
  {
    var questionId := Str(Get(qa, "question_id", JNull));
    var questionType := Get(qa, "question_type", JStr(""));
    if !questionType.JStr? {
      return Err(AttributeError);
    }
    var qt := Lower(questionType.s);
    var options := Get(qa, "options", JArr([]));
    var correctAnswer := Get(qa, "answer", JStr(""));
    var correctIndex: Option<nat> := None;
    if qt == "mcq" && options.JArr? {
      correctIndex := FindCorrectIndex(options.items, correctAnswer);
    }
    var info := QuestionInfo(
      Get(qa, "question", JStr("")), questionType.s, chapterName, chapterNumber,
      if qt == "mcq" then IndexValue(correctIndex) else correctAnswer,
      if qt == "mcq" then options else JObj([]));
    return Ok((questionId, info));
  }

  /** What computes one question's map entry. */
  type EntryFn = Tagged -> Result<(string, QuestionInfo), Exception>

  /** One question added to question_map; an earlier exception stands. */
  function Step(entry: EntryFn, acc: Result<QuestionMap, Exception>, t: Tagged): Result<QuestionMap, Exception> {
    match acc
    case Err(e) => Err(e)
    case Ok(m) =>
      match entry(t)
      case Err(e) => Err(e)
      case Ok(p) => Ok(Put(m, p.0, p.1))
  }

  /** question_map after the entries for ts, in order; the first entry that
      fails stops the loop with its exception. */
  function MapFold(entry: EntryFn, ts: seq<Tagged>): Result<QuestionMap, Exception>
    decreases |ts|
  {
    if ts == [] then Ok([]) else Step(entry, MapFold(entry, ts[..|ts| - 1]), ts[|ts| - 1])
  }

  lemma MapFoldSnoc(entry: EntryFn, ts: seq<Tagged>, t: Tagged)
    ensures MapFold(entry, ts + [t]) == Step(entry, MapFold(entry, ts), t)
  {
    assert (ts + [t])[..|ts|] == ts;
  }

  lemma MapFoldAppendStep(entry: EntryFn, done: seq<Tagged>, tags: seq<Tagged>, t: Tagged)
    ensures MapFold(entry, done + (tags + [t])) == Step(entry, MapFold(entry, done + tags), t)
  {
    assert done + (tags + [t]) == (done + tags) + [t];
    MapFoldSnoc(entry, done + tags, t);
  }

  /** The question map of chapters_data. */
  function QuestionMapOf(chs: seq<Json>, parse: string -> Result<Json, string>): Result<QuestionMap, Exception> {
    MapFold(Entry, Flatten(chs, |chs|, parse))
  }

  /** The map is built exactly when every entry succeeds; otherwise the
      error is the first failing entry's. */
  lemma {:induction false} MapFoldFails(entry: EntryFn, ts: seq<Tagged>)
    ensures MapFold(entry, ts).Ok? <==> forall k :: 0 <= k < |ts| ==> entry(ts[k]).Ok?
    ensures MapFold(entry, ts).Err? ==>
      exists k :: 0 <= k < |ts| && entry(ts[k]).Err?
        && MapFold(entry, ts).error == entry(ts[k]).error
        && forall l :: 0 <= l < k ==> entry(ts[l]).Ok?
    decreases |ts|
  {
    if ts != [] {
      var init := ts[..|ts| - 1];
      MapFoldFails(entry, init);
      assert forall k :: 0 <= k < |init| ==> init[k] == ts[k];
    }
  }

  /** The info the last entry under question id q carries, if any. */
  function LastInfo(entry: EntryFn, ts: seq<Tagged>, q: string): Option<QuestionInfo>
    decreases |ts|
  {
    if ts == [] then None
    else
      var e := entry(ts[|ts| - 1]);
      if e.Ok? && e.value.0 == q then Some(e.value.1) else LastInfo(entry, ts[..|ts| - 1], q)
  }

  /** A later question with the same id overwrites an earlier one. */
  lemma {:induction false} MapFoldLookup(entry: EntryFn, ts: seq<Tagged>, q: string)
    requires MapFold(entry, ts).Ok?
    ensures Lookup(MapFold(entry, ts).value, q) == LastInfo(entry, ts, q)
    decreases |ts|
  {
    if ts != [] {
      var init := ts[..|ts| - 1];
      MapFoldLookup(entry, init, q);
      var p := entry(ts[|ts| - 1]).value;
      PutLookup(MapFold(entry, init).value, p.0, p.1, q);
    }
  }

  /** The ids the entries of ts are filed under, repeats included. */
  function EntryIds(entry: EntryFn, ts: seq<Tagged>): (r: seq<string>)
    ensures |r| == |ts|
  {
    seq(|ts|, k requires 0 <= k < |ts| => if entry(ts[k]).Ok? then entry(ts[k]).value.0 else "")
  }

  /** The map holds each question id once, in the order ids first appear. */
  lemma {:induction false} MapFoldKeys(entry: EntryFn, ts: seq<Tagged>)
    requires MapFold(entry, ts).Ok?
    ensures Keys(MapFold(entry, ts).value) == Dedup(EntryIds(entry, ts))
    decreases |ts|
  {
    if ts != [] {
      var init := ts[..|ts| - 1];
      MapFoldKeys(entry, init);
      var p := entry(ts[|ts| - 1]).value;
      assert EntryIds(entry, ts) == EntryIds(entry, init) + [p.0];
      PutDedupKeys(MapFold(entry, init).value, EntryIds(entry, init), p.0, p.1);
    }
  }

  /** The inner loop's fold: the dicts among items[..k] added to acc. */
  function ItemsFold(entry: EntryFn, acc: Result<QuestionMap, Exception>, items: seq<Json>, k: nat, name: Json, number: Json): Result<QuestionMap, Exception>
    requires k <= |items|
  {
    if k == 0 then acc
    else
      var prev := ItemsFold(entry, acc, items, k - 1, name, number);
      if items[k - 1].JObj? then Step(entry, prev, Tagged(items[k - 1].fields, name, number)) else prev
  }

  /** The outer loop's fold: the chapters chs[..n] in turn. */
  function ChaptersFold(entry: EntryFn, chs: seq<Json>, n: nat, parse: string -> Result<Json, string>): Result<QuestionMap, Exception>
    requires n <= |chs|
  {
    if n == 0 then Ok([])
    else
      var prev := ChaptersFold(entry, chs, n - 1, parse);
      var ch := chs[n - 1];
      if ch.JObj? then
        var items := ChapterItems(ch.fields, parse);
        ItemsFold(entry, prev, items, |items|,
          Get(ch.fields, "chapter_name", JStr(UnknownChapter)), Get(ch.fields, "chapter_number", JInt(0)))
      else prev
  }

  lemma {:induction false} ItemsFoldFlat(entry: EntryFn, done: seq<Tagged>, items: seq<Json>, k: nat, name: Json, number: Json)
    requires k <= |items|
    ensures ItemsFold(entry, MapFold(entry, done), items, k, name, number) == MapFold(entry, done + TagItems(items, k, name, number))
  {
    if k == 0 {
      assert done + TagItems(items, 0, name, number) == done;
    } else {
      ItemsFoldFlat(entry, done, items, k - 1, name, number);
      var tags := TagItems(items, k - 1, name, number);
      if items[k - 1].JObj? {
        var t := Tagged(items[k - 1].fields, name, number);
        assert TagItems(items, k, name, number) == tags + [t];
        MapFoldAppendStep(entry, done, tags, t);
      } else {
        assert TagItems(items, k, name, number) == tags;
      }
    }
  }

  /** The nested loops compute the flat fold over every question. */
  lemma {:induction false} ChaptersFoldFlat(entry: EntryFn, chs: seq<Json>, n: nat, parse: string -> Result<Json, string>)
    requires n <= |chs|
    ensures ChaptersFold(entry, chs, n, parse) == MapFold(entry, Flatten(chs, n, parse))
  {
    if n > 0 {
      ChaptersFoldFlat(entry, chs, n - 1, parse);
      var ch := chs[n - 1];
      var before := Flatten(chs, n - 1, parse);
      assert Flatten(chs, n, parse) == before + ChapterTags(ch, parse);
      if ch.JObj? {
        var items := ChapterItems(ch.fields, parse);
        var name := Get(ch.fields, "chapter_name", JStr(UnknownChapter));
        var number := Get(ch.fields, "chapter_number", JInt(0));
        assert ChapterTags(ch, parse) == TagItems(items, |items|, name, number);
        ItemsFoldFlat(entry, before, items, |items|, name, number);
      } else {
        assert before + ChapterTags(ch, parse) == before;
      }
    }
  }

  lemma {:induction false} ItemsFoldErr(entry: EntryFn, acc: Result<QuestionMap, Exception>, items: seq<Json>, j: nat, k: nat, name: Json, number: Json)
    requires j <= k <= |items| && ItemsFold(entry, acc, items, j, name, number).Err?
    ensures ItemsFold(entry, acc, items, k, name, number) == ItemsFold(entry, acc, items, j, name, number)
    decreases k
  {
    if j < k {
      ItemsFoldErr(entry, acc, items, j, k - 1, name, number);
    }
  }

  lemma {:induction false} ChaptersFoldErr(entry: EntryFn, chs: seq<Json>, i: nat, n: nat, parse: string -> Result<Json, string>)
    requires i <= n <= |chs| && ChaptersFold(entry, chs, i, parse).Err?
    ensures ChaptersFold(entry, chs, n, parse) == ChaptersFold(entry, chs, i, parse)
    decreases n
  {
    if i < n {
      ChaptersFoldErr(entry, chs, i, n - 1, parse);
      var ch := chs[n - 1];
      if ch.JObj? {
        var items := ChapterItems(ch.fields, parse);
        ItemsFoldErr(entry, ChaptersFold(entry, chs, n - 1, parse), items, 0, |items|,
          Get(ch.fields, "chapter_name", JStr(UnknownChapter)), Get(ch.fields, "chapter_number", JInt(0)));
      }
    }
  }

  /** entry computes Entry. */
  ghost predicate IsEntry(entry: EntryFn) {
    forall t {:trigger Entry(t)} :: entry(t) == Entry(t)
  }

  /** The inner loop's body, seen through entry. */
  method EntryTurn(qa: Fields, chapterName: Json, chapterNumber: Json, ghost entry: EntryFn)
    returns (r: Result<(string, QuestionInfo), Exception>)
    requires IsEntry(entry)
    ensures r == entry(Tagged(qa, chapterName, chapterNumber))
  {
    r := QuestionEntry(qa, chapterName, chapterNumber);
  }

  /** The chapter's name, number and question list, with their defaults. */
  method ChapterQuestions(f: Fields, parse: string -> Result<Json, string>) returns (chapterName: Json, chapterNumber: Json, items: seq<Json>)
    ensures chapterName == Get(f, "chapter_name", JStr(UnknownChapter))
    ensures chapterNumber == Get(f, "chapter_number", JInt(0))
    ensures items == ChapterItems(f, parse)
  {
    chapterName := Get(f, "chapter_name", JStr(UnknownChapter));
    chapterNumber := Get(f, "chapter_number", JInt(0));
    var questionsAnswers := Get(f, "questions_answers", JArr([]));
    if questionsAnswers.JStr? {
      var decoded := parse(questionsAnswers.s);
      questionsAnswers := if decoded.Ok? then decoded.value else JArr([]);
    }
    items := if questionsAnswers.JArr? then questionsAnswers.items else [];
  }

  /** The inner loop: the question dicts of one chapter added to
      question_map. */
  method AddQuestions(questionMap: QuestionMap, items: seq<Json>, chapterName: Json, chapterNumber: Json, ghost entry: EntryFn)
    returns (r: Result<QuestionMap, Exception>)
    requires IsEntry(entry)
    ensures r == ItemsFold(entry, Ok(questionMap), items, |items|, chapterName, chapterNumber)
  {
    var m := questionMap;
    var k := 0;
    while k < |items|
      invariant k <= |items|
      invariant ItemsFold(entry, Ok(questionMap), items, k, chapterName, chapterNumber) == Ok(m)
    {
      if items[k].JObj? {
        var e := EntryTurn(items[k].fields, chapterName, chapterNumber, entry);
        if e.Err? {
          ItemsFoldErr(entry, Ok(questionMap), items, k + 1, |items|, chapterName, chapterNumber);
          return Err(e.error);
        }
        m := Put(m, e.value.0, e.value.1);
      }
      k := k + 1;
    }
    return Ok(m);
  }

  /** The nested loops that build question_map from chapters_data. */
  method FillQuestionMap(chs: seq<Json>, parse: string -> Result<Json, string>, ghost entry: EntryFn)
    returns (r: Result<QuestionMap, Exception>)
    requires IsEntry(entry)
    ensures r == ChaptersFold(entry, chs, |chs|, parse)
  {
    var questionMap: QuestionMap := [];
    var i := 0;
    while i < |chs|
      invariant i <= |chs|
      invariant ChaptersFold(entry, chs, i, parse) == Ok(questionMap)
    {
      var chapter := chs[i];
      if chapter.JObj? {
        var chapterName, chapterNumber, items := ChapterQuestions(chapter.fields, parse);
        var added := AddQuestions(questionMap, items, chapterName, chapterNumber, entry);
        if added.Err? {
          ChaptersFoldErr(entry, chs, i + 1, |chs|, parse);
          return added;
        }
        questionMap := added.value;
      }
      i := i + 1;
    }
    return Ok(questionMap);
  }

  /** Building question_map as the source writes it. */
  method BuildQuestionMap(chs: seq<Json>, parse: string -> Result<Json, string>) returns (r: Result<QuestionMap, Exception>)
    ensures r == QuestionMapOf(chs, parse)
  {
    r := FillQuestionMap(chs, parse, Entry);
    ChaptersFoldFlat(Entry, chs, |chs|, parse);
  }

  /** What the stored questions give: a question map exactly when every
      question dict has a str question_type; each question id once, in the
      order the ids first appear; under each id the entry of the last
      question with that id. */
  lemma QuestionMapOfFacts(chs: seq<Json>, parse: string -> Result<Json, string>, q: string)
    ensures var ts := Flatten(chs, |chs|, parse);
      && (QuestionMapOf(chs, parse).Ok? <==>
            forall k :: 0 <= k < |ts| ==> Get(ts[k].qa, "question_type", JStr("")).JStr?)
      && (QuestionMapOf(chs, parse).Err? ==> QuestionMapOf(chs, parse).error == AttributeError)
      && (QuestionMapOf(chs, parse).Ok? ==>
            && Keys(QuestionMapOf(chs, parse).value) == Dedup(EntryIds(Entry, ts))
            && Lookup(QuestionMapOf(chs, parse).value, q) == LastInfo(Entry, ts, q))
  {
    var ts := Flatten(chs, |chs|, parse);
    MapFoldFails(Entry, ts);
    if QuestionMapOf(chs, parse).Ok? {
      MapFoldKeys(Entry, ts);
      MapFoldLookup(Entry, ts, q);
    }
  }

  /** What the grading model is given: the question, the user's answer and
      the stored correct answer; what it returns. */
  type Grader = (Json, Json, Json) -> GroqCall

  const FullScore: int := 10

  /** One graded answer, or the id of an answer no question matches. */
  datatype Answer = Unknown(questionId: string) | Graded(result: Json)

  /** The dict appended to validated_results, its keys in source order. */
  function ResultEntry(questionId: string, info: QuestionInfo, userAnswer: Json, score: Json, verdict: string): Json {
    JObj([
      ("question_id", JStr(questionId)),
      ("question", info.question),
      ("question_type", JStr(info.questionType)),
      ("chapter_name", info.chapterName),
      ("chapter_id", info.chapterId),
      ("correct_answer", info.correctAnswer),
      ("user_answer", userAnswer),
      ("options", if Lower(info.questionType) == "mcq" then info.options else JObj([])),
      ("score", score),
      ("is_correct", JStr(verdict))])
  }

  /** One turn of the grading loop. user_answer["question_id"] raises on a
      non-dict or a dict without the key; an id not in the map is reported;
      an MCQ is graded locally for 10 or 0 points; every other type, true/false
      included, goes to the grading model, whose failure propagates. */
  function GradeAnswer(m: QuestionMap, ua: Json, groq: Grader, parse: string -> Result<Json, string>): (r: Result<Answer, Exception>)
    ensures !ua.JObj? ==> r == Err(TypeError)
    ensures ua.JObj? && !HasKey(ua.fields, "question_id") ==> r == Err(KeyError("question_id"))
    ensures r.Ok? <==>
      && ua.JObj? && HasKey(ua.fields, "question_id")
      && (Lookup(m, Str(Get(ua.fields, "question_id", JNull))).Some? ==>
            var info := Lookup(m, Str(Get(ua.fields, "question_id", JNull))).value;
            Lower(info.questionType) == "mcq" || groq(info.question, Get(ua.fields, "user_answer", JStr("")), info.correctAnswer).Replied?)
    ensures r.Ok? && r.value.Unknown? ==>
      r.value.questionId == Str(Get(ua.fields, "question_id", JNull)) && !HasKey(m, r.value.questionId)
    ensures r.Err? ==> r.error == TypeError || r.error.KeyError? || (r.error.HttpError? && r.error.status == ServerError)
  {
    match Subscript(ua, "question_id")
    case Err(e) => Err(e)
    case Ok(id) =>
      var questionId := Str(id);
      match Lookup(m, questionId)
      case None => Ok(Unknown(questionId))
      case Some(info) =>
        var userAnswer := Get(ua.fields, "user_answer", JStr(""));
        var qtype := Lower(info.questionType);
        if qtype == "mcq" then
          var right := ValidateLocally(qtype, userAnswer, info.correctAnswer, info.options) == Some(true);
          Ok(Graded(ResultEntry(questionId, info, userAnswer,
            JInt(if right then FullScore else 0), if right then "true" else "false")))
        else
          match ValidateWithGroq(groq(info.question, userAnswer, info.correctAnswer), parse)
          case Err(e) => Err(e)
          case Ok(v) => Ok(Graded(ResultEntry(questionId, info, userAnswer, v.0, v.1)))
  }

  /** The body of the grading loop as the source writes it. */
  method GradeOne(m: QuestionMap, ua: Json, groq: Grader, parse: string -> Result<Json, string>) returns (r: Result<Answer, Exception>)
    ensures r == GradeAnswer(m, ua, groq, parse)
  {
    var id := Subscript(ua, "question_id");
    if id.Err? {
      return Err(id.error);
    }
    var questionId := Str(id.value);
    var questionData := Lookup(m, questionId);
    if questionData.None? {
      return Ok(Unknown(questionId));
    }
    var info := questionData.value;
    var userAnswerText := Get(ua.fields, "user_answer", JStr(""));
    var qtype := Lower(info.questionType);
    var score: Json;
    var isCorrect: string;
    if qtype == "mcq" {
      var right := ValidateLocally(qtype, userAnswerText, info.correctAnswer, info.options) == Some(true);
      score := JInt(if right then FullScore else 0);
      isCorrect := if right then "true" else "false";
    } else {
      var verdict := ValidateWithGroq(groq(info.question, userAnswerText, info.correctAnswer), parse);
      if verdict.Err? {
        return Err(verdict.error);
      }
      score, isCorrect := verdict.value.0, verdict.value.1;
    }
    return Ok(Graded(ResultEntry(questionId, info, userAnswerText, score, isCorrect)));
  }

  /** An MCQ is graded without the grading model: 10 and "true" when the
      answer names the stored index, 0 and "false" otherwise. */
  lemma McqGradedLocally(m: QuestionMap, ua: Json, groq: Grader, parse: string -> Result<Json, string>,
                         other: Grader, otherParse: string -> Result<Json, string>)
    requires ua.JObj? && HasKey(ua.fields, "question_id")
    requires Lookup(m, Str(Get(ua.fields, "question_id", JNull))).Some?
    requires Lower(Lookup(m, Str(Get(ua.fields, "question_id", JNull))).value.questionType) == "mcq"
    ensures GradeAnswer(m, ua, groq, parse) == GradeAnswer(m, ua, other, otherParse)
    ensures var info := Lookup(m, Str(Get(ua.fields, "question_id", JNull))).value;
      var right := ValidateLocally(info.questionType, Get(ua.fields, "user_answer", JStr("")), info.correctAnswer, info.options) == Some(true);
      GradeAnswer(m, ua, groq, parse) == Ok(Graded(ResultEntry(Str(Get(ua.fields, "question_id", JNull)), info,
        Get(ua.fields, "user_answer", JStr("")), JInt(if right then FullScore else 0), if right then "true" else "false")))
  {
    var info := Lookup(m, Str(Get(ua.fields, "question_id", JNull))).value;
    LowerIdempotent(info.questionType);
  }

  /** Every other question type, true/false included, is graded by the
      grading model: its score and verdict are stored as it returns them,
      and its failure is the failure of the request. */
  lemma OthersGradedByModel(m: QuestionMap, ua: Json, groq: Grader, parse: string -> Result<Json, string>)
    requires ua.JObj? && HasKey(ua.fields, "question_id")
    requires Lookup(m, Str(Get(ua.fields, "question_id", JNull))).Some?
    requires Lower(Lookup(m, Str(Get(ua.fields, "question_id", JNull))).value.questionType) != "mcq"
    ensures var id := Str(Get(ua.fields, "question_id", JNull));
      var info := Lookup(m, id).value;
      var userAnswer := Get(ua.fields, "user_answer", JStr(""));
      var v := ValidateWithGroq(groq(info.question, userAnswer, info.correctAnswer), parse);
      GradeAnswer(m, ua, groq, parse) ==
        if v.Ok? then Ok(Graded(ResultEntry(id, info, userAnswer, v.value.0, v.value.1))) else Err(v.error)
  {
  }

  /** The outcome of the grading loop: every answer graded, or the first
      unknown id. */
  datatype Outcome = Results(results: seq<Json>) | InvalidId(questionId: string)

  /** What grades one answer. */
  type GradeFn = Json -> Result<Answer, Exception>

  /** The grading loop over answers[..n], which stops at the first unknown
      id or exception. */
  function GradeFold(grade: GradeFn, answers: seq<Json>, n: nat): Result<Outcome, Exception>
    requires n <= |answers|
  {
    if n == 0 then Ok(Results([]))
    else
      match GradeFold(grade, answers, n - 1)
      case Err(e) => Err(e)
      case Ok(InvalidId(q)) => Ok(InvalidId(q))
      case Ok(Results(rs)) =>
        match grade(answers[n - 1])
        case Err(e) => Err(e)
        case Ok(Unknown(q)) => Ok(InvalidId(q))
        case Ok(Graded(x)) => Ok(Results(rs + [x]))
  }

  /** An answer the loop goes past. */
  predicate Passes(a: Result<Answer, Exception>) {
    a.Ok? && a.value.Graded?
  }

  /** What the loop ends with when it stops at an answer. */
  function StopOutcome(a: Result<Answer, Exception>): Result<Outcome, Exception> {
    match a
    case Err(e) => Err(e)
    case Ok(Unknown(q)) => Ok(InvalidId(q))
    case Ok(Graded(x)) => Ok(Results([x]))
  }

  /** Every answer is graded, in order, exactly when each one passes;
      otherwise the loop ends with what the first failing answer gives. */
  lemma {:induction false} GradeFoldFacts(grade: GradeFn, answers: seq<Json>, n: nat)
    requires n <= |answers|
    ensures var r := GradeFold(grade, answers, n);
      && (r.Ok? && r.value.Results? <==> forall k :: 0 <= k < n ==> Passes(grade(answers[k])))
      && (r.Ok? && r.value.Results? ==>
            |r.value.results| == n && forall k :: 0 <= k < n ==> grade(answers[k]) == Ok(Graded(r.value.results[k])))
      && (!(r.Ok? && r.value.Results?) ==>
            exists k :: 0 <= k < n && !Passes(grade(answers[k])) && r == StopOutcome(grade(answers[k]))
              && forall l :: 0 <= l < k ==> Passes(grade(answers[l])))
  {
    if n > 0 {
      GradeFoldFacts(grade, answers, n - 1);
    }
  }

  /** Once the loop has stopped, the later answers are never graded. */
  lemma {:induction false} GradeFoldStops(grade: GradeFn, answers: seq<Json>, i: nat, n: nat)
    requires i <= n <= |answers|
    requires !(GradeFold(grade, answers, i).Ok? && GradeFold(grade, answers, i).value.Results?)
    ensures GradeFold(grade, answers, n) == GradeFold(grade, answers, i)
    decreases n
  {
    if i < n {
      GradeFoldStops(grade, answers, i, n - 1);
    }
  }

  /** grade computes GradeAnswer with this map, model and decoder. */
  ghost predicate IsGrade(grade: GradeFn, m: QuestionMap, groq: Grader, parse: string -> Result<Json, string>) {
    forall ua {:trigger GradeAnswer(m, ua, groq, parse)} :: grade(ua) == GradeAnswer(m, ua, groq, parse)
  }

  /** GradeAnswer with this map, model and decoder, as a function. */
  function GradesOf(m: QuestionMap, groq: Grader, parse: string -> Result<Json, string>): (grade: GradeFn)
    ensures IsGrade(grade, m, groq, parse)
  {
    ua => GradeAnswer(m, ua, groq, parse)
  }

  /** The grading loop's body, seen through grade. */
  method GradeTurn(m: QuestionMap, ua: Json, groq: Grader, parse: string -> Result<Json, string>, ghost grade: GradeFn)
    returns (r: Result<Answer, Exception>)
    requires IsGrade(grade, m, groq, parse)
    ensures r == grade(ua)
  {
    r := GradeOne(m, ua, groq, parse);
  }

  /** The grading loop: validated_results in the order of the answers, or
      the first unknown id or exception. */
  method GradeLoop(m: QuestionMap, answers: seq<Json>, groq: Grader, parse: string -> Result<Json, string>, ghost grade: GradeFn)
    returns (r: Result<Outcome, Exception>)
    requires IsGrade(grade, m, groq, parse)
    ensures r == GradeFold(grade, answers, |answers|)
  {
    var validatedResults: seq<Json> := [];
    var i := 0;
    while i < |answers|
      invariant i <= |answers|
      invariant GradeFold(grade, answers, i) == Ok(Results(validatedResults))
    {
      var a := GradeTurn(m, answers[i], groq, parse, grade);
      if a.Err? {
        GradeFoldStops(grade, answers, i + 1, |answers|);
        return Err(a.error);
      }
      if a.value.Unknown? {
        GradeFoldStops(grade, answers, i + 1, |answers|);
        return Ok(InvalidId(a.value.questionId));
      }
      validatedResults := validatedResults + [a.value.result];
      i := i + 1;
    }
    return Ok(Results(validatedResults));
  }

  /** The outcome of grading answers against the map. */
  function Grades(m: QuestionMap, answers: seq<Json>, groq: Grader, parse: string -> Result<Json, string>): Result<Outcome, Exception> {
    GradeFold(GradesOf(m, groq, parse), answers, |answers|)
  }

  /** Grading the answers as the source writes it. */
  method GradeAnswers(m: QuestionMap, answers: seq<Json>, groq: Grader, parse: string -> Result<Json, string>) returns (r: Result<Outcome, Exception>)
    ensures r == Grades(m, answers, groq, parse)
  {
    r := GradeLoop(m, answers, groq, parse, GradesOf(m, groq, parse));
  }

  /** What builds the question map and what grades the answers. */
  type MapFn = seq<Json> -> Result<QuestionMap, Exception>
  type GradesFn = (QuestionMap, seq<Json>) -> Result<Outcome, Exception>

  /** mapOf builds the question map as QuestionMapOf does. */
  ghost predicate IsMapOf(mapOf: MapFn, parse: string -> Result<Json, string>) {
    forall chs {:trigger QuestionMapOf(chs, parse)} :: mapOf(chs) == QuestionMapOf(chs, parse)
  }

  /** grades grades the answers as Grades does. */
  ghost predicate IsGrades(grades: GradesFn, groq: Grader, parse: string -> Result<Json, string>) {
    forall m, uas {:trigger Grades(m, uas, groq, parse)} :: grades(m, uas) == Grades(m, uas, groq, parse)
  }

  function MapOf(parse: string -> Result<Json, string>): (mapOf: MapFn)
    ensures IsMapOf(mapOf, parse)
  {
    chs => QuestionMapOf(chs, parse)
  }

  function GradesWith(groq: Grader, parse: string -> Result<Json, string>): (grades: GradesFn)
    ensures IsGrades(grades, groq, parse)
  {
    (m, uas) => Grades(m, uas, groq, parse)
  }

  /** Building the map fails only with AttributeError. */
  lemma MapOfFails(mapOf: MapFn, parse: string -> Result<Json, string>, chs: seq<Json>)
    requires IsMapOf(mapOf, parse)
    ensures mapOf(chs).Err? ==> mapOf(chs).error == AttributeError
  {
    QuestionMapOfFacts(chs, parse, "");
  }

  /** What the grading loop gives: one result per answer in order, or the
      outcome of the first answer that does not pass; its exceptions are
      never a 400 or a 404. */
  lemma GradesFacts(grades: GradesFn, groq: Grader, parse: string -> Result<Json, string>, m: QuestionMap, uas: seq<Json>)
    requires IsGrades(grades, groq, parse)
    ensures var r := grades(m, uas);
      && (r.Err? ==> r.error == TypeError || r.error.KeyError? || (r.error.HttpError? && r.error.status == ServerError))
      && (r.Ok? && r.value.Results? ==>
            |r.value.results| == |uas| && forall k :: 0 <= k < |uas| ==> GradeAnswer(m, uas[k], groq, parse) == Ok(Graded(r.value.results[k])))
      && (r.Ok? && r.value.InvalidId? ==>
            exists k :: 0 <= k < |uas|
              && (forall l :: 0 <= l < k ==> Passes(GradeAnswer(m, uas[l], groq, parse)))
              && GradeAnswer(m, uas[k], groq, parse) == Ok(Unknown(r.value.questionId)))
  {
    var grade := GradesOf(m, groq, parse);
    GradeFoldFacts(grade, uas, |uas|);
    assert grades(m, uas) == Grades(m, uas, groq, parse);
  }
}
