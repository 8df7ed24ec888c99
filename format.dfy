/** format_api_response of langgraph_workflow.py: the stored chapters are
    flattened into at most forty question records for the client, each with
    a question type inferred from its shape and its options re-keyed as
    option1..option4. */
module ApiFormat {
  import opened Python
  import opened JsonValue

  const MaxQuestions: nat := 40
  const BlankMarker: string := "___"

  const Mcq: string := "MCQ"
  const TrueFalse: string := "True/False"
  const FillInTheBlanks: string := "Fill_in_the_blanks"
  const TextType: string := "Text"

  const OptionKeys: seq<string> := ["option1", "option2", "option3", "option4"]

  /** determine_question_type on a question dict: an "options" key makes an
      MCQ, a bool "answer" a True/False, a "question" containing "___" a
      fill-in-the-blank and anything else Text. `"___" in q` raises
      TypeError when q is not a str, list or dict. */
  function InferredType(qa: Fields): (r: Result<string, Exception>)
    ensures r.Ok? ==> r.value in {Mcq, TrueFalse, FillInTheBlanks, TextType}
    ensures r == Ok(Mcq) <==> HasKey(qa, "options")
    ensures r == Ok(TrueFalse) <==> !HasKey(qa, "options") && Lookup(qa, "answer").Some? && Lookup(qa, "answer").value.JBool?
    ensures r.Err? ==> r.error == TypeError
  {
    var answer := Lookup(qa, "answer");
    if Lookup(qa, "options").Some? then Ok(Mcq)
    else if answer.Some? && answer.value.JBool? then Ok(TrueFalse)
    else
      match Lookup(qa, "question")
      case None => Ok(TextType)
      case Some(q) =>
        match In(BlankMarker, q)
        case None => Err(TypeError)
        case Some(true) => Ok(FillInTheBlanks)
        case Some(false) => Ok(TextType)
  }

  /** The type a question is shown with is inferred from its shape alone:
      the "question_type" the generator stored has no say in it. */
  lemma InferredTypeIgnoresDeclared(qa: Fields, declared: Json)
    ensures InferredType(Put(qa, "question_type", declared)) == InferredType(qa)
  {
    var qa' := Put(qa, "question_type", declared);
    PutLookup(qa, "question_type", declared, "options");
    PutLookup(qa, "question_type", declared, "answer");
    PutLookup(qa, "question_type", declared, "question");
  }

  /** A plain-text question without options or bool answer is a
      fill-in-the-blank exactly when it contains "___". */
  lemma BlankMarkerDecides(qa: Fields, q: string)
    requires !HasKey(qa, "options")
    requires !(Lookup(qa, "answer").Some? && Lookup(qa, "answer").value.JBool?)
    requires Lookup(qa, "question") == Some(JStr(q))
    ensures InferredType(qa) == (if ContainsSub(q, BlankMarker) then Ok(FillInTheBlanks) else Ok(TextType))
  {
  }

  /** {"option1": options[0], ..., "option4": options[3]}: the options are
      read in order and the first one missing raises. */
  function OptionsDict(options: Json): (r: Result<Json, Exception>)
    ensures options.JArr? ==> (r.Ok? <==> |options.items| >= 4)
    ensures options.JArr? && r.Err? ==> r.error == IndexError
    ensures r.Ok? && options.JArr? ==>
      && r.value.JObj? && |r.value.fields| == 4
      && forall k :: 0 <= k < 4 ==> r.value.fields[k] == (OptionKeys[k], options.items[k])
  {
    match At(options, 0)
    case Err(e) => Err(e)
    case Ok(o1) =>
      match At(options, 1)
      case Err(e) => Err(e)
      case Ok(o2) =>
        match At(options, 2)
        case Err(e) => Err(e)
        case Ok(o3) =>
          match At(options, 3)
          case Err(e) => Err(e)
          case Ok(o4) => Ok(JObj([("option1", o1), ("option2", o2), ("option3", o3), ("option4", o4)]))
  }

  /** The keys of every formatted question, before the optional "options". */
  const BaseKeys: seq<string> := ["question", "question_type", "chapter_name", "chapter_number", "question_id"]

  /** The record for one question: question, inferred type, the chapter's
      name and number, question_id, and "options" when the question has a
      truthy one. qa["question"] is read first, so a question that is not a
      dict raises TypeError and one without "question" raises KeyError. */
  function FormatQuestion(qa: Json, chapterName: Json, chapterNumber: Json): (r: Result<Json, Exception>)
    ensures r.Ok? ==>
      && qa.JObj? && r.value.JObj?
      && var f := r.value.fields;
      && |f| >= 5 && Keys(f)[..5] == BaseKeys
      && Lookup(qa.fields, "question") == Some(f[0].1)
      && f[1].1.JStr? && InferredType(qa.fields) == Ok(f[1].1.s)
      && f[2].1 == chapterName && f[3].1 == chapterNumber
      && Lookup(qa.fields, "question_id") == Some(f[4].1)
      && (|f| == 6 <==> Truthy(Get(qa.fields, "options", JNull)))
      && (|f| == 6 ==> f[5].0 == "options" && OptionsDict(Get(qa.fields, "options", JNull)) == Ok(f[5].1))
    ensures qa.JObj? && HasKey(qa.fields, "question") && !HasKey(qa.fields, "question_id") && InferredType(qa.fields).Ok? ==>
      r == Err(KeyError("question_id"))
  {
    match Subscript(qa, "question")
    case Err(e) => Err(e)
    case Ok(question) =>
      match InferredType(qa.fields)
      case Err(e) => Err(e)
      case Ok(questionType) =>
        match Subscript(qa, "question_id")
        case Err(e) => Err(e)
        case Ok(questionId) =>
          var base := [
            ("question", question),
            ("question_type", JStr(questionType)),
            ("chapter_name", chapterName),
            ("chapter_number", chapterNumber),
            ("question_id", questionId)];
          var options := Get(qa.fields, "options", JNull);
          if Truthy(options) then
            match OptionsDict(options)
            case Err(e) => Err(e)
            case Ok(d) => Ok(JObj(base + [("options", d)]))
          else Ok(JObj(base))
  }

  /** A chapter's name, its number (None when absent) and its questions. */
  datatype Header = Header(name: Json, number: Json, items: seq<Json>)

  /** chapter["chapter_name"], chapter.get("chapter_number"), and the loop
      over chapter["questions_answers"]. */
  function ChapterHeader(ch: Json): (r: Result<Header, Exception>)
    ensures r.Ok? ==>
      && ch.JObj? && Lookup(ch.fields, "chapter_name") == Some(r.value.name)
      && r.value.number == Get(ch.fields, "chapter_number", JNull)
      && Lookup(ch.fields, "questions_answers").Some?
      && Iterate(Lookup(ch.fields, "questions_answers").value) == Some(r.value.items)
  {
    match Subscript(ch, "chapter_name")
    case Err(e) => Err(e)
    case Ok(name) =>
      var number := Get(ch.fields, "chapter_number", JNull);
      match Subscript(ch, "questions_answers")
      case Err(e) => Err(e)
      case Ok(qas) =>
        match Iterate(qas)
        case None => Err(TypeError)
        case Some(items) => Ok(Header(name, number, items))
  }

  /** The reference: every question formatted in order with no cap, up to
      the first exception; the questions formatted before it and the
      exception, if any. */
  datatype Prefix = Prefix(questions: seq<Json>, error: Option<Exception>)

  function ItemsPrefix(items: seq<Json>, j: nat, name: Json, number: Json): Prefix
    requires j <= |items|
    decreases |items| - j
  {
    if j == |items| then Prefix([], None)
    else
      match FormatQuestion(items[j], name, number)
      case Err(e) => Prefix([], Some(e))
      case Ok(q) =>
        var rest := ItemsPrefix(items, j + 1, name, number);
        Prefix([q] + rest.questions, rest.error)
  }

  function ChaptersPrefix(chs: seq<Json>, i: nat): Prefix
    requires i <= |chs|
    decreases |chs| - i
  {
    if i == |chs| then Prefix([], None)
    else
      match ChapterHeader(chs[i])
      case Err(e) => Prefix([], Some(e))
      case Ok(h) =>
        var head := ItemsPrefix(h.items, 0, h.name, h.number);
        if head.error.Some? then head
        else
          var rest := ChaptersPrefix(chs, i + 1);
          Prefix(head.questions + rest.questions, rest.error)
  }

  /** What stopping at forty makes of the reference, after `done` is already
      formatted: forty questions once there are that many, whatever comes
      after; otherwise the exception, if one came; otherwise everything. */
  function Capped(done: seq<Json>, p: Prefix): Result<seq<Json>, Exception> {
    var all := done + p.questions;
    if |all| >= MaxQuestions then Ok(all[..MaxQuestions])
    else if p.error.Some? then Err(p.error.value)
    else Ok(all)
  }

  /** The inner loop from question j on, with `done` already formatted;
      it stops after the fortieth question. */
  function CapItems(items: seq<Json>, j: nat, name: Json, number: Json, done: seq<Json>): Result<seq<Json>, Exception>
    requires j <= |items| && |done| < MaxQuestions
    decreases |items| - j
  {
    if j == |items| then Ok(done)
    else
      match FormatQuestion(items[j], name, number)
      case Err(e) => Err(e)
      case Ok(q) =>
        var d := done + [q];
        if |d| >= MaxQuestions then Ok(d)
        else CapItems(items, j + 1, name, number, d)
  }

  /** The outer loop from chapter i on. */
  function CapChapters(chs: seq<Json>, i: nat, done: seq<Json>): Result<seq<Json>, Exception>
    requires i <= |chs| && |done| < MaxQuestions
    decreases |chs| - i
  {
    if i == |chs| then Ok(done)
    else
      match ChapterHeader(chs[i])
      case Err(e) => Err(e)
      case Ok(h) =>
        match CapItems(h.items, 0, h.name, h.number, done)
        case Err(e) => Err(e)
        case Ok(d) =>
          if |d| >= MaxQuestions then Ok(d)
          else CapChapters(chs, i + 1, d)
  }

  /** The "list" of the API response: formatted_questions[:40]. */
  function FormattedList(chs: seq<Json>): Result<seq<Json>, Exception> {
    match CapChapters(chs, 0, [])
    case Err(e) => Err(e)
    case Ok(qs) => Ok(if |qs| <= MaxQuestions then qs else qs[..MaxQuestions])
  }

  /** Capping after `done` and then qs is capping after done + qs. */
  lemma CappedAppend(done: seq<Json>, qs: seq<Json>, rest: Prefix)
    requires |done| < MaxQuestions
    ensures var d := done + qs;
      Capped(done, Prefix(qs + rest.questions, rest.error)) ==
        if |d| >= MaxQuestions then Ok(d[..MaxQuestions]) else Capped(d, rest)
  {
    var d := done + qs;
    assert done + (qs + rest.questions) == d + rest.questions;
    if |d| >= MaxQuestions {
      assert (d + rest.questions)[..MaxQuestions] == d[..MaxQuestions];
    }
  }

  lemma {:induction false} CapItemsIsCapped(items: seq<Json>, j: nat, name: Json, number: Json, done: seq<Json>)
    requires j <= |items| && |done| < MaxQuestions
    ensures CapItems(items, j, name, number, done) == Capped(done, ItemsPrefix(items, j, name, number))
    decreases |items| - j
  {
    if j < |items| {
      match FormatQuestion(items[j], name, number)
      case Err(e) =>
      case Ok(q) =>
        CappedAppend(done, [q], ItemsPrefix(items, j + 1, name, number));
        if |done + [q]| < MaxQuestions {
          CapItemsIsCapped(items, j + 1, name, number, done + [q]);
        } else {
          assert (done + [q])[..MaxQuestions] == done + [q];
        }
    } else {
      assert done + [] == done;
    }
  }

  lemma {:induction false} CapChaptersIsCapped(chs: seq<Json>, i: nat, done: seq<Json>)
    requires i <= |chs| && |done| < MaxQuestions
    ensures CapChapters(chs, i, done) == Capped(done, ChaptersPrefix(chs, i))
    decreases |chs| - i
  {
    if i < |chs| {
      match ChapterHeader(chs[i])
      case Err(e) =>
      case Ok(h) =>
        var head := ItemsPrefix(h.items, 0, h.name, h.number);
        CapItemsIsCapped(h.items, 0, h.name, h.number, done);
        if head.error.None? {
          var d := done + head.questions;
          CappedAppend(done, head.questions, ChaptersPrefix(chs, i + 1));
          if |d| < MaxQuestions {
            CapChaptersIsCapped(chs, i + 1, d);
          }
        }
    } else {
      assert done + [] == done;
    }
  }

  /** The list is the first forty questions of the uncapped reference when
      there are forty before any exception, and otherwise the reference
      itself: everything, or the exception it stopped at. */
  lemma FormattedListIsCapped(chs: seq<Json>)
    ensures var p := ChaptersPrefix(chs, 0);
      FormattedList(chs) ==
        if |p.questions| >= MaxQuestions then Ok(p.questions[..MaxQuestions])
        else if p.error.Some? then Err(p.error.value)
        else Ok(p.questions)
  {
    CapChaptersIsCapped(chs, 0, []);
    assert [] + ChaptersPrefix(chs, 0).questions == ChaptersPrefix(chs, 0).questions;
  }

  /** At most forty questions are returned, and those returned are a prefix
      of the uncapped reference. */
  lemma FormattedListBounded(chs: seq<Json>)
    ensures FormattedList(chs).Ok? ==>
      && |FormattedList(chs).value| <= MaxQuestions
      && FormattedList(chs).value <= ChaptersPrefix(chs, 0).questions
  {
    FormattedListIsCapped(chs);
  }

  /** The loops of format_api_response over the stored chapters. */
  method FormatQuestions(chs: seq<Json>) returns (r: Result<seq<Json>, Exception>)
    ensures r == FormattedList(chs)
  {
    var formatted: seq<Json> := [];
    var i := 0;
    while i < |chs|
      invariant i <= |chs| && |formatted| < MaxQuestions
      invariant CapChapters(chs, 0, []) == CapChapters(chs, i, formatted)
      decreases |chs| - i
    {
      var header := ChapterHeader(chs[i]);
      if header.Err? {
        return Err(header.error);
      }
      var items := header.value.items;
      ghost var start := formatted;
      var j := 0;
      var full := false;
      while j < |items|
        invariant j <= |items| && |formatted| < MaxQuestions
        invariant CapItems(items, 0, header.value.name, header.value.number, start)
               == CapItems(items, j, header.value.name, header.value.number, formatted)
        decreases |items| - j
      {
        var q := FormatQuestion(items[j], header.value.name, header.value.number);
        if q.Err? {
          return Err(q.error);
        }
        formatted := formatted + [q.value];
        if |formatted| >= MaxQuestions {
          full := true;
          break;
        }
        j := j + 1;
      }
      if full {
        return Ok(formatted);
      }
      i := i + 1;
    }
    return Ok(formatted);
  }
}
