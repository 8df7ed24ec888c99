/** The POST /validate_answers handler of validation_api.py. It repeats the
    map-and-grade code of the validation workflow, but every failure is an
    HTTPException raised to the caller. */
module ValidationEndpoint {
  import opened Python
  import opened JsonValue
  import opened ValidationApi
  import opened Grading

  const BadRequest: nat := 400
  const NotFound: nat := 404
  const MissingFieldsDetail: string := "Missing required fields."
  const NoDataDetail: string := "No data found for the provided row_id."
  const InvalidIdPrefix: string := "Invalid question_id: "
  const SuccessStatus: string := "success"

  /** The body returned on success. */
  function SuccessBody(userId: Json, createdOn: string, results: seq<Json>): Json {
    JObj([
      ("user_id", userId),
      ("created_on", JStr(createdOn)),
      ("status", JStr(SuccessStatus)),
      ("list", JArr(results))])
  }

  /** The success body's "list" is the results. */
  lemma SuccessBodyList(userId: Json, createdOn: string, results: seq<Json>)
    ensures SuccessBody(userId, createdOn, results).JObj?
    ensures Lookup(SuccessBody(userId, createdOn, results).fields, "list") == Some(JArr(results))
  {
    var f := SuccessBody(userId, createdOn, results).fields;
    assert f[1..][1..][1..] == [("list", JArr(results))];
    LookupCons(f[0].0, f[0].1, f[1..], "list");
    LookupCons(f[1].0, f[1].1, f[1..][1..], "list");
    LookupCons(f[2].0, f[2].1, f[1..][1..][1..], "list");
  }

  /** The handler on a payload dict, given the database's reply for each
      row_id, json.loads (an error message where it raises), the time
      utcnow().isoformat() gives, and the map building and grading it
      performs. */
  function Handle(payload: Fields, db: Json -> DbReply, parse: string -> Result<Json, string>, now: string,
                  mapOf: MapFn, grades: GradesFn): Result<Json, Exception> {
    var userId := Get(payload, "user_id", JNull);
    var rowId := Get(payload, "row_id", JNull);
    var answers := Get(payload, "list", JArr([]));
    if !(Truthy(userId) && Truthy(rowId) && Truthy(answers)) then Err(HttpError(BadRequest, MissingFieldsDetail))
    else
      match FetchQuestionsFromDb(db(rowId), parse)
      case Err(e) => Err(e)
      case Ok(chaptersData) =>
        if chaptersData.None? || !Truthy(chaptersData.value) then Err(HttpError(NotFound, NoDataDetail))
        else
          match Iterate(chaptersData.value)
          case None => Err(TypeError)
          case Some(chs) =>
            match mapOf(chs)
            case Err(e) => Err(e)
            case Ok(m) =>
              match Iterate(answers)
              case None => Err(TypeError)
              case Some(uas) =>
                match grades(m, uas)
                case Err(e) => Err(e)
                case Ok(InvalidId(q)) => Err(HttpError(BadRequest, InvalidIdPrefix + q))
                case Ok(Results(rs)) => Ok(SuccessBody(userId, now, rs))
  }

  /** The handler as the source writes it, with its two loops. */
  method ValidateAnswers(payload: Fields, db: Json -> DbReply, groq: Grader, parse: string -> Result<Json, string>, now: string)
    returns (r: Result<Json, Exception>)
    ensures r == Handle(payload, db, parse, now, MapOf(parse), GradesWith(groq, parse))
  {
    var userId := Get(payload, "user_id", JNull);
    var rowId := Get(payload, "row_id", JNull);
    var userAnswersList := Get(payload, "list", JArr([]));
    if !Truthy(userId) || !Truthy(rowId) || !Truthy(userAnswersList) {
      return Err(HttpError(BadRequest, MissingFieldsDetail));
    }
    var chaptersData := FetchQuestionsFromDb(db(rowId), parse);
    if chaptersData.Err? {
      return Err(chaptersData.error);
    }
    if chaptersData.value.None? || !Truthy(chaptersData.value.value) {
      return Err(HttpError(NotFound, NoDataDetail));
    }
    var chapters := Iterate(chaptersData.value.value);
    if chapters.None? {
      return Err(TypeError);
    }
    var questionMap := BuildQuestionMap(chapters.value, parse);
    if questionMap.Err? {
      return Err(questionMap.error);
    }
    var answers := Iterate(userAnswersList);
    if answers.None? {
      return Err(TypeError);
    }
    var outcome := GradeAnswers(questionMap.value, answers.value, groq, parse);
    if outcome.Err? {
      return Err(outcome.error);
    }
    if outcome.value.InvalidId? {
      return Err(HttpError(BadRequest, InvalidIdPrefix + outcome.value.questionId));
    }
    return Ok(SuccessBody(userId, now, outcome.value.results));
  }

  /** 400 "Missing required fields." is the answer exactly when user_id,
      row_id or the list is missing or empty; nothing else gives it. */
  lemma MissingFields(payload: Fields, db: Json -> DbReply, groq: Grader, parse: string -> Result<Json, string>, now: string,
                      mapOf: MapFn, grades: GradesFn)
    requires IsMapOf(mapOf, parse) && IsGrades(grades, groq, parse)
    ensures Handle(payload, db, parse, now, mapOf, grades) == Err(HttpError(BadRequest, MissingFieldsDetail)) <==>
      !(Truthy(Get(payload, "user_id", JNull)) && Truthy(Get(payload, "row_id", JNull)) && Truthy(Get(payload, "list", JArr([]))))
  {
    var chaptersData := FetchQuestionsFromDb(db(Get(payload, "row_id", JNull)), parse);
    if chaptersData.Ok? && chaptersData.value.Some? && Iterate(chaptersData.value.value).Some? {
      var chs := Iterate(chaptersData.value.value).value;
      MapOfFails(mapOf, parse, chs);
      var uas := Iterate(Get(payload, "list", JArr([])));
      if mapOf(chs).Ok? && uas.Some? {
        GradesFacts(grades, groq, parse, mapOf(chs).value, uas.value);
        var g := grades(mapOf(chs).value, uas.value);
        if g.Ok? && g.value.InvalidId? {
          assert (InvalidIdPrefix + g.value.questionId)[0] != MissingFieldsDetail[0];
        }
      }
    }
  }

  /** A row that is absent, or whose chapters are empty, gives 404. */
  lemma NoDataIsNotFound(payload: Fields, db: Json -> DbReply, parse: string -> Result<Json, string>, now: string,
                         mapOf: MapFn, grades: GradesFn)
    requires Truthy(Get(payload, "user_id", JNull)) && Truthy(Get(payload, "row_id", JNull)) && Truthy(Get(payload, "list", JArr([])))
    requires var reply := db(Get(payload, "row_id", JNull));
      || reply.NoRow?
      || (reply.RowFound? && reply.questionsAnswers.JObj? && !Truthy(Get(reply.questionsAnswers.fields, "chapters", JArr([]))))
    ensures Handle(payload, db, parse, now, mapOf, grades) == Err(HttpError(NotFound, NoDataDetail))
  {
  }

  /** A successful reply lists one result per submitted answer, in the
      order submitted; a 400 after the checks names the first answer whose
      id matches no question, and no result is returned. */
  lemma HandledAnswers(payload: Fields, db: Json -> DbReply, groq: Grader, parse: string -> Result<Json, string>, now: string,
                       mapOf: MapFn, grades: GradesFn, chs: seq<Json>, uas: seq<Json>)
    requires IsMapOf(mapOf, parse) && IsGrades(grades, groq, parse)
    requires Truthy(Get(payload, "user_id", JNull)) && Truthy(Get(payload, "row_id", JNull))
    requires FetchQuestionsFromDb(db(Get(payload, "row_id", JNull)), parse) == Ok(Some(JArr(chs))) && chs != []
    requires mapOf(chs).Ok?
    requires Get(payload, "list", JArr([])) == JArr(uas) && uas != []
    ensures var r := Handle(payload, db, parse, now, mapOf, grades);
      var m := mapOf(chs).value;
      && (r.Ok? ==>
            && r.value.JObj? && Lookup(r.value.fields, "list").Some?
            && var list := Lookup(r.value.fields, "list").value;
            && list.JArr? && |list.items| == |uas|
            && forall k :: 0 <= k < |uas| ==> GradeAnswer(m, uas[k], groq, parse) == Ok(Graded(list.items[k])))
      && (r.Err? && r.error.HttpError? && r.error.status == BadRequest ==>
            exists k :: 0 <= k < |uas|
              && (forall l :: 0 <= l < k ==> Passes(GradeAnswer(m, uas[l], groq, parse)))
              && GradeAnswer(m, uas[k], groq, parse).Ok?
              && GradeAnswer(m, uas[k], groq, parse).value.Unknown?
              && r.error.detail == InvalidIdPrefix + GradeAnswer(m, uas[k], groq, parse).value.questionId)
  {
    var m := mapOf(chs).value;
    GradesFacts(grades, groq, parse, m, uas);
    var r := Handle(payload, db, parse, now, mapOf, grades);
    if r.Ok? {
      var rs := grades(m, uas).value.results;
      assert r.value == SuccessBody(Get(payload, "user_id", JNull), now, rs);
      SuccessBodyList(Get(payload, "user_id", JNull), now, rs);
    }
  }
}
