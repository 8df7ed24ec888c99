/** validation_api.py: grading one answer locally, reading the grading
    model's verdict, and decoding the stored payload of a row. The LLM call
    and the database are inputs to the model. */
module ValidationApi {
  import opened Python
  import opened JsonValue

  /** int == x for an int on the left: equal ints, or the bool Python counts
      as 0 or 1; never equal to None, a str, a list or a dict. */
  predicate IntEquals(v: int, x: Json) {
    match x
    case JInt(n) => v == n
    case JBool(b) => v == (if b then 1 else 0)
    case _ => false
  }

  /** str(x).strip().lower(). */
  function Clean(x: Json): string {
    Lower(Strip(Str(x)))
  }

  /** validate_locally: Some(verdict) for "mcq" and "true/false" (in any
      case), None for every other question type. */
  function ValidateLocally(questionType: string, userAnswer: Json, correctIndex: Json, options: Json): (r: Option<bool>)
    ensures r.Some? <==> Lower(questionType) == "mcq" || Lower(questionType) == "true/false"
    ensures Lower(questionType) == "mcq" && correctIndex.JNull? ==> r == Some(false)
    ensures Lower(questionType) == "mcq" && ParseInt(Clean(userAnswer)).None? ==> r == Some(false)
  {
    var qt := Lower(questionType);
    var clean := Clean(userAnswer);
    if qt == "mcq" then
      match ParseInt(clean)
      case Some(v) => Some(IntEquals(v, correctIndex))
      case None => Some(false)
    else if qt == "true/false" then Some(clean == Clean(correctIndex))
    else None
  }

  /** str(i) names no character that strip() or lower() change. */
  lemma CleanIntToString(i: int)
    ensures Clean(JStr(IntToString(i))) == IntToString(i)
    ensures Clean(JInt(i)) == IntToString(i)
  {
    var s := IntToString(i);
    StripUnchanged(s);
    LowerUnchanged(s);
  }

  /** An MCQ answer that writes the correct index, as a str or as an int,
      is correct. */
  lemma McqRightIndex(i: int, options: Json)
    ensures ValidateLocally("mcq", JStr(IntToString(i)), JInt(i), options) == Some(true)
    ensures ValidateLocally("MCQ", JInt(i), JInt(i), options) == Some(true)
  {
    LowerUnchanged("mcq");
    assert Lower("MCQ") == "mcq";
    CleanIntToString(i);
    ParseIntOfIntToString(i);
    var s := IntToString(i);
    assert Clean(JStr(s)) == s && Clean(JInt(i)) == s && ParseInt(s) == Some(i);
  }

  /** An MCQ answer that writes any other index is wrong. */
  lemma McqWrongIndex(i: int, j: int, options: Json)
    requires i != j
    ensures ValidateLocally("mcq", JStr(IntToString(j)), JInt(i), options) == Some(false)
    ensures ValidateLocally("mcq", JInt(j), JInt(i), options) == Some(false)
  {
    LowerUnchanged("mcq");
    CleanIntToString(j);
    ParseIntOfIntToString(j);
    var s := IntToString(j);
    assert Clean(JStr(s)) == s && Clean(JInt(j)) == s && ParseInt(s) == Some(j);
  }

  lemma CleanBool(b: bool)
    ensures Clean(JBool(b)) == if b then "true" else "false"
  {
    StripUnchanged("True");
    StripUnchanged("False");
    assert Lower("True") == "true";
    assert Lower("False") == "false";
  }

  /** For a true/false question the verdict is the comparison of the two
      cleaned strings. */
  lemma TrueFalseCompares(questionType: string, userAnswer: Json, correct: Json, options: Json)
    requires Lower(questionType) == "true/false"
    ensures ValidateLocally(questionType, userAnswer, correct, options) == Some(Clean(userAnswer) == Clean(correct))
  {
    assert |Lower(questionType)| != |"mcq"|;
  }

  /** Answers that agree after strip() and lower() are graded alike, for
      every question type: for a true/false question an answer that agrees
      so with the stored one is correct. */
  lemma AnswerCaseAndSpaceIgnored(questionType: string, userAnswer: Json, other: Json, correct: Json, options: Json)
    requires Clean(userAnswer) == Clean(other)
    ensures ValidateLocally(questionType, userAnswer, correct, options) == ValidateLocally(questionType, other, correct, options)
    ensures Lower(questionType) == "true/false" && Clean(userAnswer) == Clean(correct) ==>
      ValidateLocally(questionType, userAnswer, correct, options) == Some(true)
  {
  }

  /** Two bools are graded as the same answer exactly when they are equal. */
  lemma TrueFalseBools(a: bool, b: bool, options: Json)
    ensures ValidateLocally("true/false", JBool(a), JBool(b), options) == Some(a == b)
  {
    LowerUnchanged("true/false");
    TrueFalseCompares("true/false", JBool(a), JBool(b), options);
    CleanBool(a);
    CleanBool(b);
  }

  /** What the grading model's call gives back: the key is not configured,
      llm.invoke raised with a message, or the reply's text. */
  datatype GroqCall = MissingApiKey | InvokeFailed(message: string) | Replied(content: string)

  const GroqKeyUnsetDetail: string := "GROQ_API_KEY is not set"
  const GroqErrorPrefix: string := "LLM validation error: "
  const ServerError: nat := 500

  /** The normalisation in validate_with_groq: the score and "true"/"false",
      given the call's outcome and json.loads (an error message where it
      raises). A reply that does not decode, or decodes to something other
      than a dict (so .get raises AttributeError), grades as (0, "false");
      any other failure becomes HTTP 500. */
  function ValidateWithGroq(call: GroqCall, parse: string -> Result<Json, string>): (r: Result<(Json, string), Exception>)
    ensures r.Err? <==> !call.Replied?
    ensures r.Ok? ==> r.value.1 == "true" || r.value.1 == "false"
    ensures r.Err? ==> r.error.HttpError? && r.error.status == ServerError
    ensures call.Replied? && (parse(call.content).Err? || !parse(call.content).value.JObj?) ==>
      r == Ok((JInt(0), "false"))
    ensures call.Replied? && parse(call.content).Ok? && parse(call.content).value.JObj? ==>
      var f := parse(call.content).value.fields;
      r == Ok((Get(f, "score", JInt(0)), if Lower(Str(Get(f, "is_correct", JNull))) == "true" then "true" else "false"))
  {
    match call
    case MissingApiKey => Err(HttpError(ServerError, GroqErrorPrefix + "500: " + GroqKeyUnsetDetail))
    case InvokeFailed(message) => Err(HttpError(ServerError, GroqErrorPrefix + message))
    case Replied(content) =>
      match parse(content)
      case Err(_) => Ok((JInt(0), "false"))
      case Ok(output) =>
        if output.JObj? then
          var verdict := Str(Get(output.fields, "is_correct", JNull));
          Ok((Get(output.fields, "score", JInt(0)), if Lower(verdict) == "true" then "true" else "false"))
        else Ok((JInt(0), "false"))
  }

  /** A verdict dict without "score" scores 0, one without "is_correct" is
      "false"; otherwise the score is passed through unchanged. */
  lemma GroqDefaults(content: string, parse: string -> Result<Json, string>, f: Fields)
    requires parse(content) == Ok(JObj(f))
    ensures var r := ValidateWithGroq(Replied(content), parse).value;
      && (!HasKey(f, "score") ==> r.0 == JInt(0))
      && (HasKey(f, "score") ==> Lookup(f, "score") == Some(r.0))
      && (!HasKey(f, "is_correct") ==> r.1 == "false")
  {
    assert Str(JNull) == "None";
    assert Lower("None") == "none";
  }

  /** The verdict is "true" exactly when is_correct is the bool True or a
      str that is "true" in any ASCII case (str.lower() does not strip, so
      " true" is "false"); None, False, numbers, lists and dicts are all
      "false". */
  lemma GroqVerdictSpellings(content: string, parse: string -> Result<Json, string>, f: Fields)
    requires parse(content) == Ok(JObj(f))
    ensures var v := Get(f, "is_correct", JNull);
      ValidateWithGroq(Replied(content), parse).value.1 == "true" <==>
        v == JBool(true) || (v.JStr? && Lower(v.s) == "true")
  {
    var v := Get(f, "is_correct", JNull);
    match v
    case JNull => assert Lower("None")[0] == 'n';
    case JBool(b) =>
      assert Lower("True") == "true";
      assert Lower("False") != "true" by { assert |"False"| == 5; }
    case JInt(n) => assert Lower(IntToString(n))[0] != 't';
    case JStr(_) =>
    case JArr(_) => assert Lower("<list>")[0] == '<';
    case JObj(_) => assert Lower("<dict>")[0] == '<';
  }

  /** What the database gives for SELECT questions_answers ... WHERE row_id:
      the connection or query failed with a message, no row, or the row's
      questions_answers column as psycopg2 decodes it (JSONB arrives as a
      value, a text column as a str). */
  datatype DbReply = DbFailed(message: string) | NoRow | RowFound(questionsAnswers: Json)

  const DatabaseErrorPrefix: string := "Database error: "

  /** Python's name for the type of a value, as AttributeError reports it. */
  function TypeName(j: Json): string {
    match j
    case JNull => "NoneType"
    case JBool(_) => "bool"
    case JInt(_) => "int"
    case JStr(_) => "str"
    case JArr(_) => "list"
    case JObj(_) => "dict"
  }

  /** fetch_questions_from_db: None without a row; otherwise the payload
      (decoded first when it is a str) and its "chapters", [] when absent.
      Every failure inside becomes HTTP 500 "Database error: ...". */
  function FetchQuestionsFromDb(db: DbReply, parse: string -> Result<Json, string>): (r: Result<Option<Json>, Exception>)
    ensures db.NoRow? <==> r == Ok(None)
    ensures r.Err? ==>
      && r.error.HttpError? && r.error.status == ServerError
      && DatabaseErrorPrefix <= r.error.detail
    ensures db.RowFound? && db.questionsAnswers.JObj? ==>
      r == Ok(Some(Get(db.questionsAnswers.fields, "chapters", JArr([]))))
  {
    match db
    case DbFailed(message) => Err(HttpError(ServerError, DatabaseErrorPrefix + message))
    case NoRow => Ok(None)
    case RowFound(payload) =>
      var decoded := if payload.JStr? then parse(payload.s) else Ok(payload);
      match decoded
      case Err(message) => Err(HttpError(ServerError, DatabaseErrorPrefix + message))
      case Ok(data) =>
        if data.JObj? then Ok(Some(Get(data.fields, "chapters", JArr([]))))
        else Err(HttpError(ServerError, DatabaseErrorPrefix + "'" + TypeName(data) + "' object has no attribute 'get'"))
  }

  /** A payload stored as text reads the same as the dict it encodes; a
      dict without "chapters" gives []. */
  lemma FetchDecodesText(s: string, parse: string -> Result<Json, string>, f: Fields)
    requires parse(s) == Ok(JObj(f))
    ensures FetchQuestionsFromDb(RowFound(JStr(s)), parse) == FetchQuestionsFromDb(RowFound(JObj(f)), parse)
    ensures !HasKey(f, "chapters") ==> FetchQuestionsFromDb(RowFound(JStr(s)), parse) == Ok(Some(JArr([])))
  {
  }
}
