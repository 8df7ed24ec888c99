/** The nodes of the two LangGraph workflows in langgraph_workflow.py. Each
    node reads the shared state dict and returns it with some keys set; the
    outside world a node touches (the question table, the temporary files,
    the vector store) is threaded beside the state, and every service it
    calls is an input. */
module Workflow {
  import opened Python
  import opened JsonValue
  import opened ValidationApi
  import opened Grading
  import opened ApiFormat
  import QuestionStore
  import QuestionGenerator
  import Embeddings

  /** The GraphState dict. A key that is absent, or holds None, is None. */
  datatype State = State(
    bookId: Option<string>,
    userId: Option<string>,
    fileContent: Option<seq<byte>>,
    s3Url: Option<string>,
    totalQuestions: Option<int>,
    filePath: Option<string>,
    embeddingsExist: Option<bool>,
    questionsAnswers: Option<seq<Json>>,
    rowId: Option<string>,
    createdOn: Option<string>,
    error: Option<string>,
    chaptersData: Option<Json>,
    userAnswersList: Option<Json>,
    validatedResults: Option<seq<Json>>,
    apiResponse: Option<Json>)

  /** The world outside the state: the question table, the temporary files
      on disk, and the documents stored in the vector store with their
      book_id. */
  datatype World = World(
    rows: map<QuestionStore.RowKey, QuestionStore.Row>,
    tempFiles: set<string>,
    documents: seq<(string, Json)>)

  datatype Stage = Stage(state: State, world: World)

  /** What PyPDFLoader and the chapter regex make of a file: its pages and
      the chapter-title matches over their joined text. */
  datatype Pdf = Pdf(pages: seq<string>, matches: seq<Embeddings.Match>)

  /** The services the nodes call.
      - s3(bucket, key): the object's bytes, or the message of the
        exception get_object raises.
      - tempPath: the name NamedTemporaryFile gives the new file.
      - pdf(path): the text of the PDF at path.
      - recordExists(book_id): what check_if_record_exist answers.
      - services: retrieval, the LLM and json.loads of the generator.
      - pick: the random draws of generate_row_id; now: datetime.now().
      - db(row_id): the reply of the validation database query.
      - groq, parse: the grading LLM and json.loads.
      - utcNow: datetime.utcnow().isoformat(). */
  datatype Env = Env(
    s3: (string, string) -> Result<seq<byte>, string>,
    tempPath: string,
    pdf: string -> Pdf,
    recordExists: string -> bool,
    services: QuestionGenerator.Services,
    pick: nat -> QuestionStore.Draw,
    now: string,
    db: Json -> DbReply,
    groq: Grader,
    parse: string -> Result<Json, string>,
    utcNow: string)

  const NoInputError: string := "Either an uploaded file or an S3 URL is required"
  const BothInputsError: string := "Provide either an uploaded file or an S3 URL, not both"
  const PrepareInputPrefix: string := "Error in prepare_input: "
  const InvalidS3Url: string := "Invalid S3 URL format"
  const S3Scheme: string := "s3://"
  const CheckEmbeddingsMissing: string := "book_id is missing for check_embeddings"
  const GenerateEmbeddingsMissing: string := "file_path or book_id is missing for generate_embeddings"
  const EmbeddingsErrorPrefix: string := "Error generating embeddings: "
  const GenerateQuestionsMissing: string := "book_id or user_id is missing for generate_questions"
  const GenerateQuestionsPrefix: string := "Error generating questions: "
  const TotalQuestionsRejected: string :=
    "LLMQuestionGenerator.generate_questions_for_book() got an unexpected keyword argument 'total_questions'"
  const StoreMissing: string := "Missing data for storing questions"
  const StoreErrorPrefix: string := "Error storing questions: "
  const FetchStoredMissing: string := "Missing user_id or book_id for fetching questions"
  const FormatMissing: string := "Missing data for formatting API response"
  const SuccessStatus: string := "success"
  const ValidationFetchMissing: string := "row_id is missing for validation fetch"
  const ValidationFetchPrefix: string := "Error fetching questions for validation: "
  const ValidationNoData: string := "No data found for the provided row_id for validation."
  const ValidateMissing: string := "Missing user_answers_list or chapters_data for validation"
  const InvalidIdPrefix: string := "Invalid question_id: "
  const FormatValidationMissing: string := "Missing user_id or validated_results for formatting validation response"

  /** bool() of an optional str, list or JSON value. */
  predicate Given(o: Option<string>) {
    o.Some? && o.value != []
  }

  predicate GivenList<T>(o: Option<seq<T>>) {
    o.Some? && o.value != []
  }

  predicate GivenJson(o: Option<Json>) {
    o.Some? && Truthy(o.value)
  }

  /** What every node keeps: the request's own fields are untouched, an
      error once set stays set, and no other field once set goes back to
      None, except row_id and created_on, which a fetch without a stored row
      sets to None. */
  predicate Persists(s: State, t: State) {
    && t.bookId == s.bookId && t.userId == s.userId
    && t.fileContent == s.fileContent && t.s3Url == s.s3Url
    && t.totalQuestions == s.totalQuestions && t.userAnswersList == s.userAnswersList
    && (Given(s.error) ==> Given(t.error))
    && (s.filePath.Some? ==> t.filePath.Some?)
    && (s.embeddingsExist.Some? ==> t.embeddingsExist.Some?)
    && (s.questionsAnswers.Some? ==> t.questionsAnswers.Some?)
    && (s.chaptersData.Some? ==> t.chaptersData.Some?)
    && (s.validatedResults.Some? ==> t.validatedResults.Some?)
    && (s.apiResponse.Some? ==> t.apiResponse.Some?)
  }

  /** The state with error set to msg. */
  function Failed(s: State, msg: string): (t: State)
    requires msg != []
    ensures Persists(s, t) && Given(t.error)
  {
    s.(error := Some(msg))
  }

  // prepare_input

  /** s3_url.replace("s3://", "").split("/", 1) once the URL starts with
      "s3://": the bucket is the text before the first "/", the key all the
      rest; None where the code raises "Invalid S3 URL format". */
  function ParseS3Url(url: string): (r: Option<(string, string)>)
    ensures r.Some? <==> S3Scheme <= url && '/' in RemoveAll(url, S3Scheme)
    ensures r.Some? ==>
      && '/' !in r.value.0
      && r.value.0 + "/" + r.value.1 == RemoveAll(url, S3Scheme)
  {
    if !(S3Scheme <= url) then None
    else
      var rest := RemoveAll(url, S3Scheme);
      var i := Find(rest, '/');
      if i < 0 then None
      else
        assert rest == rest[..i] + "/" + rest[i + 1..];
        Some((rest[..i], rest[i + 1..]))
  }

  /** A URL written as s3://bucket/key is read back as that bucket and key
      when neither holds "s3://" and the bucket holds no "/". */
  lemma ParseS3UrlOf(bucket: string, key: string)
    requires '/' !in bucket && !ContainsSub(bucket + "/" + key, S3Scheme)
    ensures ParseS3Url(S3Scheme + (bucket + "/" + key)) == Some((bucket, key))
  {
    var rest := bucket + "/" + key;
    RemoveAllPrefix(rest, S3Scheme);
    RemoveAllAbsent(rest, S3Scheme);
    var r := ParseS3Url(S3Scheme + rest);
    assert r.Some? by { assert rest[|bucket|] == '/'; }
    var b := r.value.0;
    assert b + "/" + r.value.1 == bucket + "/" + key;
    assert |b| == |bucket| by {
      assert rest[..|bucket|] == bucket;
    }
    assert b == (b + "/" + r.value.1)[..|b|] == rest[..|bucket|] == bucket;
    assert r.value.1 == (b + "/" + r.value.1)[|b| + 1..] == rest[|bucket| + 1..] == key;
  }

  /** The bytes of the PDF, from the upload or from S3. */
  function InputBytes(s: State, env: Env): Result<seq<byte>, string>
    requires GivenList(s.fileContent) != Given(s.s3Url)
  {
    if Given(s.s3Url) then
      match ParseS3Url(s.s3Url.value)
      case None => Err(InvalidS3Url)
      case Some(parts) => env.s3(parts.0, parts.1)
    else Ok(s.fileContent.value)
  }

  /** prepare_input: exactly one of an upload and an S3 URL is required;
      its bytes are written to a new temporary file whose path becomes
      file_path. A failure leaves no temporary file behind. */
  function PrepareInput(st: Stage, env: Env): (r: Stage)
    ensures Persists(st.state, r.state)
    ensures !GivenList(st.state.fileContent) && !Given(st.state.s3Url) ==>
      r == st.(state := Failed(st.state, NoInputError))
    ensures GivenList(st.state.fileContent) && Given(st.state.s3Url) ==>
      r == st.(state := Failed(st.state, BothInputsError))
    ensures !GivenList(st.state.fileContent) && Given(st.state.s3Url) && ParseS3Url(st.state.s3Url.value).None? ==>
      r == st.(state := Failed(st.state, PrepareInputPrefix + InvalidS3Url))
    ensures GivenList(st.state.fileContent) != Given(st.state.s3Url) && InputBytes(st.state, env).Ok? ==>
      && r.state == st.state.(filePath := Some(env.tempPath))
      && r.world == st.world.(tempFiles := st.world.tempFiles + {env.tempPath})
    ensures GivenList(st.state.fileContent) != Given(st.state.s3Url) && InputBytes(st.state, env).Err? ==>
      r == st.(state := Failed(st.state, PrepareInputPrefix + InputBytes(st.state, env).error))
  {
    var s := st.state;
    if !GivenList(s.fileContent) && !Given(s.s3Url) then st.(state := Failed(s, NoInputError))
    else if GivenList(s.fileContent) && Given(s.s3Url) then st.(state := Failed(s, BothInputsError))
    else
      match InputBytes(s, env)
      case Err(message) => st.(state := Failed(s, PrepareInputPrefix + message))
      case Ok(_) =>
        Stage(s.(filePath := Some(env.tempPath)), st.world.(tempFiles := st.world.tempFiles + {env.tempPath}))
  }

  // check_embeddings

  /** check_embeddings: records whether the vector store holds the book. */
  function CheckEmbeddings(st: Stage, env: Env): (r: Stage)
    ensures Persists(st.state, r.state) && r.world == st.world
    ensures !Given(st.state.bookId) ==> r.state == Failed(st.state, CheckEmbeddingsMissing)
    ensures Given(st.state.bookId) ==>
      r.state == st.state.(embeddingsExist := Some(env.recordExists(st.state.bookId.value)))
  {
    var s := st.state;
    if !Given(s.bookId) then st.(state := Failed(s, CheckEmbeddingsMissing))
    else st.(state := s.(embeddingsExist := Some(env.recordExists(s.bookId.value))))
  }

  // generate_embeddings

  /** The stored chunks, each tagged with the book's id. */
  function Tagged(bookId: string, docs: seq<Json>): (r: seq<(string, Json)>)
    ensures |r| == |docs|
    ensures forall k :: 0 <= k < |r| ==> r[k] == (bookId, docs[k])
  {
    seq(|docs|, k requires 0 <= k < |docs| => (bookId, docs[k]))
  }

  /** generate_embeddings: create_embeddings on the temporary file; its
      exception becomes the error. Whatever happens, the file is removed
      afterwards, but not when file_path or book_id is missing. */
  function GenerateEmbeddings(st: Stage, env: Env): (r: Stage)
    ensures Persists(st.state, r.state)
    ensures r.world.rows == st.world.rows && st.world.documents <= r.world.documents
    ensures !Given(st.state.filePath) || !Given(st.state.bookId) ==>
      r == st.(state := Failed(st.state, GenerateEmbeddingsMissing))
    ensures Given(st.state.filePath) && Given(st.state.bookId) ==>
      && r.world.tempFiles == st.world.tempFiles - {st.state.filePath.value}
      && (r.state == st.state || (Given(r.state.error) && r.state == st.state.(error := r.state.error)))
    ensures Given(st.state.filePath) && Given(st.state.bookId) && env.recordExists(st.state.bookId.value) ==>
      r.state == st.state && r.world.documents == st.world.documents
    ensures forall k :: |st.world.documents| <= k < |r.world.documents| ==> r.world.documents[k].0 == st.state.bookId.value
    ensures Given(st.state.filePath) && Given(st.state.bookId) && !env.recordExists(st.state.bookId.value) ==>
      var pdf := env.pdf(st.state.filePath.value);
      && (pdf.matches == [] ==>
            && r.state == Failed(st.state, EmbeddingsErrorPrefix + ExceptionText(ValueError(Embeddings.NoChapterTitles)))
            && r.world.documents == st.world.documents)
      && (pdf.matches != [] ==>
            && r.state == st.state
            && r.world.documents == st.world.documents
                 + Tagged(st.state.bookId.value, Embeddings.DocChunks(Embeddings.Extract(pdf.pages, pdf.matches).value)))
  {
    var s := st.state;
    if !Given(s.filePath) || !Given(s.bookId) then st.(state := Failed(s, GenerateEmbeddingsMissing))
    else
      var path := s.filePath.value;
      var bookId := s.bookId.value;
      var pdf := env.pdf(path);
      var w := st.world.(tempFiles := st.world.tempFiles - {path});
      match Embeddings.CreateEmbeddings(env.recordExists(bookId), pdf.pages, pdf.matches, bookId)
      case Err(e) => Stage(Failed(s, EmbeddingsErrorPrefix + ExceptionText(e)), w)
      case Ok(embedding) =>
        if embedding.stored.Some? then Stage(s, w.(documents := w.documents + Tagged(bookId, embedding.stored.value)))
        else Stage(s, w)
  }

  // generate_questions

  /** generate_questions: the generator's chapters become questions_answers.
      Passing total_questions makes the call raise TypeError, since
      generate_questions_for_book has no such parameter. */
  function GenerateQuestions(st: Stage, env: Env): (r: Stage)
    ensures Persists(st.state, r.state) && r.world == st.world
    ensures !Given(st.state.bookId) || !Given(st.state.userId) ==>
      r.state == Failed(st.state, GenerateQuestionsMissing)
    ensures Given(st.state.bookId) && Given(st.state.userId) && st.state.totalQuestions.Some? && st.state.totalQuestions.value != 0 ==>
      r.state == Failed(st.state, GenerateQuestionsPrefix + TotalQuestionsRejected)
    ensures Given(st.state.bookId) && Given(st.state.userId) && (st.state.totalQuestions.None? || st.state.totalQuestions.value == 0) ==>
      r.state == st.state.(questionsAnswers :=
        Some(QuestionGenerator.Generate(st.state.bookId.value, st.state.userId.value, env.services)))
  {
    var s := st.state;
    if !Given(s.bookId) || !Given(s.userId) then st.(state := Failed(s, GenerateQuestionsMissing))
    else if s.totalQuestions.Some? && s.totalQuestions.value != 0 then
      st.(state := Failed(s, GenerateQuestionsPrefix + TotalQuestionsRejected))
    else st.(state := s.(questionsAnswers := Some(QuestionGenerator.Generate(s.bookId.value, s.userId.value, env.services))))
  }

  // store_questions

  /** What store_questions_answers does to the table and to the list. */
  function StoreOutcomeOf(st: Stage, env: Env): QuestionStore.StoreOutcome
    requires st.state.userId.Some? && st.state.bookId.Some? && st.state.questionsAnswers.Some?
  {
    QuestionStore.Store(st.world.rows, st.state.userId.value, st.state.bookId.value, st.state.questionsAnswers.value,
      QuestionStore.GenerateRowId(env.pick), env.now)
  }

  /** store_questions: numbers questions_answers in place and upserts it.
      The state holds the same list, so it sees the numbering even when
      numbering stops at a malformed chapter and the error is recorded. */
  function StoreQuestions(st: Stage, env: Env): (r: Stage)
    ensures Persists(st.state, r.state)
    ensures r.world.tempFiles == st.world.tempFiles && r.world.documents == st.world.documents
    ensures !Given(st.state.userId) || !Given(st.state.bookId) || !GivenList(st.state.questionsAnswers) ==>
      r == st.(state := Failed(st.state, StoreMissing))
    ensures Given(st.state.userId) && Given(st.state.bookId) && GivenList(st.state.questionsAnswers) ==>
      var out := StoreOutcomeOf(st, env);
      && r.world.rows == out.rows
      && r.state.questionsAnswers == Some(out.chapters)
      && (out.status.Ok? ==> r.state == st.state.(questionsAnswers := Some(out.chapters)))
      && (out.status.Err? ==>
            r.state == Failed(st.state, StoreErrorPrefix + ExceptionText(out.status.error)).(questionsAnswers := Some(out.chapters)))
  {
    var s := st.state;
    if !Given(s.userId) || !Given(s.bookId) || !GivenList(s.questionsAnswers) then st.(state := Failed(s, StoreMissing))
    else
      var out := StoreOutcomeOf(st, env);
      var numbered := s.(questionsAnswers := Some(out.chapters));
      var t := if out.status.Err? then Failed(numbered, StoreErrorPrefix + ExceptionText(out.status.error)) else numbered;
      Stage(t, st.world.(rows := out.rows))
  }

  // fetch_stored_questions

  /** fetch_stored_questions: the stored chapters, row_id and time for
      (user_id, book_id); with no row, [] and two Nones. The source's
      "No questions found in DB" branch cannot be taken, since the fetch
      always returns a dict with "chapters". */
  function FetchStoredQuestions(st: Stage): (r: Stage)
    ensures Persists(st.state, r.state) && r.world == st.world
    ensures !Given(st.state.userId) || !Given(st.state.bookId) ==>
      r.state == Failed(st.state, FetchStoredMissing)
    ensures Given(st.state.userId) && Given(st.state.bookId) ==>
      var data := QuestionStore.Fetch(st.world.rows, st.state.userId.value, st.state.bookId.value);
      r.state == st.state.(questionsAnswers := Some(data.chapters), rowId := data.rowId, createdOn := data.createdOn)
  {
    var s := st.state;
    if !Given(s.userId) || !Given(s.bookId) then st.(state := Failed(s, FetchStoredMissing))
    else
      var data := QuestionStore.Fetch(st.world.rows, s.userId.value, s.bookId.value);
      st.(state := s.(questionsAnswers := Some(data.chapters), rowId := data.rowId, createdOn := data.createdOn))
  }

  // format_api_response

  /** The api_response of the generation workflow. */
  function ApiResponse(userId: string, bookId: string, createdOn: string, rowId: string, list: seq<Json>): Json {
    JObj([
      ("user_id", JStr(userId)),
      ("book_id", JStr(bookId)),
      ("created_on", JStr(createdOn)),
      ("status", JStr(SuccessStatus)),
      ("row_id", JStr(rowId)),
      ("list", JArr(list))])
  }

  /** format_api_response: needs user_id, book_id, questions_answers,
      row_id and created_on; its exceptions are not caught. */
  function FormatApiResponse(st: Stage): (r: Result<Stage, Exception>)
    ensures r.Ok? ==> Persists(st.state, r.value.state) && r.value.world == st.world
    ensures !(Given(st.state.userId) && Given(st.state.bookId) && GivenList(st.state.questionsAnswers)
              && Given(st.state.rowId) && Given(st.state.createdOn)) ==>
      r == Ok(st.(state := Failed(st.state, FormatMissing)))
    ensures Given(st.state.userId) && Given(st.state.bookId) && GivenList(st.state.questionsAnswers)
            && Given(st.state.rowId) && Given(st.state.createdOn) ==>
      && (r.Err? <==> FormattedList(st.state.questionsAnswers.value).Err?)
      && (r.Err? ==> r.error == FormattedList(st.state.questionsAnswers.value).error)
      && (r.Ok? ==> r.value.state == st.state.(apiResponse := Some(ApiResponse(
            st.state.userId.value, st.state.bookId.value, st.state.createdOn.value, st.state.rowId.value,
            FormattedList(st.state.questionsAnswers.value).value))))
  {
    var s := st.state;
    if !(Given(s.userId) && Given(s.bookId) && GivenList(s.questionsAnswers) && Given(s.rowId) && Given(s.createdOn)) then
      Ok(st.(state := Failed(s, FormatMissing)))
    else
      match FormattedList(s.questionsAnswers.value)
      case Err(e) => Err(e)
      case Ok(list) =>
        Ok(st.(state := s.(apiResponse := Some(ApiResponse(s.userId.value, s.bookId.value, s.createdOn.value, s.rowId.value, list)))))
  }

  /** format_api_response with its two loops. */
  method FormatApiResponseNode(st: Stage) returns (r: Result<Stage, Exception>)
    ensures r == FormatApiResponse(st)
  {
    var s := st.state;
    if !(Given(s.userId) && Given(s.bookId) && GivenList(s.questionsAnswers) && Given(s.rowId) && Given(s.createdOn)) {
      return Ok(st.(state := Failed(s, FormatMissing)));
    }
    var list := FormatQuestions(s.questionsAnswers.value);
    if list.Err? {
      return Err(list.error);
    }
    var response := ApiResponse(s.userId.value, s.bookId.value, s.createdOn.value, s.rowId.value, list.value);
    return Ok(st.(state := s.(apiResponse := Some(response))));
  }

  // fetch_questions_for_validation

  /** fetch_questions_for_validation: the chapters stored for row_id; a
      failed query becomes the error, and so do an absent row and empty
      chapters. */
  function FetchQuestionsForValidation(st: Stage, env: Env): (r: Stage)
    ensures Persists(st.state, r.state) && r.world == st.world
    ensures !Given(st.state.rowId) ==> r.state == Failed(st.state, ValidationFetchMissing)
    ensures Given(st.state.rowId) ==>
      var fetched := FetchQuestionsFromDb(env.db(JStr(st.state.rowId.value)), env.parse);
      && (fetched.Err? ==> r.state == Failed(st.state, ValidationFetchPrefix + ExceptionText(fetched.error)))
      && (fetched.Ok? && (fetched.value.None? || !Truthy(fetched.value.value)) ==>
            r.state == Failed(st.state, ValidationNoData))
      && (fetched.Ok? && fetched.value.Some? && Truthy(fetched.value.value) ==>
            r.state == st.state.(chaptersData := fetched.value))
  {
    var s := st.state;
    if !Given(s.rowId) then st.(state := Failed(s, ValidationFetchMissing))
    else
      match FetchQuestionsFromDb(env.db(JStr(s.rowId.value)), env.parse)
      case Err(e) => st.(state := Failed(s, ValidationFetchPrefix + ExceptionText(e)))
      case Ok(chaptersData) =>
        if chaptersData.None? || !Truthy(chaptersData.value) then st.(state := Failed(s, ValidationNoData))
        else st.(state := s.(chaptersData := chaptersData))
  }

  // validate_answers

  /** validate_answers, given what builds the question map and what grades
      the answers: an unknown question_id becomes the error and leaves
      validated_results unset; the exceptions of the loops are not caught. */
  function ValidateAnswers(st: Stage, mapOf: MapFn, grades: GradesFn): (r: Result<Stage, Exception>)
    ensures r.Ok? ==> Persists(st.state, r.value.state) && r.value.world == st.world
    ensures r.Ok? ==> r.value.state.validatedResults == st.state.validatedResults || r.value.state.error == st.state.error
    ensures r.Ok? ==> r.value.state == st.state.(error := r.value.state.error, validatedResults := r.value.state.validatedResults)
    ensures !GivenJson(st.state.userAnswersList) || !GivenJson(st.state.chaptersData) ==>
      r == Ok(st.(state := Failed(st.state, ValidateMissing)))
  {
    var s := st.state;
    if !GivenJson(s.userAnswersList) || !GivenJson(s.chaptersData) then Ok(st.(state := Failed(s, ValidateMissing)))
    else
      match Iterate(s.chaptersData.value)
      case None => Err(TypeError)
      case Some(chs) =>
        match mapOf(chs)
        case Err(e) => Err(e)
        case Ok(m) =>
          match Iterate(s.userAnswersList.value)
          case None => Err(TypeError)
          case Some(uas) =>
            match grades(m, uas)
            case Err(e) => Err(e)
            case Ok(InvalidId(q)) => Ok(st.(state := Failed(s, InvalidIdPrefix + q)))
            case Ok(Results(rs)) => Ok(st.(state := s.(validatedResults := Some(rs))))
  }

  /** validate_answers with its loops. */
  method ValidateAnswersNode(st: Stage, groq: Grader, parse: string -> Result<Json, string>) returns (r: Result<Stage, Exception>)
    ensures r == ValidateAnswers(st, MapOf(parse), GradesWith(groq, parse))
  {
    var s := st.state;
    if !GivenJson(s.userAnswersList) || !GivenJson(s.chaptersData) {
      return Ok(st.(state := Failed(s, ValidateMissing)));
    }
    var chapters := Iterate(s.chaptersData.value);
    if chapters.None? {
      return Err(TypeError);
    }
    var questionMap := BuildQuestionMap(chapters.value, parse);
    if questionMap.Err? {
      return Err(questionMap.error);
    }
    var answers := Iterate(s.userAnswersList.value);
    if answers.None? {
      return Err(TypeError);
    }
    var outcome := GradeAnswers(questionMap.value, answers.value, groq, parse);
    if outcome.Err? {
      return Err(outcome.error);
    }
    if outcome.value.InvalidId? {
      return Ok(st.(state := Failed(s, InvalidIdPrefix + outcome.value.questionId)));
    }
    return Ok(st.(state := s.(validatedResults := Some(outcome.value.results))));
  }

  // format_validation_response

  /** The api_response of the validation workflow. */
  function ValidationResponse(userId: string, createdOn: string, results: seq<Json>): Json {
    JObj([
      ("user_id", JStr(userId)),
      ("created_on", JStr(createdOn)),
      ("status", JStr(SuccessStatus)),
      ("list", JArr(results))])
  }

  /** format_validation_response: needs user_id and a non-empty
      validated_results; the time is utcnow() at this step. */
  function FormatValidationResponse(st: Stage, env: Env): (r: Stage)
    ensures Persists(st.state, r.state) && r.world == st.world
    ensures !Given(st.state.userId) || !GivenList(st.state.validatedResults) ==>
      r.state == Failed(st.state, FormatValidationMissing)
    ensures Given(st.state.userId) && GivenList(st.state.validatedResults) ==>
      r.state == st.state.(apiResponse := Some(ValidationResponse(st.state.userId.value, env.utcNow, st.state.validatedResults.value)))
  {
    var s := st.state;
    if !Given(s.userId) || !GivenList(s.validatedResults) then st.(state := Failed(s, FormatValidationMissing))
    else st.(state := s.(apiResponse := Some(ValidationResponse(s.userId.value, env.utcNow, s.validatedResults.value))))
  }

  // Properties relating several nodes

  /** On the generation path, a successful store followed by the fetch puts
      the numbered chapters, the row id that was written and the time of
      the store into the state. */
  lemma StoredRowIsFetched(st: Stage, env: Env)
    requires Given(st.state.userId) && Given(st.state.bookId) && GivenList(st.state.questionsAnswers)
    requires StoreOutcomeOf(st, env).status == Ok(QuestionStore.StoredOk(QuestionStore.GenerateRowId(env.pick)))
    ensures var fetched := FetchStoredQuestions(StoreQuestions(st, env)).state;
      && fetched.questionsAnswers == Some(StoreOutcomeOf(st, env).chapters)
      && fetched.rowId == Some(QuestionStore.GenerateRowId(env.pick))
      && fetched.createdOn == Some(env.now)
      && fetched.error == st.state.error
  {
    QuestionStore.FetchAfterStore(st.world.rows, st.state.userId.value, st.state.bookId.value,
      st.state.questionsAnswers.value, QuestionStore.GenerateRowId(env.pick), env.now);
  }

  /** When the embeddings already exist but no questions were ever stored
      for (user_id, book_id), the fetch yields no chapters and formatting
      answers "Missing data for formatting API response". */
  lemma NothingStoredIsMissingData(st: Stage)
    requires Given(st.state.userId) && Given(st.state.bookId)
    requires (st.state.userId.value, st.state.bookId.value) !in st.world.rows
    ensures FormatApiResponse(FetchStoredQuestions(st)).Ok?
    ensures FormatApiResponse(FetchStoredQuestions(st)).value.state.error == Some(FormatMissing)
  {
  }

  /** The list of a formatted response holds at most forty questions, and
      they are the first questions of the uncapped reference. */
  lemma ApiResponseList(st: Stage)
    requires FormatApiResponse(st).Ok? && FormatApiResponse(st).value.state.apiResponse != st.state.apiResponse
    ensures var response := FormatApiResponse(st).value.state.apiResponse.value;
      && response.JObj? && |response.fields| == 6 && response.fields[5].0 == "list"
      && var list := response.fields[5].1;
      && list.JArr? && |list.items| <= MaxQuestions
      && list.items <= ChaptersPrefix(st.state.questionsAnswers.value, 0).questions
  {
    FormattedListBounded(st.state.questionsAnswers.value);
  }

  /** validate_answers sets validated_results to one result per submitted
      answer, in order, or names the first answer whose id is unknown. */
  lemma ValidatedInOrder(st: Stage, groq: Grader, parse: string -> Result<Json, string>,
                         mapOf: MapFn, grades: GradesFn, chs: seq<Json>, uas: seq<Json>)
    requires IsMapOf(mapOf, parse) && IsGrades(grades, groq, parse)
    requires st.state.chaptersData == Some(JArr(chs)) && chs != [] && mapOf(chs).Ok?
    requires st.state.userAnswersList == Some(JArr(uas)) && uas != []
    ensures var r := ValidateAnswers(st, mapOf, grades);
      var m := mapOf(chs).value;
      && (r.Ok? && r.value.state.validatedResults != st.state.validatedResults ==>
            && |r.value.state.validatedResults.value| == |uas|
            && forall k :: 0 <= k < |uas| ==>
                 GradeAnswer(m, uas[k], groq, parse) == Ok(Graded(r.value.state.validatedResults.value[k])))
      && (r.Ok? && r.value.state.error != st.state.error ==>
            && r.value.state.validatedResults == st.state.validatedResults
            && exists k ::
                 && 0 <= k < |uas|
                 && (forall l :: 0 <= l < k ==> Passes(GradeAnswer(m, uas[l], groq, parse)))
                 && GradeAnswer(m, uas[k], groq, parse).Ok?
                 && GradeAnswer(m, uas[k], groq, parse).value.Unknown?
                 && r.value.state.error == Some(InvalidIdPrefix + GradeAnswer(m, uas[k], groq, parse).value.questionId))
  {
    GradesFacts(grades, groq, parse, mapOf(chs).value, uas);
  }
}
