/** The two compiled graphs of langgraph_workflow.py: which node follows
    which, and what a run does to the state. decide_end_or_continue is
    defined in the source but no edge uses it, so it has no place here. */
module WorkflowGraph {
  import opened Python
  import opened JsonValue
  import opened Grading
  import W = Workflow

  datatype Node =
    | PrepareInput
    | CheckEmbeddings
    | GenerateEmbeddings
    | GenerateQuestions
    | StoreQuestions
    | FetchStoredQuestions
    | FormatApiResponse
    | FetchQuestionsForValidation
    | ValidateAnswers
    | FormatValidationResponse
    | End

  /** The three answers of decide_to_generate_embeddings. */
  datatype Route = EndError | ToFetchStoredQuestions | ToGenerateEmbeddings

  /** decide_to_generate_embeddings: a truthy error ends the run; otherwise
      existing embeddings skip straight to fetching stored questions. */
  function DecideToGenerateEmbeddings(s: W.State): (r: Route)
    ensures r == EndError <==> W.Given(s.error)
    ensures r == ToFetchStoredQuestions <==> !W.Given(s.error) && s.embeddingsExist == Some(true)
    ensures r == ToGenerateEmbeddings <==> !W.Given(s.error) && s.embeddingsExist != Some(true)
  {
    if W.Given(s.error) then EndError
    else if s.embeddingsExist == Some(true) then ToFetchStoredQuestions
    else ToGenerateEmbeddings
  }

  /** How many nodes at most remain before END. */
  function Rank(n: Node): nat {
    match n
    case PrepareInput => 7
    case CheckEmbeddings => 6
    case GenerateEmbeddings => 5
    case GenerateQuestions => 4
    case StoreQuestions => 3
    case FetchStoredQuestions => 2
    case FormatApiResponse => 1
    case FetchQuestionsForValidation => 3
    case ValidateAnswers => 2
    case FormatValidationResponse => 1
    case End => 0
  }

  /** The edges of both graphs. Only check_embeddings has a conditional
      edge; every other node has one successor, whatever the state. */
  function Next(n: Node, s: W.State): (m: Node)
    ensures n != End ==> Rank(m) < Rank(n)
  {
    match n
    case PrepareInput => CheckEmbeddings
    case CheckEmbeddings =>
      (match DecideToGenerateEmbeddings(s)
       case EndError => End
       case ToFetchStoredQuestions => FetchStoredQuestions
       case ToGenerateEmbeddings => GenerateEmbeddings)
    case GenerateEmbeddings => GenerateQuestions
    case GenerateQuestions => StoreQuestions
    case StoreQuestions => FetchStoredQuestions
    case FetchStoredQuestions => FormatApiResponse
    case FormatApiResponse => End
    case FetchQuestionsForValidation => ValidateAnswers
    case ValidateAnswers => FormatValidationResponse
    case FormatValidationResponse => End
    case End => End
  }

  /** The node functions a graph is compiled with. */
  datatype Nodes = Nodes(
    prepareInput: W.Stage -> W.Stage,
    checkEmbeddings: W.Stage -> W.Stage,
    generateEmbeddings: W.Stage -> W.Stage,
    generateQuestions: W.Stage -> W.Stage,
    storeQuestions: W.Stage -> W.Stage,
    fetchStoredQuestions: W.Stage -> W.Stage,
    formatApiResponse: W.Stage -> Result<W.Stage, Exception>,
    fetchQuestionsForValidation: W.Stage -> W.Stage,
    validateAnswers: W.Stage -> Result<W.Stage, Exception>,
    formatValidationResponse: W.Stage -> W.Stage)

  /** Running one node: the new stage, or the exception the node raises. */
  function Step(nodes: Nodes, n: Node, st: W.Stage): Result<W.Stage, Exception> {
    match n
    case PrepareInput => Ok(nodes.prepareInput(st))
    case CheckEmbeddings => Ok(nodes.checkEmbeddings(st))
    case GenerateEmbeddings => Ok(nodes.generateEmbeddings(st))
    case GenerateQuestions => Ok(nodes.generateQuestions(st))
    case StoreQuestions => Ok(nodes.storeQuestions(st))
    case FetchStoredQuestions => Ok(nodes.fetchStoredQuestions(st))
    case FormatApiResponse => nodes.formatApiResponse(st)
    case FetchQuestionsForValidation => Ok(nodes.fetchQuestionsForValidation(st))
    case ValidateAnswers => nodes.validateAnswers(st)
    case FormatValidationResponse => Ok(nodes.formatValidationResponse(st))
    case End => Ok(st)
  }

  /** The nodes of langgraph_workflow.py, for the given services. */
  function GraphNodes(env: W.Env): Nodes {
    Nodes(
      st => W.PrepareInput(st, env),
      st => W.CheckEmbeddings(st, env),
      st => W.GenerateEmbeddings(st, env),
      st => W.GenerateQuestions(st, env),
      st => W.StoreQuestions(st, env),
      st => W.FetchStoredQuestions(st),
      st => W.FormatApiResponse(st),
      st => W.FetchQuestionsForValidation(st, env),
      st => W.ValidateAnswers(st, MapOf(env.parse), GradesWith(env.groq, env.parse)),
      st => W.FormatValidationResponse(st, env))
  }

  /** nodes runs prepare_input and check_embeddings as the node functions do. */
  ghost predicate RoutingNodes(nodes: Nodes, env: W.Env) {
    && (forall st {:trigger W.PrepareInput(st, env)} :: nodes.prepareInput(st) == W.PrepareInput(st, env))
    && (forall st {:trigger W.CheckEmbeddings(st, env)} :: nodes.checkEmbeddings(st) == W.CheckEmbeddings(st, env))
  }

  /** nodes runs generate_embeddings, generate_questions and store_questions
      as the node functions do. */
  ghost predicate GenerateNodes(nodes: Nodes, env: W.Env) {
    && (forall st {:trigger W.GenerateEmbeddings(st, env)} :: nodes.generateEmbeddings(st) == W.GenerateEmbeddings(st, env))
    && (forall st {:trigger W.GenerateQuestions(st, env)} :: nodes.generateQuestions(st) == W.GenerateQuestions(st, env))
    && (forall st {:trigger W.StoreQuestions(st, env)} :: nodes.storeQuestions(st) == W.StoreQuestions(st, env))
  }

  /** nodes runs fetch_stored_questions and format_api_response as the node
      functions do. */
  ghost predicate FetchNodes(nodes: Nodes) {
    && (forall st {:trigger W.FetchStoredQuestions(st)} :: nodes.fetchStoredQuestions(st) == W.FetchStoredQuestions(st))
    && (forall st {:trigger W.FormatApiResponse(st)} :: nodes.formatApiResponse(st) == W.FormatApiResponse(st))
  }

  /** nodes runs the generation graph's nodes as the node functions do. */
  ghost predicate GenerationNodes(nodes: Nodes, env: W.Env) {
    RoutingNodes(nodes, env) && GenerateNodes(nodes, env) && FetchNodes(nodes)
  }

  /** nodes runs the validation graph's nodes as the node functions do,
      validate_answers with the given map builder and grader. */
  ghost predicate ValidationNodes(nodes: Nodes, env: W.Env, mapOf: MapFn, grades: GradesFn) {
    && (forall st {:trigger W.FetchQuestionsForValidation(st, env)} ::
          nodes.fetchQuestionsForValidation(st) == W.FetchQuestionsForValidation(st, env))
    && (forall st {:trigger W.ValidateAnswers(st, mapOf, grades)} :: nodes.validateAnswers(st) == W.ValidateAnswers(st, mapOf, grades))
    && (forall st {:trigger W.FormatValidationResponse(st, env)} ::
          nodes.formatValidationResponse(st) == W.FormatValidationResponse(st, env))
  }

  lemma GraphNodesAreNodes(env: W.Env)
    ensures GenerationNodes(GraphNodes(env), env)
    ensures ValidationNodes(GraphNodes(env), env, MapOf(env.parse), GradesWith(env.groq, env.parse))
  {
  }

  /** The final stage of a run and the nodes it went through. */
  datatype RunResult = RunResult(stage: W.Stage, trace: seq<Node>)

  /** invoke from node n: each node's successor is chosen on the state the
      node returns; an exception a node raises ends the run. */
  function Run(nodes: Nodes, n: Node, st: W.Stage): Result<RunResult, Exception>
    decreases Rank(n)
  {
    if n == End then Ok(RunResult(st, []))
    else
      match Step(nodes, n, st)
      case Err(e) => Err(e)
      case Ok(next) =>
        match Run(nodes, Next(n, next.state), next)
        case Err(e) => Err(e)
        case Ok(rest) => Ok(RunResult(rest.stage, [n] + rest.trace))
  }

  /** question_generation_app.invoke and validation_app.invoke. */
  function GenerationRun(initial: W.State, world: W.World, env: W.Env): Result<RunResult, Exception> {
    Run(GraphNodes(env), PrepareInput, W.Stage(initial, world))
  }

  function ValidationRun(initial: W.State, world: W.World, env: W.Env): Result<RunResult, Exception> {
    Run(GraphNodes(env), FetchQuestionsForValidation, W.Stage(initial, world))
  }

  /** A run that ends normally ran its first node normally and ends as the
      run from that node's successor does. */
  lemma RunThrough(nodes: Nodes, n: Node, st: W.Stage)
    requires n != End
    ensures var r := Run(nodes, n, st);
      r.Ok? ==>
        && Step(nodes, n, st).Ok?
        && var next := Step(nodes, n, st).value;
        && Run(nodes, Next(n, next.state), next).Ok?
        && r.value.stage == Run(nodes, Next(n, next.state), next).value.stage
  {
  }

  // Error persistence

  lemma PersistsRefl(s: W.State)
    ensures W.Persists(s, s)
  {
  }

  lemma PersistsTrans(a: W.State, b: W.State, c: W.State)
    requires W.Persists(a, b) && W.Persists(b, c)
    ensures W.Persists(a, c)
  {
  }

  /** Every node keeps what Persists keeps. */
  lemma StepPersists(nodes: Nodes, env: W.Env, mapOf: MapFn, grades: GradesFn, n: Node, st: W.Stage)
    requires GenerationNodes(nodes, env) && ValidationNodes(nodes, env, mapOf, grades)
    ensures Step(nodes, n, st).Ok? ==> W.Persists(st.state, Step(nodes, n, st).value.state)
  {
    match n
    case PrepareInput => var _ := W.PrepareInput(st, env);
    case CheckEmbeddings => var _ := W.CheckEmbeddings(st, env);
    case GenerateEmbeddings => var _ := W.GenerateEmbeddings(st, env);
    case GenerateQuestions => var _ := W.GenerateQuestions(st, env);
    case StoreQuestions => var _ := W.StoreQuestions(st, env);
    case FetchStoredQuestions => var _ := W.FetchStoredQuestions(st);
    case FormatApiResponse => var _ := W.FormatApiResponse(st);
    case FetchQuestionsForValidation => var _ := W.FetchQuestionsForValidation(st, env);
    case ValidateAnswers => var _ := W.ValidateAnswers(st, mapOf, grades);
    case FormatValidationResponse => var _ := W.FormatValidationResponse(st, env);
    case End => PersistsRefl(st.state);
  }

  /** No node removes a key: the request's fields are never changed, and an
      error, once set, is still set when the run ends. */
  lemma {:induction false} RunPersists(nodes: Nodes, env: W.Env, mapOf: MapFn, grades: GradesFn, n: Node, st: W.Stage)
    requires GenerationNodes(nodes, env) && ValidationNodes(nodes, env, mapOf, grades)
    ensures Run(nodes, n, st).Ok? ==> W.Persists(st.state, Run(nodes, n, st).value.stage.state)
    decreases Rank(n)
  {
    if n == End {
      PersistsRefl(st.state);
    } else if Run(nodes, n, st).Ok? {
      RunThrough(nodes, n, st);
      var next := Step(nodes, n, st).value;
      StepPersists(nodes, env, mapOf, grades, n, st);
      RunPersists(nodes, env, mapOf, grades, Next(n, next.state), next);
      PersistsTrans(st.state, next.state, Run(nodes, n, st).value.stage.state);
    }
  }

  // Traces

  /** The nodes a run from n goes through when n is past the only branch. */
  function Linear(n: Node): seq<Node> {
    match n
    case GenerateEmbeddings => [GenerateEmbeddings, GenerateQuestions, StoreQuestions, FetchStoredQuestions, FormatApiResponse]
    case GenerateQuestions => [GenerateQuestions, StoreQuestions, FetchStoredQuestions, FormatApiResponse]
    case StoreQuestions => [StoreQuestions, FetchStoredQuestions, FormatApiResponse]
    case FetchStoredQuestions => [FetchStoredQuestions, FormatApiResponse]
    case FormatApiResponse => [FormatApiResponse]
    case FetchQuestionsForValidation => [FetchQuestionsForValidation, ValidateAnswers, FormatValidationResponse]
    case ValidateAnswers => [ValidateAnswers, FormatValidationResponse]
    case FormatValidationResponse => [FormatValidationResponse]
    case _ => []
  }

  /** Past check_embeddings every edge is unconditional: the run goes
      through every remaining node whatever the nodes set, an error
      included; only an exception stops it. */
  lemma {:induction false} RunLinear(nodes: Nodes, n: Node, st: W.Stage)
    requires n != PrepareInput && n != CheckEmbeddings
    ensures Run(nodes, n, st).Ok? ==> Run(nodes, n, st).value.trace == Linear(n)
    decreases Rank(n)
  {
    if n != End && Step(nodes, n, st).Ok? {
      var next := Step(nodes, n, st).value;
      RunLinear(nodes, Next(n, next.state), next);
    }
  }

  /** The nodes a generation run goes through, given the route chosen
      after check_embeddings. */
  function GenerationTrace(route: Route): seq<Node> {
    [PrepareInput, CheckEmbeddings] +
      match route
      case EndError => []
      case ToFetchStoredQuestions => Linear(FetchStoredQuestions)
      case ToGenerateEmbeddings => Linear(GenerateEmbeddings)
  }

  /** A generation run goes prepare_input, check_embeddings and then one of
      three fixed paths chosen by the state check_embeddings returns; it can
      raise only on a path that reaches format_api_response. */
  lemma GenerationPaths(nodes: Nodes, env: W.Env, st: W.Stage)
    requires RoutingNodes(nodes, env)
    ensures var route := DecideToGenerateEmbeddings(W.CheckEmbeddings(W.PrepareInput(st, env), env).state);
      && (Run(nodes, PrepareInput, st).Ok? ==> Run(nodes, PrepareInput, st).value.trace == GenerationTrace(route))
      && (Run(nodes, PrepareInput, st).Err? ==> route != EndError)
  {
    var prepared := W.PrepareInput(st, env);
    var routed := W.CheckEmbeddings(prepared, env);
    var n := Next(CheckEmbeddings, routed.state);
    RunLinear(nodes, n, routed);
    assert Run(nodes, CheckEmbeddings, prepared) == match Run(nodes, n, routed)
      case Err(e) => Err(e)
      case Ok(rest) => Ok(RunResult(rest.stage, [CheckEmbeddings] + rest.trace));
  }

  /** The validation graph always goes through its three nodes. */
  lemma ValidationPath(nodes: Nodes, st: W.Stage)
    ensures Run(nodes, FetchQuestionsForValidation, st).Ok? ==>
      Run(nodes, FetchQuestionsForValidation, st).value.trace == [FetchQuestionsForValidation, ValidateAnswers, FormatValidationResponse]
  {
    RunLinear(nodes, FetchQuestionsForValidation, st);
  }

  /** A failure in prepare_input ends the run after check_embeddings,
      without an exception. */
  lemma EarlyErrorEnds(nodes: Nodes, env: W.Env, st: W.Stage)
    requires RoutingNodes(nodes, env)
    requires W.Given(W.PrepareInput(st, env).state.error)
    ensures Run(nodes, PrepareInput, st).Ok?
    ensures Run(nodes, PrepareInput, st).value.trace == [PrepareInput, CheckEmbeddings]
  {
    var routed := W.CheckEmbeddings(W.PrepareInput(st, env), env);
    GenerationPaths(nodes, env, st);
  }

  // What the runs leave behind

  /** The ending of a validation run, in terms of what its last node
      returns. */
  ghost predicate ValidationEnding(s: W.State, initial: W.State, env: W.Env) {
    || (s.error == Some(W.FormatValidationMissing) && s.apiResponse == initial.apiResponse)
    || (&& s.error.None? && s.userId.Some? && s.validatedResults.Some?
        && s.apiResponse == Some(W.ValidationResponse(s.userId.value, env.utcNow, s.validatedResults.value)))
  }

  /** The three validation nodes, one after the other, from the request's
      fields: a failure in the first two leaves validated_results unset,
      and the last node then reports that. */
  lemma ValidationNodesEnding(env: W.Env, mapOf: MapFn, grades: GradesFn, st: W.Stage)
    requires st.state.error.None? && st.state.chaptersData.None? && st.state.validatedResults.None?
    ensures var fetched := W.FetchQuestionsForValidation(st, env);
      W.ValidateAnswers(fetched, mapOf, grades).Ok? ==>
        ValidationEnding(W.FormatValidationResponse(W.ValidateAnswers(fetched, mapOf, grades).value, env).state, st.state, env)
  {
    var fetched := W.FetchQuestionsForValidation(st, env);
    assert fetched.state.validatedResults.None? && fetched.state.apiResponse == st.state.apiResponse;
    assert fetched.state.error.Some? ==> fetched.state.chaptersData.None?;
    var validated := W.ValidateAnswers(fetched, mapOf, grades);
    if validated.Ok? && validated.value.state.validatedResults.Some? {
      assert validated.value.state.error.None?;
    }
  }

  /** A validation run started from the request's fields ends either with
      the response and no error, or with "Missing user_id or
      validated_results ..." whatever went wrong before: that last node
      overwrites the earlier message. */
  lemma ValidationOutcome(nodes: Nodes, env: W.Env, mapOf: MapFn, grades: GradesFn, st: W.Stage)
    requires ValidationNodes(nodes, env, mapOf, grades)
    requires st.state.error.None? && st.state.chaptersData.None? && st.state.validatedResults.None?
    ensures var r := Run(nodes, FetchQuestionsForValidation, st);
      r.Ok? ==> ValidationEnding(r.value.stage.state, st.state, env)
  {
    var r := Run(nodes, FetchQuestionsForValidation, st);
    if r.Ok? {
      ValidationNodesEnding(env, mapOf, grades, st);
      RunThrough(nodes, FetchQuestionsForValidation, st);
      var fetched := W.FetchQuestionsForValidation(st, env);
      assert Step(nodes, FetchQuestionsForValidation, st) == Ok(fetched);
      RunThrough(nodes, ValidateAnswers, fetched);
      assert Step(nodes, ValidateAnswers, fetched) == W.ValidateAnswers(fetched, mapOf, grades);
      var validated := W.ValidateAnswers(fetched, mapOf, grades).value;
      RunThrough(nodes, FormatValidationResponse, validated);
      var formatted := W.FormatValidationResponse(validated, env);
      assert Step(nodes, FormatValidationResponse, validated) == Ok(formatted);
      assert r.value.stage == formatted;
    }
  }

  /** The fetch path leaves the world as it finds it. */
  ghost predicate FetchPathKeepsWorld(nodes: Nodes) {
    forall st {:trigger Run(nodes, FetchStoredQuestions, st)} ::
      Run(nodes, FetchStoredQuestions, st).Ok? ==> Run(nodes, FetchStoredQuestions, st).value.stage.world == st.world
  }

  /** The generate path removes the file at file_path, and only that. */
  ghost predicate GeneratePathRemovesFile(nodes: Nodes) {
    forall st {:trigger Run(nodes, GenerateEmbeddings, st)} ::
      Run(nodes, GenerateEmbeddings, st).Ok? && W.Given(st.state.filePath) && W.Given(st.state.bookId) ==>
        Run(nodes, GenerateEmbeddings, st).value.stage.world.tempFiles == st.world.tempFiles - {st.state.filePath.value}
  }

  lemma FetchPathWorld(nodes: Nodes, st: W.Stage)
    requires FetchNodes(nodes)
    ensures Run(nodes, FetchStoredQuestions, st).Ok? ==> Run(nodes, FetchStoredQuestions, st).value.stage.world == st.world
  {
    if Run(nodes, FetchStoredQuestions, st).Ok? {
      RunThrough(nodes, FetchStoredQuestions, st);
      var fetched := W.FetchStoredQuestions(st);
      RunThrough(nodes, FormatApiResponse, fetched);
      var formatted := W.FormatApiResponse(fetched);
    }
  }

  lemma GeneratePathTempFiles(nodes: Nodes, env: W.Env, st: W.Stage)
    requires GenerateNodes(nodes, env) && FetchPathKeepsWorld(nodes)
    ensures Run(nodes, GenerateEmbeddings, st).Ok? && W.Given(st.state.filePath) && W.Given(st.state.bookId) ==>
      Run(nodes, GenerateEmbeddings, st).value.stage.world.tempFiles == st.world.tempFiles - {st.state.filePath.value}
  {
    if Run(nodes, GenerateEmbeddings, st).Ok? && W.Given(st.state.filePath) && W.Given(st.state.bookId) {
      RunThrough(nodes, GenerateEmbeddings, st);
      var embedded := W.GenerateEmbeddings(st, env);
      RunThrough(nodes, GenerateQuestions, embedded);
      var generated := W.GenerateQuestions(embedded, env);
      RunThrough(nodes, StoreQuestions, generated);
      var stored := W.StoreQuestions(generated, env);
      assert Run(nodes, FetchStoredQuestions, stored).Ok?;
    }
  }

  /** Both paths' facts hold of the generation graph's nodes. */
  lemma PathFacts(nodes: Nodes, env: W.Env)
    requires GenerationNodes(nodes, env)
    ensures FetchPathKeepsWorld(nodes) && GeneratePathRemovesFile(nodes)
  {
    forall st ensures Run(nodes, FetchStoredQuestions, st).Ok? ==> Run(nodes, FetchStoredQuestions, st).value.stage.world == st.world {
      FetchPathWorld(nodes, st);
    }
    forall st ensures Run(nodes, GenerateEmbeddings, st).Ok? && W.Given(st.state.filePath) && W.Given(st.state.bookId) ==>
      Run(nodes, GenerateEmbeddings, st).value.stage.world.tempFiles == st.world.tempFiles - {st.state.filePath.value}
    {
      GeneratePathTempFiles(nodes, env, st);
    }
  }

  /** The temporary file prepare_input writes is removed on the path that
      generates embeddings, and left on disk on the path that finds them
      already stored. */
  lemma TempFileLifetime(nodes: Nodes, env: W.Env, st: W.Stage)
    requires RoutingNodes(nodes, env) && FetchPathKeepsWorld(nodes) && GeneratePathRemovesFile(nodes)
    requires env.tempPath != [] && !W.Given(st.state.error) && W.Given(st.state.bookId)
    requires W.GivenList(st.state.fileContent) != W.Given(st.state.s3Url) && W.InputBytes(st.state, env).Ok?
    ensures var route := DecideToGenerateEmbeddings(W.CheckEmbeddings(W.PrepareInput(st, env), env).state);
      var r := Run(nodes, PrepareInput, st);
      && (r.Ok? && route == ToGenerateEmbeddings ==> env.tempPath !in r.value.stage.world.tempFiles)
      && (r.Ok? && route == ToFetchStoredQuestions ==> env.tempPath in r.value.stage.world.tempFiles)
  {
    var r := Run(nodes, PrepareInput, st);
    var prepared := W.PrepareInput(st, env);
    var routed := W.CheckEmbeddings(prepared, env);
    if r.Ok? && DecideToGenerateEmbeddings(routed.state) != EndError {
      RunThrough(nodes, PrepareInput, st);
      RunThrough(nodes, CheckEmbeddings, prepared);
      var rest := Run(nodes, Next(CheckEmbeddings, routed.state), routed);
      assert r.value.stage == rest.value.stage;
    }
  }

  // The same, for the graphs as compiled

  /** question_generation_app: the three paths, and every key persists. */
  lemma GenerationRunPaths(initial: W.State, world: W.World, env: W.Env)
    ensures var route := DecideToGenerateEmbeddings(W.CheckEmbeddings(W.PrepareInput(W.Stage(initial, world), env), env).state);
      var r := GenerationRun(initial, world, env);
      && (r.Ok? ==> r.value.trace == GenerationTrace(route) && W.Persists(initial, r.value.stage.state))
      && (r.Err? ==> route != EndError)
  {
    GraphNodesAreNodes(env);
    GenerationPaths(GraphNodes(env), env, W.Stage(initial, world));
    RunPersists(GraphNodes(env), env, MapOf(env.parse), GradesWith(env.groq, env.parse), PrepareInput, W.Stage(initial, world));
  }

  /** question_generation_app: the temporary file is removed when the
      embeddings are generated and left behind when they already exist. */
  lemma GenerationRunTempFile(initial: W.State, world: W.World, env: W.Env)
    requires env.tempPath != [] && !W.Given(initial.error) && W.Given(initial.bookId)
    requires W.GivenList(initial.fileContent) != W.Given(initial.s3Url) && W.InputBytes(initial, env).Ok?
    ensures var route := DecideToGenerateEmbeddings(W.CheckEmbeddings(W.PrepareInput(W.Stage(initial, world), env), env).state);
      var r := GenerationRun(initial, world, env);
      && (r.Ok? && route == ToGenerateEmbeddings ==> env.tempPath !in r.value.stage.world.tempFiles)
      && (r.Ok? && route == ToFetchStoredQuestions ==> env.tempPath in r.value.stage.world.tempFiles)
  {
    GraphNodesAreNodes(env);
    PathFacts(GraphNodes(env), env);
    TempFileLifetime(GraphNodes(env), env, W.Stage(initial, world));
  }

  /** validation_app: three nodes, and one of two endings. */
  lemma ValidationRunOutcome(initial: W.State, world: W.World, env: W.Env)
    requires initial.error.None? && initial.chaptersData.None? && initial.validatedResults.None?
    ensures var r := ValidationRun(initial, world, env);
      r.Ok? ==>
        var s := r.value.stage.state;
        && r.value.trace == [FetchQuestionsForValidation, ValidateAnswers, FormatValidationResponse]
        && ValidationEnding(s, initial, env)
  {
    GraphNodesAreNodes(env);
    ValidationPath(GraphNodes(env), W.Stage(initial, world));
    ValidationOutcome(GraphNodes(env), env, MapOf(env.parse), GradesWith(env.groq, env.parse), W.Stage(initial, world));
  }
}
