# Question generation and answer validation, modelled in Dafny

The service turns an uploaded PDF book into comprehension questions and
then grades a user's answers to them. Two LangGraph workflows drive it.

- **Generation** (`question_generation_app`) runs these nodes in turn:
  - `prepare_input` writes the upload, or the S3 object, to a temporary file.
  - `check_embeddings` asks the vector store whether the book is already indexed.
  - The router `decide_to_generate_embeddings` then either ends the run
    (error), skips to the stored questions (book indexed), or generates.
  - `generate_embeddings` cuts the PDF text into chapters and stores them.
  - `generate_questions` asks the LLM chapter by chapter.
  - `store_questions` numbers the chapters and questions in place and upserts
    one row per (user, book).
  - `fetch_stored_questions` reads that row back.
  - `format_api_response` flattens at most forty questions for the client.
- **Validation** (`validation_app`) runs three nodes:
  - `fetch_questions_for_validation` reads a row by its id.
  - `validate_answers` builds a map from question id to stored question, then
    grades each answer. It grades an MCQ locally against the index of the
    right option. It sends every other type to a grading LLM.
  - `format_validation_response` wraps the results.

The REST handler `POST /validate_answers` in `validation_api.py` repeats the
validation code. There, every failure is an HTTP error.

The model is split into modules:

| file | module | what it holds |
|---|---|---|
| python.dfy | `Python` | `Option`, `Result`, the exception kinds, and the `str` built-ins the code calls (`strip`, `lower`, `find`, `rfind`, slicing, `replace`, `int()`, `str()` of an int) |
| json.dfy | `JsonValue` | JSON values; dicts as insertion-ordered field lists, with `d[k]`, `d.get`, `d[k] = v`, `in`, iteration, `list(dict.fromkeys(...))` |
| validation.dfy | `ValidationApi` | `validate_locally`, the verdict normalisation of `validate_with_groq`, the decode in `fetch_questions_from_db` |
| grading.dfy | `Grading` | The question-map loops and the grading loop shared by both validators. Each is a method with its loops, proved against a fold function. |
| endpoint.dfy | `ValidationEndpoint` | the `/validate_answers` handler |
| store.dfy | `QuestionStore` | The `questions_and_answers` table as a class `QuestionTable` with a `rows` map. It numbers `qa_data` in place on an `array`, upserts the row, fetches it with a default, and draws `generate_row_id`. |
| generator.dfy | `QuestionGenerator` | the chapter loop of `generate_questions_for_book` |
| embeddings.dfy | `Embeddings` | `extract_and_chunk_text` and `create_embeddings` |
| format.dfy | `ApiFormat` | question-type inference, option re-keying and the forty-question cap of `format_api_response` |
| workflow.dfy | `Workflow` | the state record, the outside world (the table, temporary files, vector-store documents) and every node function |
| graph.dfy | `WorkflowGraph` | the router, the edges of both graphs, a run to `END`, and what whole runs do |

Nodes are functions from a `Stage`, which is the state plus the world, to a
new `Stage`. A node whose exception escapes returns `Result`. Every
collaborator is a field of `Workflow.Env`: S3, the temporary file name, the
PDF reader, the vector store's existence check, retrieval, the
question-generation LLM, the random draws, both clocks, the validation
database, the grading LLM and `json.loads`.

Some behaviour of the code is easy to miss. The model follows the code in
each of these cases:

- A True/False question is not compared locally in either validator. The
  generation prompt (prompts.py:14, 56-57) tags such a question
  `"True/False"`. Lower-cased, that is not `"mcq"`, so the question goes to
  the grading LLM. Only `validate_locally` itself handles `"true/false"`
  (validation_api.py:54-55), and that is modelled and proved on its own.
- `format_api_response` always infers the question type from the question's
  shape (langgraph_workflow.py:176-186). The `question_type` that the prompt
  asks the generator to store (prompts.py:31-62) is not consulted.
- An MCQ with fewer than four options makes `format_api_response` raise
  `IndexError`. The model gives that result instead of requiring four
  options.
- `decide_end_or_continue` is defined but no edge uses it. After
  `check_embeddings`, no error stops a generation run; only an exception
  does.
- Passing `total_questions` makes `generate_questions` record a
  `TypeError` message, because `generate_questions_for_book` takes no such
  parameter.

## Model

| member | source | states |
|---|---|---|
| Python.Strip | validation_api.py:46 | `str.strip()`: the result is no longer than its input, and is either empty or begins and ends with a non-whitespace character |
| Python.StripIsInfix | validation_api.py:46 | the result of strip is one contiguous block `s[i..j]` of the input, and everything before `i` and from `j` on is whitespace |
| Python.StripEmpty | validation_api.py:46 | strip leaves nothing exactly when every character is Python whitespace |
| Python.Lower | validation_api.py:45-46 | `str.lower()` keeps the length and lower-cases each character on its own |
| Python.LowerIdempotent | validation_api.py:45-46 | lower-casing twice is lower-casing once |
| Python.Find | llm_question_generator.py:52 | `find("{")` is -1 exactly when the character is absent; otherwise it is the first index holding it |
| Python.RFind | llm_question_generator.py:53 | `rfind("}")` is -1 exactly when the character is absent; otherwise it is the last index holding it |
| Python.Slice | llm_question_generator.py:57 | Python slicing clamps to the string: an in-range slice is `s[i..j]`, an end past the string gives `s[i..]`, and an empty or reversed range, or a start past the end, gives "" |
| Python.Take | llm_question_generator.py:34 | `s[:n]` is a prefix of s, of length min(n, \|s\|) |
| Python.RemoveAll | langgraph_workflow.py:62 | `replace(pat, "")` never makes the string longer |
| Python.RemoveAllSplits | langgraph_workflow.py:62 | `replace(pat, "")` is `"".join(s.split(pat))`: joining the pieces back with pat gives s, no piece holds pat, and the result is the pieces concatenated |
| Python.ParseInt | validation_api.py:50 | `int()` fails on the empty string, and succeeds only on a text holding a digit |
| Python.ParseIntOfIntToString | validation_api.py:50 | `int(str(n)) == n` for every integer |
| JsonValue.Get | langgraph_workflow.py:46-50 | `d.get(k, default)` is the default exactly when k is absent, and d[k] otherwise |
| JsonValue.PutLookup | store_questions_answers.py:42-45 | after `d[k] = v`, d[k] is v and every other key reads as before |
| JsonValue.PutKeys | store_questions_answers.py:42-45 | `d[k] = v` keeps the key order when k was present, and appends k otherwise |
| JsonValue.Subscript | langgraph_workflow.py:187 | `j[key]` succeeds exactly on a dict holding the key, and returns its value |
| JsonValue.At | langgraph_workflow.py:201-204 | `j[i]` on a list is its i-th element; success means i is in range |
| JsonValue.Iterate | langgraph_workflow.py:186 | `for x in j` walks a list's elements, and fails exactly on a value that is not a list, str or dict |
| JsonValue.Dedup | llm_question_generator.py:25 | `list(dict.fromkeys(xs))` holds the same elements as xs, each once |
| JsonValue.DedupFirstAppearance | llm_question_generator.py:25 | the kept elements come in the order of their first appearance |
| ValidationApi.ValidateLocally | validation_api.py:44-56 | a verdict exists exactly for "mcq" and "true/false" in any case; an MCQ is false when the stored index is None or the answer is not an integer |
| ValidationApi.McqRightIndex | validation_api.py:48-51 | an MCQ answer naming the stored index is correct, whether given as a str or an int |
| ValidationApi.McqWrongIndex | validation_api.py:48-51 | an MCQ answer naming any other index is wrong |
| ValidationApi.TrueFalseCompares | validation_api.py:54-55 | a true/false verdict is equality of the two stripped, lower-cased strings |
| ValidationApi.AnswerCaseAndSpaceIgnored | validation_api.py:44-57 | two answers that agree after strip and lower get the same verdict for every question type; a true/false answer that agrees so with the stored one is correct |
| ValidationApi.TrueFalseBools | validation_api.py:54-55 | two bools grade as equal answers exactly when they are equal |
| ValidationApi.ValidateWithGroq | validation_api.py:59-87 | it fails exactly when there is no reply, and then with HTTP 500; a reply that does not decode, or is not a dict, grades (0, "false"); for a dict reply the score is its "score" (0 when absent) and the verdict is "true" exactly when str(is_correct).lower() is "true" |
| ValidationApi.GroqDefaults | validation_api.py:79-80 | a missing score is 0, a present one passes through unchanged, and a missing is_correct is "false" |
| ValidationApi.GroqVerdictSpellings | validation_api.py:78-80 | the verdict is "true" exactly when is_correct is the bool True or a str that is "true" in any ASCII case; padded strings, None, False, numbers, lists and dicts give "false" |
| ValidationApi.FetchQuestionsFromDb | validation_api.py:22-41 | no row gives None and nothing else does; every failure is HTTP 500 "Database error: ..."; a dict payload gives its "chapters", or [] when absent |
| ValidationApi.FetchDecodesText | validation_api.py:36-38 | a payload stored as text reads the same as the dict it encodes |
| Grading.CanonicalIndex | langgraph_workflow.py:270-275 | the index of the first option equal to the answer after strip and lower; None exactly when no option matches |
| Grading.FindCorrectIndex | langgraph_workflow.py:270-275 | the enumerate-and-break loop finds that canonical index |
| Grading.Entry | langgraph_workflow.py:264-284 | the map entry of one question. It fails with AttributeError exactly when question_type is not a str. Otherwise it is filed under str(question_id) with the question text, the raw question_type, and the chapter's name and number. An MCQ's correct answer is the canonical index (the first option equal to the answer after strip and lower) of a list of options, None when none matches or the options are not a list. Any other type keeps the raw answer and `{}` options. |
| Grading.QuestionEntry | validation_api.py:119-140 | the inner-loop body computes that entry |
| Grading.ChapterQuestions | langgraph_workflow.py:251-262 | a chapter's name and number default to "Unknown Chapter" and 0; its question list is decoded when stored as text |
| Grading.AddQuestions | langgraph_workflow.py:262-284 | the inner loop adds one chapter's question dicts to the map, in order |
| Grading.FillQuestionMap | langgraph_workflow.py:249-284 | the nested loops compute the fold over every chapter |
| Grading.BuildQuestionMap | validation_api.py:103-140 | building question_map as written computes `QuestionMapOf` |
| Grading.ChaptersFoldFlat | langgraph_workflow.py:249-284 | the nested loops equal one flat fold over every question dict, chapter by chapter |
| Grading.MapFoldFails | langgraph_workflow.py:249-284 | the map is built exactly when every entry succeeds; otherwise the error is the first failing entry's |
| Grading.MapFoldLookup | langgraph_workflow.py:277 | a later question with the same id overwrites an earlier one |
| Grading.MapFoldKeys | langgraph_workflow.py:277 | the map holds each question id once, in the order the ids first appear |
| Grading.QuestionMapOfFacts | validation_api.py:103-140 | the map is built exactly when every question dict has a str question_type, and fails only with AttributeError; its keys and values are as in MapFoldKeys and MapFoldLookup |
| Grading.GradeAnswer | langgraph_workflow.py:287-319 | a non-dict answer is a TypeError and one without question_id a KeyError; success means the id is unknown, or it is an MCQ, or the grading LLM replied; an unknown id is not in the map; every exception is a TypeError, a KeyError or HTTP 500 |
| Grading.OthersGradedByModel | langgraph_workflow.py:303-319 | every non-MCQ question, true/false included, is graded by the grading LLM: its score and verdict are stored with the question's data and the answer, and its failure is the failure of the request |
| Grading.GradeOne | validation_api.py:143-175 | the loop body as written computes GradeAnswer |
| Grading.McqGradedLocally | langgraph_workflow.py:299-302 | an MCQ does not depend on the grading LLM or the decoder: it scores 10 with "true" when validate_locally accepts it, and 0 with "false" otherwise |
| Grading.GradeFoldFacts | langgraph_workflow.py:286-320 | every answer is graded, one result each in order, exactly when each passes; otherwise the loop ends with what the first failing answer gives |
| Grading.GradeFoldStops | langgraph_workflow.py:291-292 | once the loop has stopped, no later answer is graded |
| Grading.GradeLoop | langgraph_workflow.py:286-320 | the grading loop computes that fold |
| Grading.GradeAnswers | validation_api.py:142-175 | grading as written computes `Grades` |
| Grading.MapOfFails | validation_api.py:103-140 | building the map can fail only with AttributeError |
| Grading.GradesFacts | validation_api.py:142-175 | one result per answer in order, or the first answer that does not pass; its exceptions are never a 400 or a 404 |
| ValidationEndpoint.ValidateAnswers | validation_api.py:90-182 | the handler as written, with its early returns and two loops, computes `Handle` |
| ValidationEndpoint.MissingFields | validation_api.py:92-97 | 400 "Missing required fields." is returned exactly when user_id, row_id or list is missing or falsy |
| ValidationEndpoint.NoDataIsNotFound | validation_api.py:99-101 | an absent row, or empty chapters, gives 404 |
| ValidationEndpoint.HandledAnswers | validation_api.py:142-182 | a success lists one result per answer in submitted order; a 400 after the checks names the first answer whose id matches no question |
| ValidationEndpoint.SuccessBodyList | validation_api.py:177-182 | the success body's "list" is the results |
| QuestionStore.GenerateRowId | store_questions_answers.py:26-28 | 16 characters from A-Z and 0-9, the k-th chosen by the k-th draw |
| QuestionStore.EveryRowIdCanBeDrawn | store_questions_answers.py:26-28 | every 16-character string over A-Z and 0-9 is a possible row id |
| QuestionStore.NumberQuestions | store_questions_answers.py:44-46 | numbering keeps the list length, and a completed run moves the counter past every question |
| QuestionStore.NumberQuestionsFailure | store_questions_answers.py:44-45 | the inner loop completes exactly when every question is a dict, and raises TypeError otherwise |
| QuestionStore.NumberQuestionsContent | store_questions_answers.py:44-46 | question k becomes itself with question_id next+k when it and every question before it are dicts |
| QuestionStore.NumberQuestionsUntouched | store_questions_answers.py:44-45 | from the first question that is not a dict on, the questions are left as they were |
| QuestionStore.NumberQuestionsIds | store_questions_answers.py:44-46 | a completed run gives the questions the ids next, next+1, ... |
| QuestionStore.NumberChapterNumber | store_questions_answers.py:41-42 | a chapter numbered without error is a dict holding its chapter_number |
| QuestionStore.NumberChapterFailure | store_questions_answers.py:41-46 | numbering one chapter raises what depends on the chapter alone: TypeError for a non-dict, KeyError for a missing questions_answers, TypeError for a question that is not a dict or for a non-empty str, a non-empty dict or any other non-list value |
| QuestionStore.NumberChapterKeeps | store_questions_answers.py:41-46 | a chapter numbered without error keeps every other key, and its questions are the same questions with question_id set |
| QuestionStore.NumberChapterIds | store_questions_answers.py:41-46 | such a chapter's questions get consecutive ids, and the counter moves past them |
| QuestionStore.NumberChaptersIds | store_questions_answers.py:39-46 | over qa_data the ids run on without a gap, and chapter k gets number k+1 |
| QuestionStore.NumberChaptersContent | store_questions_answers.py:39-46 | numbering qa_data raises exactly when some chapter fails, raising what the first failing chapter raises; a completed numbering keeps the content of every chapter |
| QuestionStore.Store | store_questions_answers.py:30-70 | Empty input is refused without writing. Otherwise qa_data ends up numbered, and the call fails exactly when numbering raises, with that exception and the table alone. A success inserts or replaces the (user_id, book_id) row with the numbered chapters, the time and the row id, and leaves every other row untouched. |
| QuestionStore.StoreFailure | store_questions_answers.py:33-46 | a store succeeds exactly when qa_data is non-empty and no chapter fails; a failure raises what the first failing chapter raises and leaves the table unchanged |
| QuestionStore.Fetch | store_questions_answers.py:72-98 | the row's chapters, row_id and time, or ([], None, None) when there is no row |
| QuestionStore.FetchAfterStore | store_questions_answers.py:30-98 | a fetch right after a successful store returns what was written, with the reported row id |
| QuestionStore.StoredNumbering | store_questions_answers.py:39-59 | after a successful store, the row holds one chapter per chapter of qa_data, each keeping its other keys and questions, numbered 1, 2, ... by position; question ids run 100, 101, ... across the book, so they are unique and strictly increasing |
| QuestionStore.QuestionTable.NumberItems | store_questions_answers.py:44-46 | the inner loop computes `NumberQuestions` |
| QuestionStore.QuestionTable.NumberOne | store_questions_answers.py:41-46 | the outer loop body computes `NumberChapter` |
| QuestionStore.QuestionTable.NumberInPlace | store_questions_answers.py:39-46 | the array afterwards holds `NumberChapters` of the old contents, and the failure is returned |
| QuestionStore.QuestionTable.StoreQuestionsAnswers | store_questions_answers.py:30-70 | the new `rows`, the array contents and the status are exactly `Store` of the old table and list |
| QuestionStore.QuestionTable.FetchQuestionsAnswers | store_questions_answers.py:72-98 | the result is `Fetch` of the current rows, and nothing changes |
| QuestionGenerator.ChapterNames | llm_question_generator.py:25 | each chapter name of the chunks appears exactly once |
| QuestionGenerator.CombinedText | llm_question_generator.py:34 | a prefix of the joined chunk texts, at most 6000 characters long, and all of them when they fit |
| QuestionGenerator.ExtractJsonText | llm_question_generator.py:52-57 | None exactly when a brace is missing; otherwise the block that runs from the first "{" to the last "}" |
| QuestionGenerator.FormattedQa | llm_question_generator.py:73-79 | the five keys in source order, with the user, book, LLM chapter name, position and questions |
| QuestionGenerator.ChapterOutcome | llm_question_generator.py:41-79 | a chapter is kept exactly when the LLM replied, the reply is not blank after strip, it holds both braces, the slice between them is non-empty and decodes to a dict, and that dict has chapter_name and questions_answers; the kept dict is formatted_qa built from those two values, the position, and the request's user and book |
| QuestionGenerator.BlankReplySkipped | llm_question_generator.py:45-47 | any reply made only of whitespace skips the chapter |
| QuestionGenerator.GenerateChapter | llm_question_generator.py:32-79 | the loop body as written computes ChapterOutcome |
| QuestionGenerator.GenerateFromFacts | llm_question_generator.py:31-81 | the loop from position i yields kept outcomes only, each for its own chapter, in strictly increasing chapter_number, with none missing |
| QuestionGenerator.GeneratedChapters | llm_question_generator.py:18-83 | The book's chapter numbers are 1-based positions in the deduplicated name list. The result follows that order, and a skipped chapter leaves a gap. No chapter names gives []. |
| QuestionGenerator.GenerateLoop | llm_question_generator.py:31-81 | the loop over chapter names computes the reference fold |
| QuestionGenerator.GenerateQuestionsForBook | llm_question_generator.py:18-83 | the method computes `Generate` |
| Embeddings.FullText | embeddings.py:30-31 | the joined page text holds no NUL |
| Embeddings.Extract | embeddings.py:18-52 | ValueError "No chapter titles found..." exactly when there is no match |
| Embeddings.AssignKeys | embeddings.py:40-50 | the dict's keys are the names of chapters with text, each once, in first-appearance order |
| Embeddings.AssignLastText | embeddings.py:40-50 | each name maps to the text of the last chapter carrying it |
| Embeddings.AssignTexts | embeddings.py:49-50 | every value is a non-empty chapter text |
| Embeddings.ExtractFacts | embeddings.py:18-52 | The chapters dict holds each name of a chapter with text once, in first-appearance order. Each maps to the last text under it, and every text is non-empty and free of NULs. |
| Embeddings.FillChapters | embeddings.py:41-50 | the loop fills the dict as `Assign` over every match |
| Embeddings.ExtractAndChunkText | embeddings.py:18-52 | the method computes `Extract` |
| Embeddings.DocChunks | embeddings.py:68-71 | one entry per chapter, in dict order |
| Embeddings.DocChunksRoundTrip | embeddings.py:68-71 | reading the entries back gives the chapters dict exactly |
| Embeddings.CreateEmbeddings | embeddings.py:54-76 | An indexed book stores nothing and reports "already exist". Otherwise no match is a ValueError. A successful run stores the extracted chapters' entries and reports success. |
| Embeddings.StoredChaptersDistinct | embeddings.py:54-76 | the stored entries name each chapter once |
| ApiFormat.InferredType | langgraph_workflow.py:176-184 | Options means MCQ, and only then. A bool answer without options means True/False, and only then. The only failure is the TypeError of `in` on a non-text question. |
| ApiFormat.InferredTypeIgnoresDeclared | langgraph_workflow.py:176-184 | a stored question_type has no say in the inferred type |
| ApiFormat.BlankMarkerDecides | langgraph_workflow.py:176-183 | a question without options and without a bool answer is fill-in-the-blank exactly when its text contains "___" |
| ApiFormat.OptionsDict | langgraph_workflow.py:199-205 | On a list: success exactly with at least four options, and IndexError otherwise. A success holds option1..option4 bound to the first four options, in order. |
| ApiFormat.FormatQuestion | langgraph_workflow.py:191-207 | The five base keys in order: the question, the inferred type, the chapter's name and number, and the question_id. The re-keyed options come exactly when options is truthy. A missing question_id is a KeyError. |
| ApiFormat.ChapterHeader | langgraph_workflow.py:186-190 | a chapter is a dict with chapter_name; chapter_number defaults to None; its questions_answers is iterable |
| ApiFormat.CapChaptersIsCapped | langgraph_workflow.py:186-212 | the nested loops with their two breaks equal the uncapped reference cut at forty |
| ApiFormat.FormattedListIsCapped | langgraph_workflow.py:186-220 | the list is the first forty questions of the reference when there are forty before any exception; otherwise it is the reference itself, or the exception it stopped at |
| ApiFormat.FormattedListBounded | langgraph_workflow.py:209-220 | at most forty questions, forming a prefix of the uncapped reference |
| ApiFormat.FormatQuestions | langgraph_workflow.py:186-212 | the loops as written compute `FormattedList` |
| Workflow.Failed | langgraph_workflow.py:53 | setting an error keeps every other key, and the error is then set |
| Workflow.ParseS3Url | langgraph_workflow.py:59-65 | Succeeds exactly on a URL that starts with "s3://" and still holds a "/" after "s3://" is removed. The bucket holds no "/", and bucket + "/" + key is the remainder. |
| Workflow.ParseS3UrlOf | langgraph_workflow.py:59-65 | s3://bucket/key reads back as (bucket, key) |
| Workflow.PrepareInput | langgraph_workflow.py:44-77 | Neither input, or both, each gives its own error. A bad URL gives "Invalid S3 URL format". The bytes go to a new temporary file whose path becomes file_path. A failure writes no file. |
| Workflow.CheckEmbeddings | langgraph_workflow.py:80-87 | no book_id is an error; otherwise embeddings_exist is set to the vector store's answer |
| Workflow.Tagged | vector_store.py:49-55 | every stored document carries the book's id |
| Workflow.GenerateEmbeddings | langgraph_workflow.py:90-105 | Without file_path or book_id the world is untouched. Otherwise the file is removed whatever happens. An indexed book stores nothing. A new book without chapter titles records "Error generating embeddings: " and the ValueError's message; one with titles appends exactly its chapter documents, each tagged with the book_id. |
| Workflow.GenerateQuestions | langgraph_workflow.py:107-123 | missing ids are an error; a truthy total_questions is the TypeError of the call; otherwise questions_answers is the generator's output |
| Workflow.StoreQuestions | langgraph_workflow.py:126-139 | Missing data is an error. Otherwise the table is upserted, and the state holds the list numbered in place, even when numbering stopped with an error. |
| Workflow.FetchStoredQuestions | langgraph_workflow.py:142-160 | the row's chapters, row_id and created_on, or [] and two Nones; missing ids are an error |
| Workflow.FormatApiResponse | langgraph_workflow.py:163-222 | Missing data gives "Missing data for formatting API response". The node raises exactly when the list raises. Otherwise api_response holds the ids, the time, "success" and the capped list. |
| Workflow.FormatApiResponseNode | langgraph_workflow.py:163-222 | the node with its loops computes `FormatApiResponse` |
| Workflow.FetchQuestionsForValidation | langgraph_workflow.py:226-238 | A missing row_id, a failed query, an absent row and empty chapters each give their own error. Otherwise chapters_data is set. |
| Workflow.ValidateAnswers | langgraph_workflow.py:241-320 | Missing inputs give an error. The node changes only error and validated_results, never both, and leaves the world alone. |
| Workflow.ValidateAnswersNode | langgraph_workflow.py:241-320 | the node with its loops computes `ValidateAnswers` |
| Workflow.FormatValidationResponse | langgraph_workflow.py:323-338 | without user_id or results it is an error; otherwise api_response wraps the results with the time of this step |
| Workflow.ValidatedInOrder | langgraph_workflow.py:286-320 | Validated_results holds one result per answer, in submitted order. An error names the first unknown id and leaves the results unset. |
| Workflow.StoredRowIsFetched | langgraph_workflow.py:126-160 | after a successful store, the fetch puts the numbered chapters, the written row id and the store's time into the state |
| Workflow.NothingStoredIsMissingData | langgraph_workflow.py:147-172 | indexed embeddings with no stored row end in "Missing data for formatting API response" |
| Workflow.ApiResponseList | langgraph_workflow.py:209-220 | the response's "list" holds at most forty questions, the first of the uncapped reference |
| WorkflowGraph.DecideToGenerateEmbeddings | langgraph_workflow.py:342-349 | a truthy error ends the run; otherwise existing embeddings route to the fetch, and anything else routes to generation; each answer holds exactly in its case |
| WorkflowGraph.Next | langgraph_workflow.py:376-408 | in both the generation and the validation graph every edge moves strictly towards END, so a run terminates |
| WorkflowGraph.GraphNodesAreNodes | langgraph_workflow.py:364-400 | the nodes of both compiled graphs are the node functions |
| WorkflowGraph.RunThrough | langgraph_workflow.py:360-392 | a run that ends normally ran its first node normally, and ends as the run from that node's successor |
| WorkflowGraph.RunPersists | langgraph_workflow.py:360-410 | no node, and hence no run, changes the request's fields or clears an error once set |
| WorkflowGraph.RunLinear | langgraph_workflow.py:386-390 | past check_embeddings the run visits every remaining node, even after an error; only an exception stops it |
| WorkflowGraph.GenerationPaths | langgraph_workflow.py:373-390 | A run goes through prepare_input, then check_embeddings, then one of three fixed paths chosen by the router. It can raise only on a path that reaches format_api_response. |
| WorkflowGraph.EarlyErrorEnds | langgraph_workflow.py:377-385 | a failed prepare_input ends the run after check_embeddings, without an exception |
| WorkflowGraph.ValidationPath | langgraph_workflow.py:403-408 | a validation run visits its three nodes in order |
| WorkflowGraph.ValidationOutcome | langgraph_workflow.py:394-410 | a run from the request ends either with the response and no error, or with the final node's "Missing user_id or validated_results..." overwriting any earlier message |
| WorkflowGraph.TempFileLifetime | langgraph_workflow.py:69-105 | the temporary file is removed on the generate path and left on disk on the fetch path |
| WorkflowGraph.GenerationRunPaths | langgraph_workflow.py:360-392 | `question_generation_app`: the three paths, and every kept key persists |
| WorkflowGraph.GenerationRunTempFile | langgraph_workflow.py:360-392 | `question_generation_app`: the lifetime of the temporary file |
| WorkflowGraph.ValidationRunOutcome | langgraph_workflow.py:394-410 | `validation_app`: three nodes, and one of the two endings |

## Left out

- PDF loading (`PyPDFLoader`) and the chapter-title regular expression are not modelled. The pages' text and the match spans are inputs.
- The LLM calls, S3, Postgres, the vector store and `json.loads` are not modelled. Each is an input function: the model fixes what the code does with their answers, not the answers.
- `check_if_record_exist` is an input oracle. The model does not derive it from the stored documents.
- The validation database (`env.db`) is a separate input from the question table (`rows`). The model does not prove that a row id written by the store is the one the validator reads.
- The bytes written to the temporary file and the S3 bytes are not linked to what `pdf(path)` returns.
- The clocks (`datetime.now()`, `utcnow()`) and the random draws of `random.choices` are input values.
- `print` calls are not modelled, since they do not affect the state.
- LangGraph drops state keys that `GraphState` does not declare (`file_content`, `embeddings_exist`). The model keeps them, as a plain dict would. This filtering belongs to the library and is not part of this model.
- JSON floats are not modelled: `JsonValue.Json` has integers only. A grading reply with a score such as 7.5, and the comparison `1 == 1.0` of an MCQ index with a float, are outside the model.
- JsonValue.Lookup: a dict is a list of fields, and a key occurring twice is found at its first occurrence. `json.loads` keeps the last value of a duplicate key. The model assumes the decoded replies have distinct keys.
- An exception from `check_if_record_exist` (langgraph_workflow.py:86) is not modelled. There it escapes the run uncaught; in the model `recordExists` always answers.
- An exception from `retrieve_relevant_chapter_chunks` (llm_question_generator.py:22, 32) is not modelled. There it reaches `generate_questions` as "Error generating questions: ..."; in the model `retrieve` always returns chunks.
- An exception from `PyPDFLoader` or `store_docs_to_collection` (embeddings.py:28-29, 74) is not modelled. There it becomes "Error generating embeddings: ..."; in the model the pages and the store always succeed.
- An exception from `cursor.execute` or `commit` (store_questions_answers.py:51-69) is not modelled. There it becomes "Error storing questions: ..."; in the model the write always succeeds.
- JsonValue.Str: `str()` of a list or dict is a fixed placeholder, not Python's `repr`.
- Python.ExceptionText: the messages of `TypeError` and `AttributeError` are not tracked; they are rendered by their class name.
- Python.Lower: lower-cases ASCII letters only, with no Unicode case mapping.
- Python.ParseInt: reads ASCII decimal digits with an optional sign, surrounding whitespace already stripped, and single underscores between digits. It does not model other Unicode digits.
- Workflow.FetchStoredQuestions: the "No questions found in DB" and "Error fetching stored questions" branches cannot occur. The fetch always returns a dict holding "chapters" and does not raise in the model, so neither branch is modelled.
- Workflow.GenerateQuestions: the TypeError a truthy `total_questions` causes is kept as its message text. The call is not modelled further.
- The re-raising in `api_langgraph.py` of an HTTP 400 as a 500 is not part of this model. That file is outside the modelled core.
- `decide_end_or_continue` is not modelled, because no edge uses it.
- The database connection in the `StoreQuestionsAnswers` constructor and in `close_connection` is not modelled. A `QuestionTable` starts with an empty `rows` map.
