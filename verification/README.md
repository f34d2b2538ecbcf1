# Interview-question store, modelled in Dafny

The backend keeps every generated interview question in one in-process list,
`QUESTIONS_DB_GENERATED`, and exposes four handlers over it:

- **generate** (`POST /api/questions/generate`) refuses an empty job title.
  It calls the text generator, whose answer it discards. It then builds two
  mock drafts with fresh ids, one technical and one behavioral. It appends
  them to the store only when the `SaveToUserDB` flag is true.
- **list** (`GET /api/questions`) returns the whole store, or 404 when the
  store is empty.
- **modify** (`POST /api/questions`) overwrites `difficulty` and `flagged` of
  the first record whose id matches. It answers 400 on an empty store and
  404 on an unknown id.
- **delete** (`DELETE /api/questions/{question_id}`) looks only at the first
  record and removes it when its id matches. It never raises.

The model treats the store as a state machine. The store is a
`seq<Question>`, and each handler is a pure function. It takes the store
before the request and returns either the store after it with the response
body, or the `HttpError` it raises. A raised error leaves the store as it
was. The records and enumerations of `Backend/Questions.py` are datatypes:

- `QuestionType` and `QuestionDifficulty` are closed enumerations, with wire
  names and their parsers.
- `Question` has optional `id`, `difficulty` and `flagged`.
- `GenerateRequest` has optional, unbounded counts.
- `QuestionGenerateResponse` is the per-question shape requested from the
  generator. It has no id, difficulty or flag. It is only the schema sent
  with the request; the generator's reply is raw text that nothing decodes.

Files:

- `wrappers.dfy`: `Option` and `Result`.
- `questions.dfy`: module `Questions`, the shapes of `Backend/Questions.py`.
- `question_api.dfy`: module `QuestionApi`, the handlers of `Backend/main.py`.
  It also holds the modify handler written out as its loop (`ModifyByScan`),
  which is proved equal to the functional model.
- `store_properties.dfy`: module `StoreProperties`. It holds the request
  dispatcher `Step`, sequences of requests `Run`, and the lemmas that relate
  several requests: re-annotation, independence from the generator, and
  preservation of unique ids.
- `delete_finding.dfy`: module `DeleteFinding`, the delete defect (see
  Findings).

Things the environment decides are parameters:

- The outcome of the text-generator call is a `GeneratorReply`: the raw
  text it returned, or an error. An error becomes the framework's 500 answer.
- The two ids `uuid4` would draw are a `FreshIds` pair.
- An omitted optional query parameter is `None`, resolved to the
  handler's default. For `SaveToUserDB` the default is false, for
  `difficulty` it is medium, and for `IsInterresting` it is false.

Facts about the code that the model keeps:

- `job_title` is stored exactly as given; it is never lowercased.
- Listing has no filters and no pagination.
- Modify annotates records already in the store, in place.
- Deleting an unknown id answers 200 and leaves the store unchanged.
- `/api/stats` returns a constant.

Ids in the store are not assumed unique. Modify acts on the first match.
`UniqueIds` is proved to be preserved when every generation draws fresh ids.

## Model

| member | source | states |
|---|---|---|
| `Questions.TypeName` | Backend/Questions.py:6-8 | the technical member's value is `technical` and the behavioral member's is `behavioral` |
| `Questions.DifficultyName` | Backend/Questions.py:10-13 | the easy, medium and hard members have the values `easy`, `medium` and `hard` |
| `Questions.HasId` | Backend/main.py:64 | a record matches a string id only when its optional id is present and equal to it |
| `Questions.ParseType` | Backend/Questions.py:6-8 | a string is accepted as a question type exactly when it is `technical` or `behavioral`, and then it is that type's wire name |
| `Questions.TypeNameRoundTrip` | Backend/Questions.py:6-8 | every question type parses back from its wire name, and the two types have distinct wire names |
| `Questions.ParseDifficulty` | Backend/Questions.py:10-13 | a string is accepted as a difficulty exactly when it is `easy`, `medium` or `hard`, and then it is that difficulty's wire name |
| `Questions.DifficultyNameRoundTrip` | Backend/Questions.py:10-13 | every difficulty parses back from its wire name, and the three have distinct wire names |
| `Questions.NewQuestion` | Backend/Questions.py:16-22 | a question built without difficulty or flag has no difficulty and `flagged` false, with the given id, title, type and text |
| `Questions.MissingIdNeverMatches` | Backend/Questions.py:17 | a record whose optional id is absent matches no string id |
| `Questions.DefaultGenerateRequest` | Backend/Questions.py:26-29 | a request giving only the title asks for one technical and one behavioral question |
| `QuestionApi.MockDrafts` | Backend/main.py:27-40 | exactly two drafts: the first technical, the second behavioral, both with the title unchanged and the two given ids, no difficulty, not flagged |
| `QuestionApi.GenerateQuestions` | Backend/main.py:14-48 | fails with 400 exactly when the title is the empty string (a blank title passes). Otherwise it fails with 500 exactly when the generator failed. When not saving, the store is unchanged and only the two drafts are returned. When saving, the old store is a prefix, the drafts follow, the length grows by 2, and the whole store is returned |
| `QuestionApi.GetQuestions` | Backend/main.py:50-54 | fails with 404 exactly when the store is empty; otherwise it returns the store and leaves it unchanged |
| `QuestionApi.FirstMatch` | Backend/main.py:63-68 | finds the position of the first record whose id matches, and answers none exactly when no record matches |
| `QuestionApi.Annotate` | Backend/main.py:58-66 | writes the requested difficulty (medium when omitted) and flag (false when omitted) and keeps id, title, type and text |
| `QuestionApi.ModifyAndSaveQuestions` | Backend/main.py:57-76 | 400 on an empty store; 404 when no record has the id; succeeds exactly when some record has it. Then only the first matching record is annotated, the length and every other record are unchanged, and the whole store is returned |
| `QuestionApi.DeletedMessage` | Backend/main.py:84 | the delete message is `Question with id `, then the requested id verbatim, then ` deleted.` |
| `QuestionApi.DeletedMessageNamesId` | Backend/main.py:84 | different requested ids give different delete messages |
| `QuestionApi.DeleteQuestion` | Backend/main.py:78-85 | never fails. It removes the first record exactly when that record's id matches; otherwise the store is unchanged, even when a later record matches. The length drops by at most one, and the answer always claims deletion |
| `QuestionApi.ScanForMatch` | Backend/main.py:62-68 | the handler's loop with `break` stops at the first matching record, or reports that none matches |
| `QuestionApi.ModifyByScan` | Backend/main.py:57-76 | the handler run step by step (emptiness test, scan, in-place update) gives the same result as the functional model |
| `QuestionApi.FirstMatchAfterUpdate` | Backend/main.py:63-66 | overwriting a record in place while keeping its id leaves the first match where it was |
| `QuestionApi.FirstMatchIsUnique` | Backend/main.py:63-68 | a matching position with no earlier match is the one the search returns |
| `StoreProperties.Step` | Backend/main.py:14-85 | an error leaves the store unchanged. Only a generation grows the store, by exactly 2, and only a delete shrinks it, by exactly 1. Listing never changes it, and a delete always answers |
| `StoreProperties.ModifyKeepsIds` | Backend/main.py:63-66 | a successful annotation keeps every id in its place |
| `StoreProperties.ModifyTwiceOverwrites` | Backend/main.py:58-68 | annotating the same id again gives the same result as the second annotation alone, so omitting the flag resets it to false |
| `StoreProperties.ModifyIdempotent` | Backend/main.py:58-68 | repeating an annotation changes nothing further |
| `StoreProperties.GenerateIgnoresCountsAndReply` | Backend/main.py:21-40 | the result of generate depends on neither requested count (any integer, or none) nor on the generator's content, only on whether it answered |
| `StoreProperties.GeneratePreservesUniqueIds` | Backend/main.py:27-45 | saving drafts with fresh ids keeps ids unique |
| `StoreProperties.DeletePreservesUniqueIds` | Backend/main.py:78-83 | deleting keeps ids unique |
| `StoreProperties.DeleteRemovesOnlyCopy` | Backend/main.py:79-83 | with unique ids, after removing the matching first record no record carries that id |
| `StoreProperties.StepPreservesUniqueIds` | Backend/main.py:14-85 | every request keeps ids unique, given fresh ids for generation |
| `StoreProperties.RunPreservesUniqueIds` | Backend/main.py:10-85 | any sequence of requests keeps ids unique, given fresh ids for each generation |
| `StoreProperties.ListingsLeaveStore` | Backend/main.py:50-54 | any number of list requests leaves the store as it was |
| `StoreProperties.ModifyUniqueTarget` | Backend/main.py:62-68 | with unique ids, annotation succeeds and changes exactly the one record carrying the id |
| `DeleteFinding.DeleteFirstMatch` | Backend/main.py:78-85 | the intended delete removes the first matching record wherever it stands (length drops by one), and leaves the store alone when no record matches |
| `DeleteFinding.DeleteFirstMatchRemovesId` | Backend/main.py:78-85 | with unique ids, the intended delete leaves no record with the deleted id |
| `DeleteFinding.AsWrittenAgreesIff` | Backend/main.py:80-83 | the handler as written agrees with the intended delete exactly when no record matches or the first record is the match |
| `DeleteFinding.SecondRecordSurvivesDelete` | Backend/main.py:80-83 | for records `a`, `b`, deleting `b` leaves both under the handler, while the intended delete leaves `[a]` |

## Left out

- The text-generator service (`Backend/Gemini_Service.py`) is a remote call. Only its outcome is modelled, as a parameter: the raw text it returned, or failure. The handler stores that text and overwrites it unread.
- The database wiring (`Backend/database.py`) is left out: no handler reads or writes it.
- The React front end (`Frontend/src/App.js`) is left out: its requests target `/questions/...` paths that no handler here serves.
- `/api/stats` (Backend/main.py:87-89) is left out: it returns a constant and holds no logic.
- `QUESTIONS_DB_User` is left out: it is declared and never used.
- The `Q.questions` attribute is left out. It is process-global state of the imported `Questions` module, and after a failed generator call it still holds the previous request's drafts. Nothing reads it except the generate handler, which overwrites it before reading it.
- The framework's request parsing and type validation are left out. `ParseType` and `ParseDifficulty` state which strings the enumerations accept, but no handler calls them: `ModifyRequest.difficulty` is already a `QuestionDifficulty`, so the framework's 422 answer to an unknown difficulty such as `extreme` is not modelled. Also left out are `async`/`await` and concurrency between requests: each request is one atomic step.
- `uuid4` is left out: fresh ids are supplied by the caller.
- Response bodies are datatypes, not JSON dictionaries. For example, the unsaved generate answer's odd key is not modelled.

## Findings

| source | as written | input that shows it | evidently intended | confidence | as-written member | corrected member |
|---|---|---|---|---|---|---|
| Backend/main.py:80-83 | `break` sits at loop level, so only the first record is ever inspected | store `[a, b]` with ids `"a"`, `"b"`; delete `"b"`: the store stays `[a, b]`, and the answer still says deleted | remove the first record whose id matches, wherever it stands | high; not executed | `DeleteFinding.SecondRecordSurvivesDelete` (about `QuestionApi.DeleteQuestion`) | `DeleteFinding.DeleteFirstMatch` |

The request dispatcher `StoreProperties.Step` still uses the delete as
written, because that is what the server does. `DeleteFinding.AsWrittenAgreesIff`
says exactly when the two deletes agree.
