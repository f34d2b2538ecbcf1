/** The HTTP handlers of Backend/main.py as pure transitions over the
    in-memory store `QUESTIONS_DB_GENERATED`. Each handler takes the store
    before the request and yields either the store after it together with
    the response body, or the HTTP error it raises (which leaves the store
    as it was). */
module QuestionApi {
  import opened Wrappers
  import opened Questions

  type Store = seq<Question>

  /** An `HTTPException`: status code and detail text. */
  datatype HttpError = HttpError(status: nat, detail: string)

  const JobTitleRequired := HttpError(400, "Job title is required")
  const NothingGenerated := HttpError(404, "Please Generate or save questions first")
  const NoQuestionsToModify := HttpError(400, "No questions to modify")
  const QuestionNotFound := HttpError(404, "Question not found")
  /** What the framework answers when the handler raises an unexpected
      exception, here a failed call to the text generator. */
  const GenerationFailed := HttpError(500, "Internal Server Error")

  /** The store after a request together with the body returned. */
  datatype Transition<+R> = Transition(store: Store, response: R)

  /** The two bodies of the generate endpoint: the whole store under
      `questions` when the drafts were saved, or only the drafts when not. */
  datatype GenerateResponse =
    | SavedQuestions(questions: seq<Question>)
    | UnsavedQuestions(questions: seq<Question>)

  datatype ModifyResponse = ModifyResponse(message: string, questions: seq<Question>)

  datatype DeleteResponse = DeleteResponse(message: string, questions: seq<Question>)

  /** The text the generator returned, or the error it raised. The
      handler never reads the text. */
  type GeneratorReply = Result<string, string>

  /** The two identifiers that `uuid4` would draw for the drafts. */
  datatype FreshIds = FreshIds(first: string, second: string)

  const TechnicalMockText := "What are the benefits of asynchronous programming in Python?"
  const BehavioralMockText := "Describe a time you solved a conflict in a team."

  /** The two mock drafts built for every successful generate request. */
  function MockDrafts(jobTitle: string, ids: FreshIds): (drafts: seq<Question>)
    ensures |drafts| == 2
    ensures drafts[0].questionType == Technical && drafts[1].questionType == Behavioral
    ensures drafts[0].id == Some(ids.first) && drafts[1].id == Some(ids.second)
    ensures ids.first != ids.second ==> drafts[0].id != drafts[1].id
    // The title is carried exactly as given, and neither draft is annotated.
    ensures forall k :: 0 <= k < 2 ==>
              drafts[k].jobTitle == jobTitle && drafts[k].difficulty.None? && drafts[k].flagged == Some(false)
  {
    [ NewQuestion(Some(ids.first), jobTitle, Technical, TechnicalMockText),
      NewQuestion(Some(ids.second), jobTitle, Behavioral, BehavioralMockText) ]
  }

  /** `POST /api/questions/generate`. `saveToUserDb` is the optional query
      flag (omitted means false); `reply` is the outcome of the generator
      call, made after validation and before the drafts are built. */
  function GenerateQuestions(store: Store, req: GenerateRequest, saveToUserDb: Option<bool>,
                             reply: GeneratorReply, ids: FreshIds)
    : (r: Result<Transition<GenerateResponse>, HttpError>)
    // Only the empty title is refused: `not req.job_title` is false for
    // any other string, blank or not.
    ensures req.jobTitle == [] ==> r == Failure(JobTitleRequired)
    ensures req.jobTitle != [] && reply.Failure? ==> r == Failure(GenerationFailed)
    ensures r.Success? <==> req.jobTitle != [] && reply.Success?
    // Unsaved: the store is untouched and the body holds only the drafts.
    ensures r.Success? && saveToUserDb != Some(true) ==>
              r.value.store == store
              && r.value.response == UnsavedQuestions(MockDrafts(req.jobTitle, ids))
    // Saved: the old store is a prefix, the drafts follow, and the body
    // holds the whole new store.
    ensures r.Success? && saveToUserDb == Some(true) ==>
              |r.value.store| == |store| + 2
              && r.value.store[..|store|] == store
              && r.value.store[|store|..] == MockDrafts(req.jobTitle, ids)
              && r.value.response == SavedQuestions(r.value.store)
  {
    if req.jobTitle == [] then Failure(JobTitleRequired)
    else if reply.Failure? then Failure(GenerationFailed)
    else
      var drafts := MockDrafts(req.jobTitle, ids);
      if saveToUserDb.GetOr(false) then
        var store' := store + drafts;
        assert store'[..|store|] == store;
        assert store'[|store|..] == drafts;
        Success(Transition(store', SavedQuestions(store')))
      else
        Success(Transition(store, UnsavedQuestions(drafts)))
  }

  /** `GET /api/questions`: the whole store, unfiltered and unpaginated. */
  function GetQuestions(store: Store): (r: Result<Transition<seq<Question>>, HttpError>)
    ensures r.Failure? <==> |store| == 0
    ensures r.Failure? ==> r.error == NothingGenerated
    ensures r.Success? ==> r.value.store == store && r.value.response == store
  {
    if store == [] then Failure(NothingGenerated) else Success(Transition(store, store))
  }

  /** Position of the first record whose id is `questionId`, if any. */
  function FirstMatch(store: Store, questionId: string): (r: Option<nat>)
    ensures r.Some? ==> r.value < |store| && HasId(store[r.value], questionId)
    ensures r.Some? ==> forall j :: 0 <= j < r.value ==> !HasId(store[j], questionId)
    ensures r.None? <==> forall j :: 0 <= j < |store| ==> !HasId(store[j], questionId)
  {
    if store == [] then None
    else if HasId(store[0], questionId) then Some(0)
    else match FirstMatch(store[1..], questionId)
      case None => None
      case Some(k) => Some(k + 1)
  }

  /** The query parameters of `POST /api/questions`; `None` means omitted. */
  datatype ModifyRequest = ModifyRequest(
    questionId: string,
    difficulty: Option<QuestionDifficulty>,
    isInteresting: Option<bool>)

  /** The annotation a request writes: an omitted difficulty means medium,
      an omitted flag means not interesting. */
  function Annotate(q: Question, req: ModifyRequest): (q': Question)
    ensures q'.difficulty == Some(req.difficulty.GetOr(Medium))
    ensures q'.flagged == Some(req.isInteresting.GetOr(false))
    ensures q'.id == q.id && q'.jobTitle == q.jobTitle
    ensures q'.questionType == q.questionType && q'.question == q.question
  {
    q.(difficulty := Some(req.difficulty.GetOr(Medium)),
       flagged := Some(req.isInteresting.GetOr(false)))
  }

  const ModifiedMessage := "Questions saved and modified successfully"

  /** `POST /api/questions`: overwrite difficulty and flag of the first
      record whose id matches, in place. */
  function ModifyAndSaveQuestions(store: Store, req: ModifyRequest)
    : (r: Result<Transition<ModifyResponse>, HttpError>)
    ensures |store| == 0 ==> r == Failure(NoQuestionsToModify)
    ensures |store| > 0 && (forall j :: 0 <= j < |store| ==> !HasId(store[j], req.questionId)) ==>
              r == Failure(QuestionNotFound)
    ensures r.Success? <==> exists j :: 0 <= j < |store| && HasId(store[j], req.questionId)
    ensures r.Success? ==>
              var s' := r.value.store;
              && |s'| == |store|
              && r.value.response == ModifyResponse(ModifiedMessage, s')
              && exists i :: 0 <= i < |store| && HasId(store[i], req.questionId)
                   && (forall j :: 0 <= j < i ==> !HasId(store[j], req.questionId))
                   && s'[i] == Annotate(store[i], req)
                   && (forall j :: 0 <= j < |store| && j != i ==> s'[j] == store[j])
  {
    if store == [] then Failure(NoQuestionsToModify)
    else match FirstMatch(store, req.questionId)
      case None => Failure(QuestionNotFound)
      case Some(i) =>
        var s' := store[i := Annotate(store[i], req)];
        Success(Transition(s', ModifyResponse(ModifiedMessage, s')))
  }

  /** The message `delete_question` returns, whatever it did. */
  function DeletedMessage(questionId: string): (m: string)
    ensures |m| == |questionId| + 26
    ensures m[..17] == "Question with id "
    ensures m[17..|m| - 9] == questionId
    ensures m[|m| - 9..] == " deleted."
  {
    var m := "Question with id " + questionId + " deleted.";
    assert m[17..|m| - 9] == questionId;
    m
  }

  /** The message names the requested id: different ids, different messages. */
  lemma DeletedMessageNamesId(a: string, b: string)
    requires a != b
    ensures DeletedMessage(a) != DeletedMessage(b)
  {
  }

  /** `DELETE /api/questions/{question_id}` as written: the loop leaves
      after its first iteration whether or not the id matched, so only the
      first record is inspected, and it is removed only when its id
      matches. The handler never raises. */
  function DeleteQuestion(store: Store, questionId: string): (t: Transition<DeleteResponse>)
    ensures t.response == DeleteResponse(DeletedMessage(questionId), t.store)
    ensures |store| > 0 && HasId(store[0], questionId) ==> t.store == store[1..]
    ensures !(|store| > 0 && HasId(store[0], questionId)) ==> t.store == store
    ensures |store| - 1 <= |t.store| <= |store|
  {
    if |store| > 0 && HasId(store[0], questionId) then
      Transition(store[1..], DeleteResponse(DeletedMessage(questionId), store[1..]))
    else
      Transition(store, DeleteResponse(DeletedMessage(questionId), store))
  }

  /** The same search as `FirstMatch`, written as the handler's `for` loop
      with an early `break`. */
  method ScanForMatch(store: Store, questionId: string) returns (found: bool, index: nat)
    ensures found ==> index < |store| && HasId(store[index], questionId)
                      && forall j :: 0 <= j < index ==> !HasId(store[j], questionId)
    ensures !found ==> forall j :: 0 <= j < |store| ==> !HasId(store[j], questionId)
  {
    found, index := false, 0;
    while index < |store|
      invariant index <= |store|
      invariant forall j :: 0 <= j < index ==> !HasId(store[j], questionId)
      decreases |store| - index
    {
      if HasId(store[index], questionId) {
        found := true;
        return;
      }
      index := index + 1;
    }
  }

  /** `modify_and_save_questions` step by step, as the handler runs it:
      emptiness test, scan with `break`, in-place update. It agrees with
      the functional model on every input. */
  method ModifyByScan(store: Store, req: ModifyRequest)
    returns (r: Result<Transition<ModifyResponse>, HttpError>)
    ensures r == ModifyAndSaveQuestions(store, req)
  {
    if |store| == 0 {
      return Failure(NoQuestionsToModify);
    }
    var found, i := ScanForMatch(store, req.questionId);
    if !found {
      return Failure(QuestionNotFound);
    }
    FirstMatchIsUnique(store, req.questionId, i);
    var s' := store[i := Annotate(store[i], req)];
    r := Success(Transition(s', ModifyResponse(ModifiedMessage, s')));
  }

  /** Replacing a record by one with the same id does not move the first
      match. */
  lemma FirstMatchAfterUpdate(store: Store, questionId: string, i: nat, q: Question)
    requires FirstMatch(store, questionId) == Some(i)
    requires q.id == store[i].id
    ensures FirstMatch(store[i := q], questionId) == Some(i)
  {
    FirstMatchIsUnique(store[i := q], questionId, i);
  }

  /** Any position satisfying the first-match description is the one
      `FirstMatch` returns. */
  lemma FirstMatchIsUnique(store: Store, questionId: string, i: nat)
    requires i < |store| && HasId(store[i], questionId)
    requires forall j :: 0 <= j < i ==> !HasId(store[j], questionId)
    ensures FirstMatch(store, questionId) == Some(i)
  {
  }
}
