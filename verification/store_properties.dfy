/** The store as a state machine: one step per request, and the facts that
    relate several requests to each other (re-annotation, independence of
    the generator's output, preservation of unique ids). */
module StoreProperties {
  import opened Wrappers
  import opened Questions
  import opened QuestionApi

  /** The ids of the store, position by position. */
  function Ids(store: Store): seq<Option<string>>
  {
    seq(|store|, i requires 0 <= i < |store| => store[i].id)
  }

  /** No two records carry the same id; records without an id are exempt. */
  predicate UniqueIds(store: Store)
  {
    forall i, j :: 0 <= i < j < |store| && store[i].id.Some? ==> store[i].id != store[j].id
  }

  /** What `uuid4` provides: two ids that differ from each other and from
      every id already stored. */
  predicate FreshFor(ids: FreshIds, store: Store)
  {
    && ids.first != ids.second
    && forall j :: 0 <= j < |store| ==> !HasId(store[j], ids.first) && !HasId(store[j], ids.second)
  }

  /** One request against the store. */
  datatype Command =
    | Generate(req: GenerateRequest, saveToUserDb: Option<bool>, reply: GeneratorReply, ids: FreshIds)
    | List
    | Modify(request: ModifyRequest)
    | Delete(questionId: string)

  /** How a request ended: answered with a body, or with an HTTP error. */
  datatype Outcome = Answered | Raised(error: HttpError)

  /** The store after a request, and how the request ended. */
  datatype StepResult = StepResult(store: Store, outcome: Outcome)

  /** The step result of a handler that answered or raised. */
  function Finish<R>(store: Store, r: Result<Transition<R>, HttpError>): StepResult
  {
    match r
    case Success(t) => StepResult(t.store, Answered)
    case Failure(e) => StepResult(store, Raised(e))
  }

  /** Dispatch one request to its handler. */
  function Step(store: Store, cmd: Command): (r: StepResult)
    // A raised error never changes the store.
    ensures r.outcome.Raised? ==> r.store == store
    // Only a saved generation grows the store, by exactly two; only a
    // delete shrinks it, by exactly one.
    ensures |r.store| == |store| || (cmd.Generate? && |r.store| == |store| + 2)
            || (cmd.Delete? && |r.store| == |store| - 1)
    ensures cmd.List? ==> r.store == store
    ensures cmd.Delete? ==> r.outcome == Answered
  {
    match cmd
    case Generate(req, save, reply, ids) =>
      Finish(store, GenerateQuestions(store, req, save, reply, ids))
    case List =>
      Finish(store, GetQuestions(store))
    case Modify(m) =>
      Finish(store, ModifyAndSaveQuestions(store, m))
    case Delete(id) =>
      StepResult(DeleteQuestion(store, id).store, Answered)
  }

  /** A request whose fresh ids, if it generates, are fresh for the store
      it runs against. */
  predicate FreshStep(store: Store, cmd: Command)
  {
    cmd.Generate? ==> FreshFor(cmd.ids, store)
  }

  /** The store after a sequence of requests, handled one at a time. */
  function Run(store: Store, cmds: seq<Command>): Store
    decreases |cmds|
  {
    if cmds == [] then store else Run(Step(store, cmds[0]).store, cmds[1..])
  }

  /** Every generating request in the sequence draws ids fresh for the
      store it meets. */
  predicate FreshRun(store: Store, cmds: seq<Command>)
    decreases |cmds|
  {
    cmds == [] || (FreshStep(store, cmds[0]) && FreshRun(Step(store, cmds[0]).store, cmds[1..]))
  }

  /** A successful annotation keeps every id where it was. */
  lemma ModifyKeepsIds(store: Store, req: ModifyRequest)
    requires ModifyAndSaveQuestions(store, req).Success?
    ensures Ids(ModifyAndSaveQuestions(store, req).value.store) == Ids(store)
  {
    var s' := ModifyAndSaveQuestions(store, req).value.store;
    var i :| 0 <= i < |store| && s'[i] == Annotate(store[i], req)
             && (forall j :: 0 <= j < |store| && j != i ==> s'[j] == store[j]);
    assert forall j :: 0 <= j < |store| ==> s'[j].id == store[j].id;
  }

  /** Annotating again overwrites the previous annotation: the second
      request lands on the same record and the result is as if the first
      had never happened (so an omitted flag resets `flagged` to false). */
  lemma ModifyTwiceOverwrites(store: Store, first: ModifyRequest, second: ModifyRequest)
    requires ModifyAndSaveQuestions(store, first).Success?
    requires second.questionId == first.questionId
    ensures ModifyAndSaveQuestions(ModifyAndSaveQuestions(store, first).value.store, second)
            == ModifyAndSaveQuestions(store, second)
  {
    var s1 := ModifyAndSaveQuestions(store, first).value.store;
    var id := first.questionId;
    var i := FirstMatch(store, id).value;
    assert s1 == store[i := Annotate(store[i], first)];
    FirstMatchAfterUpdate(store, id, i, Annotate(store[i], first));
    assert s1[i := Annotate(s1[i], second)] == store[i := Annotate(store[i], second)];
  }

  /** Repeating the same annotation changes nothing further. */
  lemma ModifyIdempotent(store: Store, req: ModifyRequest)
    requires ModifyAndSaveQuestions(store, req).Success?
    ensures var s1 := ModifyAndSaveQuestions(store, req).value.store;
            ModifyAndSaveQuestions(s1, req).value.store == s1
  {
    ModifyTwiceOverwrites(store, req, req);
  }

  /** The generate endpoint's result depends on neither requested count
      (any integer, or none, is accepted) nor on what the generator
      answered, only on whether it answered. */
  lemma GenerateIgnoresCountsAndReply(store: Store, a: GenerateRequest, b: GenerateRequest,
                                      save: Option<bool>, ra: GeneratorReply, rb: GeneratorReply,
                                      ids: FreshIds)
    requires a.jobTitle == b.jobTitle
    requires ra.Success? == rb.Success?
    ensures GenerateQuestions(store, a, save, ra, ids) == GenerateQuestions(store, b, save, rb, ids)
  {
  }

  /** Fresh ids for a saved generation keep ids unique. */
  lemma GeneratePreservesUniqueIds(store: Store, req: GenerateRequest, save: Option<bool>,
                                   reply: GeneratorReply, ids: FreshIds)
    requires UniqueIds(store) && FreshFor(ids, store)
    requires GenerateQuestions(store, req, save, reply, ids).Success?
    ensures UniqueIds(GenerateQuestions(store, req, save, reply, ids).value.store)
  {
    var s' := GenerateQuestions(store, req, save, reply, ids).value.store;
    if save == Some(true) {
      var drafts := MockDrafts(req.jobTitle, ids);
      assert s' == store + drafts;
      forall i, j | 0 <= i < j < |s'| && s'[i].id.Some?
        ensures s'[i].id != s'[j].id
      {
        if j >= |store| {
          assert s'[j] == drafts[j - |store|];
          if i < |store| {
            assert !HasId(store[i], ids.first) && !HasId(store[i], ids.second);
          }
        }
      }
    }
  }

  /** Removing the first record keeps ids unique. */
  lemma DeletePreservesUniqueIds(store: Store, questionId: string)
    requires UniqueIds(store)
    ensures UniqueIds(DeleteQuestion(store, questionId).store)
  {
    var s' := DeleteQuestion(store, questionId).store;
    if s' != store {
      forall i, j | 0 <= i < j < |s'| && s'[i].id.Some?
        ensures s'[i].id != s'[j].id
      {
        assert s'[i] == store[i + 1] && s'[j] == store[j + 1];
      }
    }
  }

  /** After a delete that removed something, no record left carries the
      deleted id, provided ids were unique. */
  lemma DeleteRemovesOnlyCopy(store: Store, questionId: string)
    requires UniqueIds(store)
    requires |store| > 0 && HasId(store[0], questionId)
    ensures forall j :: 0 <= j < |DeleteQuestion(store, questionId).store| ==>
              !HasId(DeleteQuestion(store, questionId).store[j], questionId)
  {
    var s' := DeleteQuestion(store, questionId).store;
    forall j | 0 <= j < |s'|
      ensures !HasId(s'[j], questionId)
    {
      assert s'[j] == store[j + 1];
    }
  }

  /** Every request keeps ids unique, given fresh ids for generation. */
  lemma StepPreservesUniqueIds(store: Store, cmd: Command)
    requires UniqueIds(store) && FreshStep(store, cmd)
    ensures UniqueIds(Step(store, cmd).store)
  {
    match cmd
    case Generate(req, save, reply, ids) =>
      if GenerateQuestions(store, req, save, reply, ids).Success? {
        GeneratePreservesUniqueIds(store, req, save, reply, ids);
      }
    case List =>
    case Modify(m) =>
      if ModifyAndSaveQuestions(store, m).Success? {
        var s' := ModifyAndSaveQuestions(store, m).value.store;
        ModifyKeepsIds(store, m);
        assert forall k :: 0 <= k < |store| ==> s'[k].id == Ids(s')[k] == Ids(store)[k] == store[k].id;
      }
    case Delete(id) =>
      DeletePreservesUniqueIds(store, id);
  }

  /** Ids stay unique over any sequence of requests whose generations draw
      fresh ids. */
  lemma {:induction false} RunPreservesUniqueIds(store: Store, cmds: seq<Command>)
    requires UniqueIds(store) && FreshRun(store, cmds)
    ensures UniqueIds(Run(store, cmds))
    decreases |cmds|
  {
    if cmds != [] {
      StepPreservesUniqueIds(store, cmds[0]);
      RunPreservesUniqueIds(Step(store, cmds[0]).store, cmds[1..]);
    }
  }

  /** Listing never changes the store, however many times it is asked. */
  lemma {:induction false} ListingsLeaveStore(store: Store, cmds: seq<Command>)
    requires forall k :: 0 <= k < |cmds| ==> cmds[k].List?
    ensures Run(store, cmds) == store
    decreases |cmds|
  {
    if cmds != [] {
      assert cmds[0].List?;
      ListingsLeaveStore(Step(store, cmds[0]).store, cmds[1..]);
    }
  }

  /** With unique ids, annotation touches the one record carrying the id. */
  lemma ModifyUniqueTarget(store: Store, req: ModifyRequest, k: nat)
    requires UniqueIds(store)
    requires k < |store| && HasId(store[k], req.questionId)
    ensures ModifyAndSaveQuestions(store, req).Success?
    ensures ModifyAndSaveQuestions(store, req).value.store == store[k := Annotate(store[k], req)]
  {
  }
}
