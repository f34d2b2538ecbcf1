/** The delete handler's loop leaves after its first iteration whatever the
    first record's id is, so a record that carries the id but is not first
    is never removed, although the answer still says it was deleted. This
    module gives the evidently intended remove-the-first-match delete,
    proves what it promises, and pins down exactly where the handler as
    written (`QuestionApi.DeleteQuestion`) departs from it. */
module DeleteFinding {
  import opened Wrappers
  import opened Questions
  import opened QuestionApi
  import opened StoreProperties

  /** Remove the first record whose id matches; leave the store alone when
      none does. */
  function DeleteFirstMatch(store: Store, questionId: string): (s': Store)
    ensures FirstMatch(store, questionId).None? ==> s' == store
    ensures FirstMatch(store, questionId).Some? ==>
              var i := FirstMatch(store, questionId).value;
              s' == store[..i] + store[i + 1..] && |s'| == |store| - 1
  {
    match FirstMatch(store, questionId)
    case None => store
    case Some(i) => store[..i] + store[i + 1..]
  }

  /** With unique ids, the intended delete leaves no record carrying the
      deleted id, wherever that record stood. */
  lemma DeleteFirstMatchRemovesId(store: Store, questionId: string)
    requires UniqueIds(store)
    ensures forall j :: 0 <= j < |DeleteFirstMatch(store, questionId)| ==>
              !HasId(DeleteFirstMatch(store, questionId)[j], questionId)
  {
    var s' := DeleteFirstMatch(store, questionId);
    match FirstMatch(store, questionId)
    case None =>
    case Some(i) =>
      forall j | 0 <= j < |s'|
        ensures !HasId(s'[j], questionId)
      {
        if j < i {
          assert s'[j] == store[j];
        } else {
          assert s'[j] == store[j + 1];
          assert store[i].id == Some(questionId);
        }
      }
  }

  /** The handler as written agrees with the intended delete exactly when
      the first matching record, if any, is the first record. */
  lemma AsWrittenAgreesIff(store: Store, questionId: string)
    ensures DeleteQuestion(store, questionId).store == DeleteFirstMatch(store, questionId)
            <==> (FirstMatch(store, questionId).None? || FirstMatch(store, questionId) == Some(0))
  {
    match FirstMatch(store, questionId)
    case None =>
    case Some(i) =>
      if i == 0 {
        assert store[..0] + store[1..] == store[1..];
      } else {
        assert !HasId(store[0], questionId);
        assert |DeleteQuestion(store, questionId).store| == |store|;
      }
  }

  /** The record that shows it: two records, the second carrying the id
      asked for. The handler leaves both, the intended delete removes the
      second. */
  lemma SecondRecordSurvivesDelete()
    ensures var a := NewQuestion(Some("a"), "dev", Technical, TechnicalMockText);
            var b := NewQuestion(Some("b"), "dev", Behavioral, BehavioralMockText);
            && DeleteQuestion([a, b], "b").store == [a, b]
            && DeleteFirstMatch([a, b], "b") == [a]
  {
    var a := NewQuestion(Some("a"), "dev", Technical, TechnicalMockText);
    var b := NewQuestion(Some("b"), "dev", Behavioral, BehavioralMockText);
    assert !HasId(a, "b");
    assert FirstMatch([a, b], "b") == Some(1);
  }
}
