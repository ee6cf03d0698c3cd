/** Deleting a storage server from all trackers: a query pass, then a delete pass. */
module StorageDelete {
  const ENOENT := 2
  const EBUSY := 16
  const EALREADY := 114

  const ONLINE := 6
  const ACTIVE := 7

  /** What a tracker says in the query pass. */
  datatype Query = Unreachable(error: int) | QueryError(error: int) | Unknown | Known(status: int)

  /** What a tracker says in the delete pass. */
  datatype Answer = NoConnection(error: int) | Replied(code: int)

  /** Errors are not zero, and a query error is not the answer "unknown". */
  predicate ProperQuery(q: Query) {
    && (q.Unreachable? ==> q.error != 0)
    && (q.QueryError? ==> q.error != 0 && q.error != ENOENT)
  }

  predicate ProperAnswer(a: Answer) {
    a.NoConnection? ==> a.error != 0
  }

  /** The tracker does not object to the deletion. */
  predicate Agrees(q: Query) {
    q.Unknown? || (q.Known? && q.status != ONLINE && q.status != ACTIVE)
  }

  predicate Accepts(a: Answer) {
    a.Replied? && (a.code == 0 || a.code == ENOENT || a.code == EALREADY)
  }

  /** The query pass lets the delete pass begin. */
  predicate MayDelete(queries: seq<Query>) {
    (forall q | q in queries :: Agrees(q)) && exists q | q in queries :: q.Known?
  }

  /** How many trackers a delete pass sends its request to: it ends at the first refusal. */
  function Sent(answers: seq<Answer>): (n: nat)
    ensures n <= |answers|
  {
    if answers == [] || answers[0].NoConnection? then 0
    else if Accepts(answers[0]) then 1 + Sent(answers[1..]) else 1
  }

  /** The answers on which a delete pass returns 0. */
  predicate Succeeds(answers: seq<Answer>) {
    && (forall a | a in answers :: Accepts(a))
    && (exists a | a in answers :: a != Replied(ENOENT))
    && answers[|answers| - 1] != Replied(EALREADY)
  }

  /** Every tracker deletes the storage, the last one had done so before: not a success. */
  lemma LastAlreadyFails(n: nat)
    ensures var answers := seq(n, _ => Replied(0)) + [Replied(EALREADY)];
      (forall a | a in answers :: Accepts(a)) && !Succeeds(answers)
  {
    var answers := seq(n, _ => Replied(0)) + [Replied(EALREADY)];
    assert answers[|answers| - 1] == Replied(EALREADY) && answers[n] in answers;
  }

  /** The order of the answers matters: the same ones, turned round, are a success. */
  lemma FirstAlreadySucceeds(n: nat)
    requires n > 0
    ensures Succeeds([Replied(EALREADY)] + seq(n, _ => Replied(0)))
  {
    var answers := [Replied(EALREADY)] + seq(n, _ => Replied(0));
    assert answers[0] in answers && answers[|answers| - 1] == Replied(0);
  }

  /** tracker_delete_storage. `sent` counts the delete requests that went out. */
  method DeleteStorage(queries: seq<Query>, answers: seq<Answer>) returns (result: int, sent: nat)
    requires |queries| == |answers|
    requires forall q | q in queries :: ProperQuery(q)
    requires forall a | a in answers :: ProperAnswer(a)
    ensures sent == if MayDelete(queries) then Sent(answers) else 0
    ensures result == 0 <==> MayDelete(queries) && Succeeds(answers)
    ensures MayDelete(queries) && (forall a | a in answers :: Accepts(a)) && answers[|answers| - 1] == Replied(EALREADY)
      ==> result == EALREADY
  {
    sent := 0;
    var enoents := 0;
    var i := 0;
    while i < |queries|
      invariant 0 <= i <= |queries| && 0 <= enoents <= i && sent == 0
      invariant forall k | 0 <= k < i :: Agrees(queries[k])
      invariant enoents == i <==> forall k | 0 <= k < i :: queries[k].Unknown?
    {
      var q := queries[i];
      assert q in queries && ProperQuery(q);
      if q.Unreachable? || q.QueryError? {
        return q.error, 0;
      }
      if q.Unknown? {
        enoents := enoents + 1;
      } else if q.status == ONLINE || q.status == ACTIVE {
        return EBUSY, 0;
      }
      i := i + 1;
    }
    if enoents == |queries| {
      return ENOENT, 0;
    }
    assert MayDelete(queries) by {
      var k :| 0 <= k < |queries| && !queries[k].Unknown?;
      assert queries[k] in queries;
    }
    result, sent := DeletePass(answers);
  }

  method DeletePass(answers: seq<Answer>) returns (result: int, sent: nat)
    requires answers != [] && forall a | a in answers :: ProperAnswer(a)
    ensures sent == Sent(answers)
    ensures result == 0 <==> Succeeds(answers)
    ensures (forall a | a in answers :: Accepts(a)) && answers[|answers| - 1] == Replied(EALREADY)
      ==> result == EALREADY
  {
    var enoents := 0;
    result, sent := 0, 0;
    var i := 0;
    while i < |answers|
      invariant 0 <= i <= |answers| && 0 <= enoents <= i && sent == i
      invariant i + Sent(answers[i..]) == Sent(answers)
      invariant forall k | 0 <= k < i :: Accepts(answers[k])
      invariant enoents == i <==> forall k | 0 <= k < i :: answers[k] == Replied(ENOENT)
      invariant if i == 0 then result == 0 else answers[i - 1] == Replied(result)
    {
      var a := answers[i];
      assert a in answers && ProperAnswer(a);
      assert answers[i..][1..] == answers[i + 1..];
      if a.NoConnection? {
        return a.error, sent;
      }
      sent := sent + 1;
      result := a.code;
      if result != 0 {
        if result == ENOENT {
          enoents := enoents + 1;
        } else if result != EALREADY {
          return;
        }
      }
      i := i + 1;
    }
    if enoents == |answers| {
      return ENOENT, sent;
    }
    ghost var k :| 0 <= k < |answers| && answers[k] != Replied(ENOENT);
    assert answers[k] in answers;
    if result == ENOENT {
      result := 0;
    }
  }
}
