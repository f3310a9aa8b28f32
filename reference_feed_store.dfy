/**
 * A reference FeedStore: the single overwritable feed slot every backend must
 * behave like, with injectable failures, the store conformance assertions as
 * lemmas about it, and a store that runs submitted operations one at a time in
 * submission order.
 */
module ReferenceFeedStore {
  import opened Wrappers
  import opened FeedDomain
  import opened FeedStore

  /** Which operations of a store fail, and with what error (a store whose file or container is unusable). */
  datatype Faults = Faults(retrieval: Option<Error>, insertion: Option<Error>, deletion: Option<Error>)

  const NoFaults: Faults := Faults(None, None, None)

  /** The slot holds at most one cached feed. */
  datatype StoreState = StoreState(slot: Option<CachedFeed>, faults: Faults)

  datatype Operation =
    | InsertOp(feed: seq<LocalFeedImage>, timestamp: Timestamp)
    | DeleteOp
    | RetrieveOp

  /** What each operation hands to its completion. */
  datatype Outcome =
    | Inserted(insertionError: Option<Error>)
    | Deleted(deletionError: Option<Error>)
    | Retrieved(result: RetrieveCachedFeedResult)

  /** `retrieve`: the slot's content, or the store's retrieval failure. */
  function Retrieve(s: StoreState): (r: RetrieveCachedFeedResult)
    ensures r.Failure? <==> s.faults.retrieval.Some?
    ensures r.Empty? <==> s.faults.retrieval.None? && s.slot.None?
    ensures r.Found? ==> s.slot == Some(CachedFeed(r.feed, r.timestamp))
  {
    match s.faults.retrieval
    case Some(e) => RetrieveCachedFeedResult.Failure(e)
    case None =>
      match s.slot
      case None => Empty
      case Some(c) => Found(c.feed, c.timestamp)
  }

  /** One operation against the store: the new state and what the completion receives. */
  function Apply(s: StoreState, op: Operation): (r: (StoreState, Outcome))
    ensures r.0.faults == s.faults
    ensures op.RetrieveOp? ==> r.0 == s && r.1 == Retrieved(Retrieve(s))
    ensures op.InsertOp? ==>
              r.1 == Inserted(s.faults.insertion) &&
              r.0.slot == (if s.faults.insertion.None? then Some(CachedFeed(op.feed, op.timestamp)) else s.slot)
    ensures op.DeleteOp? ==>
              r.1 == Deleted(s.faults.deletion) &&
              r.0.slot == (if s.faults.deletion.None? then None else s.slot)
  {
    match op
    case RetrieveOp => (s, Retrieved(Retrieve(s)))
    case InsertOp(feed, timestamp) =>
      if s.faults.insertion.None? then (s.(slot := Some(CachedFeed(feed, timestamp))), Inserted(None))
      else (s, Inserted(s.faults.insertion))
    case DeleteOp =>
      if s.faults.deletion.None? then (s.(slot := None), Deleted(None))
      else (s, Deleted(s.faults.deletion))
  }

  /** Operations run one after the other: the final state and the outcomes, in order. */
  function Run(s: StoreState, ops: seq<Operation>): (r: (StoreState, seq<Outcome>))
    ensures |r.1| == |ops|
    decreases |ops|
  {
    if ops == [] then (s, [])
    else
      var (s1, o) := Apply(s, ops[0]);
      var (sf, os) := Run(s1, ops[1..]);
      (sf, [o] + os)
  }

  /**
   * `expect(_:toRetrieve:)`: empty matches empty, found matches found with
   * the same feed and timestamp, and any failure matches any failure. So a
   * result matches exactly what equals it, except that failures match
   * whatever their errors.
   */
  predicate Matches(received: RetrieveCachedFeedResult, expected: RetrieveCachedFeedResult): (m: bool)
    ensures m <==> received == expected || (received.Failure? && expected.Failure?)
  {
    match (received, expected)
    case (Empty, Empty) => true
    case (Found(f, t), Found(f', t')) => f == f' && t == t'
    case (Failure(_), Failure(_)) => true
    case _ => false
  }

  /** The completion of a retrieve received a result that `expect(_:toRetrieve:)` accepts. */
  predicate RetrievedAsExpected(o: Outcome, expected: RetrieveCachedFeedResult) {
    o.Retrieved? && Matches(o.result, expected)
  }

  // ---------------------------------------------------------------------------
  // The conformance assertions
  // ---------------------------------------------------------------------------

  function Retrieves(n: nat): (ops: seq<Operation>)
    ensures |ops| == n && forall i :: 0 <= i < n ==> ops[i] == RetrieveOp
  {
    if n == 0 then [] else [RetrieveOp] + Retrieves(n - 1)
  }

  /** Retrieving any number of times changes nothing and delivers the same outcome every time. */
  lemma {:induction false} RetrieveHasNoSideEffects(s: StoreState, n: nat)
    ensures Run(s, Retrieves(n)).0 == s
    ensures forall i :: 0 <= i < n ==> Run(s, Retrieves(n)).1[i] == Retrieved(Retrieve(s))
  {
    if n > 0 {
      RetrieveHasNoSideEffects(s, n - 1);
      assert Retrieves(n)[1..] == Retrieves(n - 1);
    }
  }

  /** An empty, working store delivers empty, twice. */
  lemma RetrieveDeliversEmptyOnEmptyCache(s: StoreState)
    requires s.slot.None? && s.faults.retrieval.None?
    ensures var outcomes := Run(s, Retrieves(2)).1;
      RetrievedAsExpected(outcomes[0], Empty) && RetrievedAsExpected(outcomes[1], Empty)
  {
    RetrieveHasNoSideEffects(s, 2);
  }

  /** After an insertion, retrieve delivers the same feed and timestamp, twice. */
  lemma RetrieveDeliversFoundValuesOnNonEmptyCache(s: StoreState, feed: seq<LocalFeedImage>, timestamp: Timestamp)
    requires s.faults == NoFaults
    ensures var (s1, inserted) := Apply(s, InsertOp(feed, timestamp));
      var outcomes := Run(s1, Retrieves(2)).1;
      inserted == Inserted(None) &&
      RetrievedAsExpected(outcomes[0], Found(feed, timestamp)) &&
      RetrievedAsExpected(outcomes[1], Found(feed, timestamp))
  {
    var (s1, _) := Apply(s, InsertOp(feed, timestamp));
    RetrieveHasNoSideEffects(s1, 2);
  }

  /** A store whose retrieval fails delivers a failure, twice. */
  lemma RetrieveDeliversFailureOnRetrievalError(s: StoreState, anyError: Error)
    requires s.faults.retrieval.Some?
    ensures var outcomes := Run(s, Retrieves(2)).1;
      RetrievedAsExpected(outcomes[0], RetrieveCachedFeedResult.Failure(anyError)) && RetrievedAsExpected(outcomes[1], RetrieveCachedFeedResult.Failure(anyError))
  {
    RetrieveHasNoSideEffects(s, 2);
  }

  /** A second insertion fully replaces the first: only the newer feed is found. */
  lemma InsertOverridesPreviouslyInsertedCache(s: StoreState, oldFeed: seq<LocalFeedImage>, newFeed: seq<LocalFeedImage>, timestamp: Timestamp)
    requires s.faults == NoFaults
    ensures var r := Run(s, [InsertOp(oldFeed, timestamp), InsertOp(newFeed, timestamp), RetrieveOp]).1;
      r[0] == Inserted(None) && r[1] == Inserted(None) && RetrievedAsExpected(r[2], Found(newFeed, timestamp))
  {
    var ops := [InsertOp(oldFeed, timestamp), InsertOp(newFeed, timestamp), RetrieveOp];
    var s1 := s.(slot := Some(CachedFeed(oldFeed, timestamp)));
    var s2 := s.(slot := Some(CachedFeed(newFeed, timestamp)));
    var last := Run(s2, [RetrieveOp]);
    assert last.0 == s2 && last.1 == [Retrieved(Found(newFeed, timestamp))];
    assert ops[1..] == [InsertOp(newFeed, timestamp), RetrieveOp];
    var tail := Run(s1, ops[1..]);
    assert tail.1 == [Inserted(None), Retrieved(Found(newFeed, timestamp))];
  }

  /** A failing insertion reports an error and leaves an empty store empty. */
  lemma InsertFailsWithoutSideEffects(s: StoreState, feed: seq<LocalFeedImage>, timestamp: Timestamp)
    requires s.slot.None? && s.faults.insertion.Some? && s.faults.retrieval.None?
    ensures var r := Run(s, [InsertOp(feed, timestamp), RetrieveOp]).1;
      r[0].insertionError.Some? && RetrievedAsExpected(r[1], Empty)
  {
    assert [InsertOp(feed, timestamp), RetrieveOp][1..] == [RetrieveOp];
  }

  /** Deleting an empty store succeeds and leaves it empty. */
  lemma DeleteDoesNothingOnEmptyCache(s: StoreState)
    requires s.slot.None? && s.faults == NoFaults
    ensures var r := Run(s, [DeleteOp, RetrieveOp]);
      r.0 == s && r.1[0] == Deleted(None) && RetrievedAsExpected(r.1[1], Empty)
  {
    assert [DeleteOp, RetrieveOp][1..] == [RetrieveOp];
  }

  /** Deleting after a successful insertion empties the store. */
  lemma DeleteDeletesDataOnNonEmptyCache(s: StoreState, feed: seq<LocalFeedImage>, timestamp: Timestamp)
    requires s.faults == NoFaults
    ensures var r := Run(s, [InsertOp(feed, timestamp), DeleteOp, RetrieveOp]).1;
      r[0] == Inserted(None) && r[1] == Deleted(None) && RetrievedAsExpected(r[2], Empty)
  {
    var ops := [InsertOp(feed, timestamp), DeleteOp, RetrieveOp];
    var s1 := s.(slot := Some(CachedFeed(feed, timestamp)));
    var s2 := s.(slot := None);
    var last := Run(s2, [RetrieveOp]);
    assert last.0 == s2 && last.1 == [Retrieved(Empty)];
    assert ops[1..] == [DeleteOp, RetrieveOp];
    var tail := Run(s1, ops[1..]);
    assert tail.1 == [Deleted(None), Retrieved(Empty)];
  }

  /** A failing deletion reports an error. */
  lemma DeleteDeliversAnErrorOnDeletionError(s: StoreState)
    requires s.faults.deletion.Some?
    ensures Run(s, [DeleteOp]).1[0].deletionError.Some?
  {
  }

  // ---------------------------------------------------------------------------
  // Last write wins
  // ---------------------------------------------------------------------------

  /** The slot after a sequence of operations on a working store: what the last write put there. */
  function LastWrite(slot: Option<CachedFeed>, ops: seq<Operation>): Option<CachedFeed> {
    if ops == [] then slot
    else
      match ops[|ops| - 1]
      case InsertOp(feed, timestamp) => Some(CachedFeed(feed, timestamp))
      case DeleteOp => None
      case RetrieveOp => LastWrite(slot, ops[..|ops| - 1])
  }

  lemma {:induction false} RunAppend(s: StoreState, ops: seq<Operation>, op: Operation)
    ensures Run(s, ops + [op]).0 == Apply(Run(s, ops).0, op).0
    decreases |ops|
  {
    if ops != [] {
      assert (ops + [op])[0] == ops[0];
      assert (ops + [op])[1..] == ops[1..] + [op];
      RunAppend(Apply(s, ops[0]).0, ops[1..], op);
    }
  }

  /** On a working store, whatever ran, retrieve sees exactly what the last insert or delete left. */
  lemma {:induction false} LastWriteWins(s: StoreState, ops: seq<Operation>)
    requires s.faults == NoFaults
    ensures Run(s, ops).0 == StoreState(LastWrite(s.slot, ops), NoFaults)
  {
    if ops != [] {
      var front := ops[..|ops| - 1];
      assert ops == front + [ops[|ops| - 1]];
      LastWriteWins(s, front);
      RunAppend(s, front, ops[|ops| - 1]);
    }
  }

  // ---------------------------------------------------------------------------
  // Serial side effects
  // ---------------------------------------------------------------------------

  /** A submitted operation with the identity of the caller's completion. */
  datatype Submission = Submission(id: nat, op: Operation)

  function Ids(q: seq<Submission>): (ids: seq<nat>)
    ensures |ids| == |q| && forall i :: 0 <= i < |q| ==> ids[i] == q[i].id
  {
    if q == [] then [] else [q[0].id] + Ids(q[1..])
  }

  function Ops(q: seq<Submission>): (ops: seq<Operation>)
    ensures |ops| == |q| && forall i :: 0 <= i < |q| ==> ops[i] == q[i].op
  {
    if q == [] then [] else [q[0].op] + Ops(q[1..])
  }

  /**
   * A store with a private serial queue: operations are submitted with the
   * completion they will call, and run strictly one at a time in the order
   * submitted. `completed` is the order in which completions were called.
   */
  class SerialFeedStore {
    var state: StoreState
    var pending: seq<Submission>
    var completed: seq<nat>
    var nextId: nat

    ghost predicate Valid()
      reads this
    {
      forall i :: 0 <= i < |pending| ==> pending[i].id < nextId
    }

    constructor (initial: StoreState)
      ensures Valid() && state == initial && pending == [] && completed == [] && nextId == 0
    {
      state := initial;
      pending := [];
      completed := [];
      nextId := 0;
    }

    /** Submit an operation; `id` names its completion. Nothing runs yet. */
    method Submit(op: Operation) returns (id: nat)
      requires Valid()
      modifies this
      ensures Valid()
      ensures id == old(nextId) && nextId == id + 1
      ensures pending == old(pending) + [Submission(id, op)]
      ensures state == old(state) && completed == old(completed)
    {
      id := nextId;
      pending := pending + [Submission(id, op)];
      nextId := nextId + 1;
    }

    /**
     * The queue's worker: runs every pending operation, oldest first, and
     * calls each completion once its side effect is done.
     */
    method Drain()
      requires Valid()
      modifies this
      ensures Valid()
      ensures pending == [] && nextId == old(nextId)
      ensures state == Run(old(state), Ops(old(pending))).0
      ensures completed == old(completed) + Ids(old(pending))
    {
      ghost var q0 := pending;
      ghost var final := Run(state, Ops(pending)).0;
      ghost var done := 0;
      while pending != []
        invariant 0 <= done <= |q0| && pending == q0[done..]
        invariant Run(state, Ops(pending)).0 == final
        invariant completed == old(completed) + Ids(q0[..done])
        invariant nextId == old(nextId)
        decreases |pending|
      {
        var next := pending[0];
        assert Ops(pending)[1..] == Ops(pending[1..]);
        state := Apply(state, next.op).0;
        completed := completed + [next.id];
        pending := pending[1..];
        assert q0[..done + 1] == q0[..done] + [next];
        IdsAppend(q0[..done], next);
        done := done + 1;
      }
      assert q0[..done] == q0;
    }
  }

  lemma {:induction false} IdsAppend(q: seq<Submission>, s: Submission)
    ensures Ids(q + [s]) == Ids(q) + [s.id]
  {
    if q != [] {
      assert (q + [s])[1..] == q[1..] + [s];
      IdsAppend(q[1..], s);
    }
  }

  /**
   * `assertThatStoreSideEffectsRunSerially`: insert, delete, insert issued in
   * that order complete in that order, and the last insertion is what stays.
   */
  method StoreSideEffectsRunSerially(item: LocalFeedImage, today: Timestamp)
    returns (completedOperationsInOrder: seq<nat>, op1: nat, op2: nat, op3: nat, last: RetrieveCachedFeedResult)
    ensures completedOperationsInOrder == [op1, op2, op3]
    ensures op1 != op2 && op2 != op3 && op1 != op3
    ensures last == Found([item], today)
  {
    var sut := new SerialFeedStore(StoreState(None, NoFaults));
    op1 := sut.Submit(InsertOp([item], today));
    op2 := sut.Submit(DeleteOp);
    op3 := sut.Submit(InsertOp([item], today));
    ghost var submitted := sut.pending;
    sut.Drain();
    completedOperationsInOrder := sut.completed;
    assert Ids(submitted) == [op1, op2, op3];
    var ops := [InsertOp([item], today), DeleteOp, InsertOp([item], today)];
    assert Ops(submitted) == ops;
    LastWriteWins(StoreState(None, NoFaults), ops);
    last := Retrieve(sut.state);
  }
}
