/** Matching a worker's replies to the hub's requests (hub/src/workers/connection.py).

    `request` holds a lock per response type while it waits, registers a future under a new
    id, and removes it on a timeout.  The read loop matches a reply by its echoed id, or, for
    workers that never echoed one, by its type.  One step is what runs between two awaits. */
module Correlation {
  import opened Wrappers

  type Id = string

  datatype Msg = Msg(reqId: Option<Id>, mtype: string, body: nat)

  datatype Future = Waiting | Done(reply: Msg) | Cancelled

  datatype Pending = Pending(id: Id, rtype: string)

  /** `pending` is the dictionary in insertion order; `locks` says which call is inside the
      lock of a response type; `futures` outlive their entries in `pending`. */
  datatype Conn = Conn(pending: seq<Pending>, echoes: bool, locks: map<string, Id>, futures: map<Id, Future>)

  const INITIAL := Conn([], false, map[], map[])

  /** Where a received message ends up.  `Discarded` is a reply whose call had already given
      up but not yet removed its entry. */
  datatype Destination = ToFuture(id: Id) | Late | Discarded(id: Id) | ToHandler

  // ----- the pending table -----

  function IndexOfId(pending: seq<Pending>, id: Id): (k: nat)
    ensures k <= |pending|
    ensures k < |pending| ==> pending[k].id == id
    ensures forall j :: 0 <= j < k ==> pending[j].id != id
  {
    if pending == [] || pending[0].id == id then 0 else 1 + IndexOfId(pending[1..], id)
  }

  function IndexOfType(pending: seq<Pending>, rtype: string): (k: nat)
    ensures k <= |pending|
    ensures k < |pending| ==> pending[k].rtype == rtype
    ensures forall j :: 0 <= j < k ==> pending[j].rtype != rtype
  {
    if pending == [] || pending[0].rtype == rtype then 0 else 1 + IndexOfType(pending[1..], rtype)
  }

  function Without(pending: seq<Pending>, k: nat): seq<Pending> {
    if k < |pending| then pending[..k] + pending[k + 1..] else pending
  }

  // ----- steps -----

  /** A call enters the lock of its type and sends. */
  function Begin(c: Conn, id: Id, rtype: string): Conn {
    Conn(c.pending + [Pending(id, rtype)], c.echoes, c.locks[rtype := id], c.futures[id := Waiting])
  }

  /** Which entry a message is for, or the length. */
  function Match(c: Conn, m: Msg): (k: nat)
    ensures k <= |c.pending|
  {
    if m.reqId.Some? then IndexOfId(c.pending, m.reqId.value)
    else if c.echoes then |c.pending|
    else IndexOfType(c.pending, m.mtype)
  }

  function Route(c: Conn, m: Msg): Destination {
    var k := Match(c, m);
    if k < |c.pending| then
      var id := c.pending[k].id;
      if id in c.futures && c.futures[id] == Waiting then ToFuture(id) else Discarded(id)
    else if m.reqId.Some? then Late
    else ToHandler
  }

  function Receive(c: Conn, m: Msg): Conn {
    var k := Match(c, m);
    var to := Route(c, m);
    Conn(Without(c.pending, k), c.echoes || m.reqId.Some?, c.locks,
         if to.ToFuture? then c.futures[to.id := Done(m)] else c.futures)
  }

  /** The timer of a waiting call fires. */
  function TimeOut(c: Conn, id: Id): Conn {
    if id in c.futures && c.futures[id] == Waiting then c.(futures := c.futures[id := Cancelled]) else c
  }

  /** The call resumes: it removes its entry if it timed out, and leaves the lock. */
  function Resume(c: Conn, id: Id, rtype: string): Conn {
    var timedOut := id in c.futures && c.futures[id] == Cancelled;
    var pending := if timedOut then Without(c.pending, IndexOfId(c.pending, id)) else c.pending;
    c.(pending := pending, locks := c.locks - {rtype})
  }

  function Close(c: Conn): Conn {
    Conn([], c.echoes, c.locks,
         map id | id in c.futures ::
           if c.futures[id] == Waiting && IndexOfId(c.pending, id) < |c.pending| then Cancelled else c.futures[id])
  }

  /** The coroutine that awaits `request` is cancelled from outside: the lock is left, the entry
      is not removed. */
  function Abandon(c: Conn, id: Id, rtype: string): Conn {
    c.(futures := c.futures[id := Cancelled], locks := c.locks - {rtype})
  }

  datatype Step =
    | DoBegin(id: Id, rtype: string)
    | DoReceive(m: Msg)
    | DoTimeOut(id: Id)
    | DoResume(id: Id, rtype: string)
    | DoClose
    | DoAbandon(id: Id, rtype: string)

  function Do(c: Conn, s: Step): Conn {
    match s
    case DoBegin(id, rtype) => Begin(c, id, rtype)
    case DoReceive(m) => Receive(c, m)
    case DoTimeOut(id) => TimeOut(c, id)
    case DoResume(id, rtype) => Resume(c, id, rtype)
    case DoClose => Close(c)
    case DoAbandon(id, rtype) => Abandon(c, id, rtype)
  }

  /** A call begins under a new id once the lock of its type is free; only a call inside its
      lock resumes, and only when its future is settled. */
  predicate Enabled(c: Conn, s: Step) {
    match s
    case DoBegin(id, rtype) => rtype !in c.locks && id !in c.futures
    case DoResume(id, rtype) =>
      rtype in c.locks && c.locks[rtype] == id && id in c.futures && c.futures[id] != Waiting
    case DoAbandon(id, rtype) =>
      rtype in c.locks && c.locks[rtype] == id && id in c.futures && c.futures[id] == Waiting
    case _ => true
  }

  // ----- the invariant -----

  predicate Has(pending: seq<Pending>, id: Id) { IndexOfId(pending, id) < |pending| }

  predicate DistinctIds(pending: seq<Pending>) {
    forall j, k :: 0 <= j < k < |pending| ==> pending[j].id != pending[k].id
  }

  /** Whatever callers do: entries have ids of their own and futures that are not done, a
      waiting future has an entry, no call is inside two locks, and the call of an entry is
      inside no other lock than that of its type. */
  ghost predicate Linked(c: Conn) {
    && DistinctIds(c.pending)
    && (forall k :: 0 <= k < |c.pending| ==> c.pending[k].id in c.futures && !c.futures[c.pending[k].id].Done?)
    && (forall id :: id in c.futures && c.futures[id] == Waiting ==> Has(c.pending, id))
    && (forall t :: t in c.locks ==> c.locks[t] in c.futures)
    && (forall t, u :: t in c.locks && u in c.locks && c.locks[t] == c.locks[u] ==> t == u)
    && (forall k, t :: 0 <= k < |c.pending| && t in c.locks && c.locks[t] == c.pending[k].id ==>
          t == c.pending[k].rtype)
  }

  /** An entry whose call is inside no lock any more. */
  ghost predicate Orphan(c: Conn, id: Id) { Has(c.pending, id) && !InLock(c, id) }

  ghost predicate InLock(c: Conn, id: Id) { exists t :: t in c.locks && c.locks[t] == id }

  /** Every entry belongs to the call that is inside the lock of its type. */
  ghost predicate Inv(c: Conn) { Linked(c) && forall id :: !Orphan(c, id) }

  lemma Owned(c: Conn, k: nat)
    requires Inv(c) && k < |c.pending|
    ensures var p := c.pending[k]; p.rtype in c.locks && c.locks[p.rtype] == p.id
  {
    FoundAt(c.pending, k);
    assert !Orphan(c, c.pending[k].id);
  }

  lemma OnePerType(c: Conn)
    requires Inv(c)
    ensures forall j, k :: 0 <= j < k < |c.pending| ==>
              c.pending[j].rtype != c.pending[k].rtype && c.pending[j].id != c.pending[k].id
  {
    forall j, k | 0 <= j < k < |c.pending|
      ensures c.pending[j].rtype != c.pending[k].rtype && c.pending[j].id != c.pending[k].id
    {
      Owned(c, j);
      Owned(c, k);
    }
  }

  lemma FoundAt(pending: seq<Pending>, k: nat)
    requires k < |pending|
    ensures Has(pending, pending[k].id)
  {
  }

  lemma WithoutOne(pending: seq<Pending>, k: nat)
    requires k < |pending| && DistinctIds(pending)
    ensures DistinctIds(Without(pending, k))
    ensures forall j :: 0 <= j < |pending| - 1 ==> Without(pending, k)[j] == pending[if j < k then j else j + 1]
    ensures forall id :: Has(Without(pending, k), id) <==> Has(pending, id) && id != pending[k].id
  {
    var rest := Without(pending, k);
    forall id ensures Has(rest, id) <==> Has(pending, id) && id != pending[k].id {
      var j := IndexOfId(pending, id);
      if j < |pending| && j != k { FoundAt(rest, if j < k then j else j - 1); }
      var i := IndexOfId(rest, id);
      if i < |rest| { FoundAt(pending, if i < k then i else i + 1); }
    }
  }

  /** Removing entry k, whose future is no longer waiting. */
  lemma RemoveKeepsLinked(c: Conn, k: nat, futures: map<Id, Future>)
    requires Linked(c) && k < |c.pending|
    requires futures.Keys == c.futures.Keys && futures[c.pending[k].id] != Waiting
    requires forall id :: id in futures && id != c.pending[k].id ==> futures[id] == c.futures[id]
    ensures Linked(c.(pending := Without(c.pending, k), futures := futures))
  {
    hide IndexOfId;
    WithoutOne(c.pending, k);
    var rest := Without(c.pending, k);
    forall j | 0 <= j < |rest| ensures rest[j].id in futures && !futures[rest[j].id].Done? {
      assert rest[j].id != c.pending[k].id by { FoundAt(rest, j); }
    }
  }

  lemma BeginKeepsLinked(c: Conn, id: Id, rtype: string)
    requires Linked(c) && Enabled(c, DoBegin(id, rtype))
    ensures Linked(Begin(c, id, rtype))
    ensures forall x :: Has(Begin(c, id, rtype).pending, x) <==> Has(c.pending, x) || x == id
  {
    hide IndexOfId;
    var pending := c.pending + [Pending(id, rtype)];
    forall x ensures Has(pending, x) <==> Has(c.pending, x) || x == id {
      FoundAt(pending, |c.pending|);
      var k, i := IndexOfId(c.pending, x), IndexOfId(pending, x);
      if k < |c.pending| { FoundAt(pending, k); }
      if i < |c.pending| { FoundAt(c.pending, i); }
    }
  }

  lemma ReceiveKeepsLinked(c: Conn, m: Msg)
    requires Linked(c)
    ensures Linked(Receive(c, m))
    ensures forall id :: Has(Receive(c, m).pending, id) <==> Has(c.pending, id) && !Removes(c, DoReceive(m), id)
  {
    var k, to := Match(c, m), Route(c, m);
    if k < |c.pending| {
      var futures := if to.ToFuture? then c.futures[to.id := Done(m)] else c.futures;
      WithoutOne(c.pending, k);
      RemoveKeepsLinked(c, k, futures);
      assert Receive(c, m) == c.(pending := Without(c.pending, k), futures := futures, echoes := Receive(c, m).echoes);
    }
  }

  /** A message is matched to the entry, or the connection is closed. */
  predicate Removes(c: Conn, s: Step, id: Id) {
    match s
    case DoReceive(m) => Match(c, m) < |c.pending| && c.pending[Match(c, m)].id == id
    case DoClose => true
    case _ => false
  }

  lemma ResumeKeepsLinked(c: Conn, id: Id, rtype: string)
    requires Linked(c) && Enabled(c, DoResume(id, rtype))
    ensures Linked(Resume(c, id, rtype))
    ensures forall x :: Has(Resume(c, id, rtype).pending, x) <==> Has(c.pending, x) && x != id
  {
    var k := IndexOfId(c.pending, id);
    if k < |c.pending| {
      WithoutOne(c.pending, k);
      RemoveKeepsLinked(c, k, c.futures);
    }
  }

  lemma StepKeepsLinked(c: Conn, s: Step)
    requires Linked(c) && Enabled(c, s)
    ensures Linked(Do(c, s))
  {
    match s
    case DoBegin(id, rtype) => BeginKeepsLinked(c, id, rtype);
    case DoReceive(m) => ReceiveKeepsLinked(c, m);
    case DoResume(id, rtype) => ResumeKeepsLinked(c, id, rtype);
    case _ =>
  }

  lemma OrphanByStep(c: Conn, s: Step, id: Id)
    requires Linked(c) && Enabled(c, s)
    ensures Orphan(Do(c, s), id) <==> Abandons(s, id) || (Orphan(c, id) && !Removes(c, s, id))
  {
    hide IndexOfId, IndexOfType, Without;
    LocksByStep(c, s, id);
    match s
    case DoBegin(x, rtype) =>
      BeginKeepsLinked(c, x, rtype);
    case DoReceive(m) => ReceiveKeepsLinked(c, m);
    case DoResume(x, rtype) => ResumeKeepsLinked(c, x, rtype);
    case _ =>
  }

  /** The caller that waits for `id` is cancelled. */
  predicate Abandons(s: Step, id: Id) { s.DoAbandon? && s.id == id }

  lemma LocksByStep(c: Conn, s: Step, id: Id)
    requires Linked(c) && Enabled(c, s)
    ensures InLock(Do(c, s), id) <==>
              (s.DoBegin? && s.id == id) || (InLock(c, id) && !((s.DoResume? || s.DoAbandon?) && s.id == id))
  {
    hide IndexOfId, IndexOfType, Without;
    var d := Do(c, s);
    if InLock(c, id) {
      var t :| t in c.locks && c.locks[t] == id;
      assert t in d.locks ==> InLock(d, id);
    }
    if s.DoBegin? { assert s.rtype in d.locks; }
  }

  /** Every step keeps the invariant except a cancelled caller: that one always breaks it,
      because it leaves its lock but not its entry. */
  lemma KeptIffNotAbandoned(c: Conn, s: Step)
    requires Inv(c) && Enabled(c, s)
    ensures Inv(Do(c, s)) <==> !s.DoAbandon?
  {
    hide Do, Linked, Orphan;
    StepKeepsLinked(c, s);
    forall id ensures Orphan(Do(c, s), id) <==> Abandons(s, id) { OrphanByStep(c, s, id); }
    if s.DoAbandon? { assert Orphan(Do(c, s), s.id); }
  }

  /** What that costs with a worker that does not echo ids: the next call of the same type
      waits in vain, because its reply is matched to the abandoned entry. */
  lemma AbandonedEntryStealsReply(a: Id, b: Id, rtype: string, body: nat)
    requires a != b
    ensures var run := [DoBegin(a, rtype), DoAbandon(a, rtype), DoBegin(b, rtype)];
            var c := Final(run); var reply := Msg(None, rtype, body);
      && EnabledRun(run)
      && Route(c, reply) == Discarded(a)
      && Receive(c, reply).futures[b] == Waiting
  {
    var run := [DoBegin(a, rtype), DoAbandon(a, rtype), DoBegin(b, rtype)];
    assert run[..3] == run && run[..2][..1] == run[..1] && run[..1][..0] == [] && run[..0] == [];
    assert Final(run[..1]) == Begin(INITIAL, a, rtype);
    assert Final(run[..2]) == Abandon(Final(run[..1]), a, rtype);
    assert Final(run) == Begin(Final(run[..2]), b, rtype);
    var c := Final(run);
    assert c.pending == [Pending(a, rtype), Pending(b, rtype)];
    assert Enabled(Final(run[..1]), run[1]) && Enabled(Final(run[..2]), run[2]);
  }

  // ----- runs -----

  function Final(run: seq<Step>): Conn {
    if run == [] then INITIAL else Do(Final(run[..|run| - 1]), run[|run| - 1])
  }

  ghost predicate EnabledRun(run: seq<Step>) {
    forall k :: 0 <= k < |run| ==> Enabled(Final(run[..k]), run[k])
  }

  /** No caller is cancelled from outside. */
  ghost predicate Patient(run: seq<Step>) {
    EnabledRun(run) && forall k :: 0 <= k < |run| ==> !run[k].DoAbandon?
  }

  lemma {:induction false} RunKeepsInv(run: seq<Step>)
    requires Patient(run)
    ensures Inv(Final(run))
  {
    if run != [] {
      var init := run[..|run| - 1];
      PatientPrefix(run);
      RunKeepsInv(init);
      KeptIffNotAbandoned(Final(init), run[|run| - 1]);
    }
  }

  lemma PatientPrefix(run: seq<Step>)
    requires run != [] && Patient(run)
    ensures Patient(run[..|run| - 1]) && Enabled(Final(run[..|run| - 1]), run[|run| - 1])
  {
    var init := run[..|run| - 1];
    assert forall k :: 0 <= k < |init| ==> init[..k] == run[..k];
  }

  lemma {:induction false} RunKeepsLinked(run: seq<Step>)
    requires EnabledRun(run)
    ensures Linked(Final(run))
  {
    hide Do, Enabled;
    if run != [] {
      EnabledPrefix(run);
      RunKeepsLinked(run[..|run| - 1]);
      StepKeepsLinked(Final(run[..|run| - 1]), run[|run| - 1]);
    }
  }

  /** The caller was cancelled at some step, and the entry was not removed since. */
  ghost predicate OrphanedIn(run: seq<Step>, id: Id) {
    exists k :: 0 <= k < |run| && Abandons(run[k], id) && NotRemovedAfter(run, k, id)
  }

  ghost predicate NotRemovedAfter(run: seq<Step>, k: int, id: Id) {
    forall j :: 0 <= j && k < j < |run| ==> !RemovesAt(run, j, id)
  }

  ghost predicate RemovesAt(run: seq<Step>, j: int, id: Id)
    requires 0 <= j < |run|
  {
    Removes(Final(run[..j]), run[j], id)
  }

  lemma OrphanedInStep(run: seq<Step>, id: Id)
    requires run != []
    ensures var init, last := run[..|run| - 1], run[|run| - 1];
      OrphanedIn(run, id) <==> Abandons(last, id) || (OrphanedIn(init, id) && !Removes(Final(init), last, id))
  {
    hide Final, Removes;
    var n := |run| - 1;
    var init := run[..n];
    assert forall k :: 0 <= k < n ==> init[..k] == run[..k] && init[k] == run[k];
    assert forall j :: 0 <= j < n ==> (RemovesAt(init, j, id) <==> RemovesAt(run, j, id));
    if OrphanedIn(init, id) && !RemovesAt(run, n, id) {
      var k :| 0 <= k < n && Abandons(init[k], id) && NotRemovedAfter(init, k, id);
      assert Abandons(run[k], id) && NotRemovedAfter(run, k, id);
    }
    if Abandons(run[n], id) { assert NotRemovedAfter(run, n, id); }
    if OrphanedIn(run, id) {
      var k :| 0 <= k < |run| && Abandons(run[k], id) && NotRemovedAfter(run, k, id);
      if k < n { assert Abandons(init[k], id) && NotRemovedAfter(init, k, id) && !RemovesAt(run, n, id); }
    }
  }

  /** Over all runs: an entry without its call is pending exactly when the caller was cancelled
      while it waited, no message was matched to the entry since, and the connection was not
      closed. */
  lemma {:induction false} OrphanIff(run: seq<Step>, id: Id)
    requires EnabledRun(run)
    ensures Orphan(Final(run), id) <==> OrphanedIn(run, id)
  {
    hide Do, Enabled, Removes, Abandons, Linked;
    if run != [] {
      hide Orphan, OrphanedIn;
      EnabledPrefix(run);
      RunKeepsLinked(run[..|run| - 1]);
      OrphanIff(run[..|run| - 1], id);
      OrphanByStep(Final(run[..|run| - 1]), run[|run| - 1], id);
      OrphanedInStep(run, id);
    }
  }

  /** Step k of the run hands its message to the future of request `id`. */
  ghost predicate Completes(run: seq<Step>, k: int, id: Id) {
    0 <= k < |run| && run[k].DoReceive? && Route(Final(run[..k]), run[k].m) == ToFuture(id)
  }

  ghost predicate BeginsAs(run: seq<Step>, k: int, id: Id, rtype: string) {
    0 <= k < |run| && run[k] == DoBegin(id, rtype)
  }

  /** Some message of the run carried an id. */
  ghost predicate Echoed(run: seq<Step>) {
    exists k :: 0 <= k < |run| && run[k].DoReceive? && run[k].m.reqId.Some?
  }

  lemma {:induction false} EchoesIffEchoed(run: seq<Step>)
    ensures Final(run).echoes <==> Echoed(run)
  {
    if run != [] {
      var init, last := run[..|run| - 1], run[|run| - 1];
      EchoesIffEchoed(init);
      if Echoed(init) {
        var k :| 0 <= k < |init| && init[k].DoReceive? && init[k].m.reqId.Some?;
        assert run[k] == init[k];
      }
      if Echoed(run) && !(last.DoReceive? && last.m.reqId.Some?) {
        var k :| 0 <= k < |run| && run[k].DoReceive? && run[k].m.reqId.Some?;
        assert init[k] == run[k];
      }
    }
  }

  /** A step makes a future done exactly when it hands it a message. */
  lemma DoneByStep(c: Conn, s: Step, id: Id, m: Msg)
    requires Enabled(c, s)
    ensures DoneWith(Do(c, s), id, m) <==> DoneWith(c, id, m) || (s == DoReceive(m) && Route(c, m) == ToFuture(id))
  {
    hide IndexOfId, IndexOfType, Without;
    match s {
      case DoReceive(got) =>
        if Route(c, got).ToFuture? { assert c.futures[Route(c, got).id] == Waiting; }
      case _ =>
    }
  }

  ghost predicate DoneWith(c: Conn, id: Id, m: Msg) {
    id in c.futures && c.futures[id] == Done(m)
  }

  ghost predicate CompletedBy(run: seq<Step>, id: Id, m: Msg) {
    exists k :: Completes(run, k, id) && run[k].m == m
  }

  lemma CompletedByStep(run: seq<Step>, id: Id, m: Msg)
    requires run != []
    ensures var init, last := run[..|run| - 1], run[|run| - 1];
      CompletedBy(run, id, m) <==>
        CompletedBy(init, id, m) || (last == DoReceive(m) && Route(Final(init), m) == ToFuture(id))
  {
    hide Route, Final;
    var n := |run| - 1;
    var init, last := run[..n], run[n];
    assert forall k :: 0 <= k < n ==> init[..k] == run[..k] && init[k] == run[k];
    assert forall k :: 0 <= k < n ==> (Completes(init, k, id) <==> Completes(run, k, id));
    if CompletedBy(init, id, m) {
      var k :| Completes(init, k, id) && init[k].m == m;
      assert Completes(run, k, id);
    }
    if last == DoReceive(m) && Route(Final(init), m) == ToFuture(id) {
      assert Completes(run, n, id);
    }
    if CompletedBy(run, id, m) {
      var k :| Completes(run, k, id) && run[k].m == m;
      if k < n { assert Completes(init, k, id); }
    }
  }

  /** A future is done with exactly the message that some step handed to it. */
  lemma {:induction false} DoneIffCompleted(run: seq<Step>, id: Id, m: Msg)
    requires EnabledRun(run)
    ensures DoneWith(Final(run), id, m) <==> CompletedBy(run, id, m)
  {
    hide Do, Route, Completes, Enabled;
    if run != [] {
      EnabledPrefix(run);
      DoneIffCompleted(run[..|run| - 1], id, m);
      CompletedByStep(run, id, m);
      DoneByStep(Final(run[..|run| - 1]), run[|run| - 1], id, m);
    } else {
      NothingYet(run, id, m);
    }
  }

  lemma NothingYet(run: seq<Step>, id: Id, m: Msg)
    requires run == []
    ensures !DoneWith(Final(run), id, m) && !CompletedBy(run, id, m)
  {
  }

  lemma EnabledPrefix(run: seq<Step>)
    requires run != [] && EnabledRun(run)
    ensures EnabledRun(run[..|run| - 1]) && Enabled(Final(run[..|run| - 1]), run[|run| - 1])
  {
    hide Final, Enabled;
    var init := run[..|run| - 1];
    assert forall k :: 0 <= k < |init| ==> init[..k] == run[..k] && init[k] == run[k];
  }

  // ----- who gets a message -----

  lemma IndexOfTypeAt(c: Conn, id: Id, rtype: string)
    requires Inv(c)
    ensures Pending(id, rtype) in c.pending <==>
            var k := IndexOfType(c.pending, rtype); k < |c.pending| && c.pending[k].id == id
  {
    OnePerType(c);
  }

  /** A message completes request `id` exactly when the request still waits and the message
      carries its id, or carries none and has its type while no message ever carried one. */
  lemma CompletesIff(c: Conn, m: Msg, id: Id)
    requires Inv(c)
    ensures Route(c, m) == ToFuture(id) <==>
            && id in c.futures && c.futures[id] == Waiting
            && (m.reqId == Some(id) || (m.reqId == None && !c.echoes && Pending(id, m.mtype) in c.pending))
  {
    IndexOfTypeAt(c, id, m.mtype);
  }

  /** The handler gets exactly the untagged messages that answer nothing. */
  lemma HandledIff(c: Conn, m: Msg)
    requires Inv(c)
    ensures Route(c, m) == ToHandler <==>
            m.reqId == None && (c.echoes || forall id :: Pending(id, m.mtype) !in c.pending)
  {
    var k := IndexOfType(c.pending, m.mtype);
    if k < |c.pending| { assert c.pending[k] == Pending(c.pending[k].id, m.mtype); }
  }

  /** Once every call has left its lock, only entries of cancelled callers are pending. */
  lemma QuietTableIsEmpty(run: seq<Step>)
    requires EnabledRun(run) && Final(run).locks == map[]
    ensures forall id :: Has(Final(run).pending, id) <==> OrphanedIn(run, id)
    ensures Patient(run) ==> Final(run).pending == []
  {
    hide Final, Enabled;
    var c := Final(run);
    forall id ensures Has(c.pending, id) <==> OrphanedIn(run, id) { OrphanIff(run, id); }
    if c.pending != [] {
      var id := c.pending[0].id;
      FoundAt(c.pending, 0);
      var k :| 0 <= k < |run| && Abandons(run[k], id) && NotRemovedAfter(run, k, id);
      assert run[k].DoAbandon?;
    }
  }

  /** A call that times out and resumes is gone without a trace: its entry and its lock are
      free, the other entries stay. */
  lemma TimedOutLeavesNothing(c: Conn, id: Id, rtype: string)
    requires Inv(c) && rtype in c.locks && c.locks[rtype] == id && id in c.futures && c.futures[id] == Waiting
    ensures var d := Resume(TimeOut(c, id), id, rtype);
      && Enabled(TimeOut(c, id), DoResume(id, rtype))
      && d.futures[id] == Cancelled && rtype !in d.locks
      && (forall p :: p in d.pending <==> p in c.pending && p.id != id)
  {
    hide IndexOfId, Without;
    OnePerType(c);
    MembersWithout(c.pending, IndexOfId(c.pending, id));
  }

  lemma MembersWithout(pending: seq<Pending>, k: nat)
    requires k < |pending| && forall i, j :: 0 <= i < j < |pending| ==> pending[i].id != pending[j].id
    ensures forall p :: p in Without(pending, k) <==> p in pending && p.id != pending[k].id
  {
    var rest := Without(pending, k);
    assert forall j :: 0 <= j < |rest| ==> rest[j] == pending[if j < k then j else j + 1];
    forall p | p in pending && p.id != pending[k].id ensures p in rest {
      var j :| 0 <= j < |pending| && pending[j] == p;
      assert rest[if j < k then j else j - 1] == p;
    }
  }

  lemma PatientUpTo(run: seq<Step>, k: nat)
    requires Patient(run) && k <= |run|
    ensures Patient(run[..k])
  {
    assert forall j :: 0 <= j < k ==> run[..k][..j] == run[..j];
  }

  /** No request is completed twice. */
  lemma CompletesOnce(run: seq<Step>, j: nat, k: nat, id: Id)
    requires EnabledRun(run) && Completes(run, j, id) && Completes(run, k, id)
    ensures j == k
  {
    var first, last := if j < k then j else k, if j < k then k else j;
    var before := run[..last];
    assert forall i :: 0 <= i < last ==> before[..i] == run[..i];
    DoneIffCompleted(before, id, run[first].m);
    assert j != k ==> Completes(before, first, id);
  }

  // ----- what a request is completed with -----

  lemma {:induction false} PendingWasBegun(run: seq<Step>, p: Pending)
    requires EnabledRun(run) && p in Final(run).pending
    ensures exists j :: BeginsAs(run, j, p.id, p.rtype)
  {
    hide IndexOfId, IndexOfType, Enabled;
    if run != [] {
      var n := |run| - 1;
      EnabledPrefix(run);
      if run[n] == DoBegin(p.id, p.rtype) {
        assert BeginsAs(run, n, p.id, p.rtype);
      } else {
        PendingWasBegun(run[..n], p);
        var j :| BeginsAs(run[..n], j, p.id, p.rtype);
        assert BeginsAs(run, j, p.id, p.rtype);
      }
    }
  }

  /** What completes a request carries its id; or it is untagged, has the type the request
      was begun with, and nothing the worker sent before carried an id. */
  lemma CompletedByItsReply(run: seq<Step>, k: nat, id: Id)
    requires Patient(run) && Completes(run, k, id)
    ensures var m := run[k].m;
      || m.reqId == Some(id)
      || (m.reqId == None && !Echoed(run[..k]) && exists j :: BeginsAs(run[..k], j, id, m.mtype))
  {
    var c, m := Final(run[..k]), run[k].m;
    PatientUpTo(run, k);
    RunKeepsInv(run[..k]);
    CompletesIff(c, m, id);
    EchoesIffEchoed(run[..k]);
    if m.reqId == None { PendingWasBegun(run[..k], Pending(id, m.mtype)); }
  }

  /** After the first echo only a reply that carries the id completes a request. */
  lemma AfterEchoOnlyTagged(run: seq<Step>, j: nat, k: nat, id: Id)
    requires Patient(run) && Completes(run, k, id)
    requires j < k && run[j].DoReceive? && run[j].m.reqId.Some?
    ensures run[k].m.reqId == Some(id)
  {
    CompletedByItsReply(run, k, id);
    assert run[..k][j] == run[j];
  }

  /** Before the first echo an unsolicited push can take the place of a reply, even from a
      worker that would have echoed the id. */
  lemma PushBeforeFirstEcho(id: Id, rtype: string, body: nat)
    ensures Route(Begin(INITIAL, id, rtype), Msg(None, rtype, body)) == ToFuture(id)
  {
    assert Begin(INITIAL, id, rtype).pending == [Pending(id, rtype)];
  }

  lemma StepKeepsSettled(c: Conn, s: Step, id: Id)
    requires Enabled(c, s) && id in c.futures && c.futures[id] != Waiting
    ensures id in Do(c, s).futures && Do(c, s).futures[id] == c.futures[id]
  {
    hide IndexOfId, IndexOfType, Without;
  }

  /** A settled future is settled for good. */
  lemma {:induction false} SettledStays(run: seq<Step>, j: nat, id: Id)
    requires EnabledRun(run) && j <= |run|
    requires id in Final(run[..j]).futures && Final(run[..j]).futures[id] != Waiting
    ensures id in Final(run).futures && Final(run).futures[id] == Final(run[..j]).futures[id]
  {
    hide Do, Enabled, EnabledRun;
    if j == |run| {
      assert run[..j] == run;
    } else {
      var init := run[..|run| - 1];
      assert init[..j] == run[..j];
      EnabledPrefix(run);
      SettledStays(init, j, id);
      StepKeepsSettled(Final(init), run[|run| - 1], id);
    }
  }

  lemma EnabledUpTo(run: seq<Step>, k: nat)
    requires EnabledRun(run) && k <= |run|
    ensures EnabledRun(run[..k])
  {
    hide Final, Enabled;
    assert forall i :: 0 <= i < k ==> run[..k][..i] == run[..i];
  }

  lemma FinalNext(run: seq<Step>, k: nat)
    requires k < |run|
    ensures Final(run[..k + 1]) == Do(Final(run[..k]), run[k])
  {
    hide Do;
    assert run[..k + 1][..k] == run[..k];
  }

  lemma LateReplyIsInert(c: Conn, m: Msg, id: Id)
    requires m.reqId == Some(id) && id in c.futures && c.futures[id] == Cancelled
    ensures !Route(c, m).ToFuture? && !Route(c, m).ToHandler? && Receive(c, m).futures == c.futures
  {
  }

  predicate GivenUp(c: Conn, id: Id) { id in c.futures && c.futures[id] == Cancelled }

  /** A reply that arrives after its request timed out or was cancelled completes nothing. */
  lemma LateReplyCompletesNothing(run: seq<Step>, j: nat, k: nat, id: Id)
    requires EnabledRun(run) && j <= k < |run| && run[k].DoReceive? && run[k].m.reqId == Some(id)
    ensures GivenUp(Final(run[..j]), id) ==>
      && !Route(Final(run[..k]), run[k].m).ToFuture? && !Route(Final(run[..k]), run[k].m).ToHandler?
      && Final(run[..k + 1]).futures == Final(run[..k]).futures
  {
    hide Route, Receive, Enabled, Final, EnabledRun;
    if GivenUp(Final(run[..j]), id) {
      EnabledUpTo(run, k);
      assert run[..k][..j] == run[..j];
      SettledStays(run[..k], j, id);
      LateReplyIsInert(Final(run[..k]), run[k].m, id);
      FinalNext(run, k);
    }
  }

  // ----- the connection object -----

  class WorkerConnection {
    var pending: seq<Pending>
    var supportsReqId: bool
    var requestLocks: map<string, Id>
    var futures: map<Id, Future>

    constructor ()
      ensures View() == INITIAL
    {
      pending, supportsReqId, requestLocks, futures := [], false, map[], map[];
    }

    ghost function View(): Conn
      reads this
    {
      Conn(pending, supportsReqId, requestLocks, futures)
    }

    /** From entering the lock up to waiting for the reply; `id` is the new uuid. */
    method BeginRequest(id: Id, rtype: string)
      requires Enabled(View(), DoBegin(id, rtype))
      modifies this
      ensures View() == Begin(old(View()), id, rtype)
    {
      requestLocks := requestLocks[rtype := id];
      futures := futures[id := Waiting];
      pending := pending + [Pending(id, rtype)];
    }

    method FireTimeout(id: Id)
      modifies this
      ensures View() == TimeOut(old(View()), id)
    {
      if id in futures && futures[id] == Waiting { futures := futures[id := Cancelled]; }
    }

    /** The rest of `request` once its future is settled. */
    method EndRequest(id: Id, rtype: string) returns (reply: Option<Msg>)
      requires Enabled(View(), DoResume(id, rtype))
      modifies this
      ensures View() == Resume(old(View()), id, rtype)
      ensures forall m :: reply == Some(m) <==> DoneWith(old(View()), id, m)
    {
      if futures[id] == Cancelled {
        var k := PositionOf(id);
        Drop(k);
        reply := None;
      } else {
        reply := Some(futures[id].reply);
      }
      requestLocks := requestLocks - {rtype};
    }

    method PositionOf(id: Id) returns (k: nat)
      ensures k == IndexOfId(pending, id)
    {
      k := 0;
      while k < |pending| && pending[k].id != id
        invariant k <= |pending|
        invariant forall j :: 0 <= j < k ==> pending[j].id != id
      {
        k := k + 1;
      }
    }

    method PositionOfType(rtype: string) returns (k: nat)
      ensures k == IndexOfType(pending, rtype)
    {
      k := 0;
      while k < |pending| && pending[k].rtype != rtype
        invariant k <= |pending|
        invariant forall j :: 0 <= j < k ==> pending[j].rtype != rtype
      {
        k := k + 1;
      }
    }

    method Drop(k: nat)
      modifies this`pending
      ensures pending == Without(old(pending), k)
    {
      if k < |pending| { pending := pending[..k] + pending[k + 1..]; }
    }

    method SetResult(id: Id, m: Msg) returns (done: bool)
      modifies this`futures
      ensures done == (id in old(futures) && old(futures)[id] == Waiting)
      ensures futures == if done then old(futures)[id := Done(m)] else old(futures)
    {
      done := id in futures && futures[id] == Waiting;
      if done { futures := futures[id := Done(m)]; }
    }

    /** One turn of the read loop; `to` says where the message went. */
    method ReadOne(m: Msg) returns (to: Destination)
      modifies this
      ensures View() == Receive(old(View()), m)
      ensures to == Route(old(View()), m)
    {
      if m.reqId.Some? {
        supportsReqId := true;
        var k := PositionOf(m.reqId.value);
        if k == |pending| { return Late; }
        Drop(k);
        var done := SetResult(m.reqId.value, m);
        return if done then ToFuture(m.reqId.value) else Discarded(m.reqId.value);
      }
      if !supportsReqId {
        var k := PositionOfType(m.mtype);
        if k < |pending| {
          var id := pending[k].id;
          Drop(k);
          var done := SetResult(id, m);
          return if done then ToFuture(id) else Discarded(id);
        }
      }
      return ToHandler;
    }

    /** Cancels every future that still waits and forgets the table. */
    method Shut()
      modifies this
      ensures View() == Close(old(View()))
    {
      var k := 0;
      while k < |pending|
        invariant k <= |pending|
        invariant unchanged(`pending) && unchanged(`supportsReqId) && unchanged(`requestLocks)
        invariant futures.Keys == old(futures).Keys
        invariant forall id :: id in futures ==>
          futures[id] ==
            if old(futures)[id] == Waiting && IndexOfId(pending, id) < k then Cancelled else old(futures)[id]
      {
        var id := pending[k].id;
        if id in futures && futures[id] == Waiting { futures := futures[id := Cancelled]; }
        k := k + 1;
      }
      pending := [];
    }
  }
}
