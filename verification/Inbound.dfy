/** Pairing of control commands with the data sockets a worker dials back
    (hub/src/workers/inbound.py).

    `open_session` sends its command inside the control's write lock and then waits with a
    timeout; a step is what runs between two awaits. */
module Inbound {
  import opened Wrappers

  type Sid = string
  type WorkerId = string
  type Socket = nat

  datatype Waiter = Open | Paired(ws: Socket) | Cancelled

  datatype Phase = Sending | Waiting | Over

  /** One call of `open_session`: the worker, the control socket it writes to, how far it
      is, and the future that its entry in `waiters` points to. */
  datatype Call = Call(worker: WorkerId, control: Socket, phase: Phase, waiter: Waiter)

  datatype Registry = Registry(controls: map<WorkerId, Socket>, waiters: set<Sid>, calls: map<Sid, Call>)

  const EMPTY := Registry(map[], {}, map[])

  // ----- steps -----

  function RegisterControl(r: Registry, w: WorkerId, ws: Socket): Registry {
    r.(controls := r.controls[w := ws])
  }

  function DropControl(r: Registry, w: WorkerId, ws: Option<Socket>): Registry {
    if w !in r.controls || (ws.Some? && r.controls[w] != ws.value) then r
    else r.(controls := r.controls - {w})
  }

  /** The first part of `open_session`; without a control it raises at once. */
  function OpenSession(r: Registry, w: WorkerId, sid: Sid): Registry {
    if w !in r.controls then r
    else r.(waiters := r.waiters + {sid}, calls := r.calls[sid := Call(w, r.controls[w], Sending, Open)])
  }

  function Advance(r: Registry, sid: Sid, phase: Phase): Registry
    requires sid in r.calls
  {
    r.(calls := r.calls[sid := r.calls[sid].(phase := phase)])
  }

  function Sent(r: Registry, sid: Sid): Registry
    requires sid in r.calls
  {
    Advance(r, sid, Waiting)
  }

  /** The send raised: the entry goes, and the control if it still is the broken one. */
  function SendFailed(r: Registry, sid: Sid): Registry
    requires sid in r.calls
  {
    DropControl(Advance(r.(waiters := r.waiters - {sid}), sid, Over), r.calls[sid].worker, Some(r.calls[sid].control))
  }

  function TimerFires(r: Registry, sid: Sid): Registry
    requires sid in r.calls
  {
    if r.calls[sid].waiter != Open then r
    else r.(calls := r.calls[sid := r.calls[sid].(waiter := Cancelled)])
  }

  /** The call returns its socket, or removes its entry and raises the timeout. */
  function Resumed(r: Registry, sid: Sid): Registry
    requires sid in r.calls
  {
    var left := Advance(r, sid, Over);
    if r.calls[sid].waiter == Cancelled then left.(waiters := left.waiters - {sid}) else left
  }

  /** The task that awaits `open_session` is cancelled: neither handler runs, so the entry
      stays.  A future that is being awaited is cancelled with it. */
  function Abandon(r: Registry, sid: Sid): Registry
    requires sid in r.calls
  {
    var call := r.calls[sid];
    var waiter := if call.phase == Waiting && call.waiter == Open then Cancelled else call.waiter;
    r.(calls := r.calls[sid := call.(phase := Over, waiter := waiter)])
  }

  /** Whether a dial is paired; the endpoint closes the socket otherwise. */
  predicate Accepts(r: Registry, sid: Sid) {
    sid in r.waiters && sid in r.calls && r.calls[sid].waiter == Open
  }

  function RegisterData(r: Registry, sid: Sid, ws: Socket): Registry {
    var left := r.(waiters := r.waiters - {sid});
    if Accepts(r, sid) then left.(calls := r.calls[sid := r.calls[sid].(waiter := Paired(ws))]) else left
  }

  datatype Step =
    | DoRegisterControl(w: WorkerId, ws: Socket)
    | DoDropControl(w: WorkerId, only: Option<Socket>)
    | DoOpen(w: WorkerId, sid: Sid)
    | DoSent(sid: Sid)
    | DoSendFailed(sid: Sid)
    | DoTimer(sid: Sid)
    | DoResume(sid: Sid)
    | DoAbandon(sid: Sid)
    | DoDial(sid: Sid, ws: Socket)

  /** Session ids are new uuids; a call goes from sending to waiting to over. */
  predicate Enabled(r: Registry, step: Step) {
    match step
    case DoOpen(_, sid) => sid !in r.calls
    case DoSent(sid) => sid in r.calls && r.calls[sid].phase == Sending
    case DoSendFailed(sid) => sid in r.calls && r.calls[sid].phase == Sending
    case DoTimer(sid) => sid in r.calls && r.calls[sid].phase == Waiting
    case DoResume(sid) => sid in r.calls && r.calls[sid].phase == Waiting && r.calls[sid].waiter != Open
    case DoAbandon(sid) => sid in r.calls && r.calls[sid].phase != Over
    case _ => true
  }

  /** A step that is not possible does not happen. */
  function Do(r: Registry, step: Step): Registry {
    if !Enabled(r, step) then r else
    match step
    case DoRegisterControl(w, ws) => RegisterControl(r, w, ws)
    case DoDropControl(w, only) => DropControl(r, w, only)
    case DoOpen(w, sid) => OpenSession(r, w, sid)
    case DoSent(sid) => Sent(r, sid)
    case DoSendFailed(sid) => SendFailed(r, sid)
    case DoTimer(sid) => TimerFires(r, sid)
    case DoResume(sid) => Resumed(r, sid)
    case DoAbandon(sid) => Abandon(r, sid)
    case DoDial(sid, ws) => RegisterData(r, sid, ws)
  }

  /** Entries belong to calls without a socket, and a call under way that waits has one. */
  ghost predicate Linked(r: Registry) {
    && (forall sid :: sid in r.waiters ==> sid in r.calls && !r.calls[sid].waiter.Paired?)
    && (forall sid :: sid in r.calls && r.calls[sid].waiter == Open && r.calls[sid].phase != Over ==> sid in r.waiters)
    && (forall sid :: sid in r.calls && r.calls[sid].waiter == Cancelled ==> r.calls[sid].phase != Sending)
  }

  /** An entry whose call is over. */
  predicate Orphan(r: Registry, sid: Sid) { sid in r.waiters && sid in r.calls && r.calls[sid].phase == Over }

  ghost predicate Inv(r: Registry) { Linked(r) && forall sid :: !Orphan(r, sid) }

  /** The step cancels the caller of `sid` while its entry is there. */
  predicate Orphans(r: Registry, step: Step, sid: Sid) {
    step == DoAbandon(sid) && Enabled(r, step) && sid in r.waiters
  }

  lemma StepKeepsLinked(r: Registry, step: Step)
    requires Linked(r)
    ensures Linked(Do(r, step))
  {
  }

  lemma OrphanByStep(r: Registry, step: Step, sid: Sid)
    requires Linked(r)
    ensures Orphan(Do(r, step), sid) <==>
            Orphans(r, step, sid) || (Orphan(r, sid) && !(step.DoDial? && step.sid == sid))
  {
  }

  /** Every step keeps the table free of orphans, except cancelling a caller that has an
      entry: that always leaves one. */
  lemma KeptIffNotAbandoned(r: Registry, step: Step)
    requires Inv(r)
    ensures Inv(Do(r, step)) <==> !(step.DoAbandon? && Orphans(r, step, step.sid))
  {
    StepKeepsLinked(r, step);
    forall sid ensures Orphan(Do(r, step), sid) <==> Orphans(r, step, sid) { OrphanByStep(r, step, sid); }
  }

  /** A dial is accepted exactly when nothing settled the future of its call and the call is
      under way, or was cancelled while it was still sending. */
  lemma AcceptsIff(r: Registry, sid: Sid)
    requires Linked(r)
    ensures Accepts(r, sid) <==>
            sid in r.calls && r.calls[sid].waiter == Open && (r.calls[sid].phase != Over || Orphan(r, sid))
  {
  }

  /** A call that waits can always time out, and then leaves no entry. */
  lemma TimeoutLeavesNoEntry(r: Registry, sid: Sid)
    requires Linked(r) && sid in r.calls && r.calls[sid].phase == Waiting && r.calls[sid].waiter == Open
    ensures var fired := Do(r, DoTimer(sid)); var done := Do(fired, DoResume(sid));
      Enabled(fired, DoResume(sid)) && done.calls[sid].phase == Over && done.waiters == r.waiters - {sid}
  {
  }

  /** The life of a call: what moves it from sending to waiting to over, and what settles its
      future, once and for all. */
  lemma CallByStep(r: Registry, step: Step, sid: Sid)
    requires sid in r.calls
    ensures sid in Do(r, step).calls
    ensures var c, d := r.calls[sid], Do(r, step).calls[sid];
      && d.worker == c.worker && d.control == c.control
      && d.phase == (match c.phase
                     case Sending =>
                       if step == DoSent(sid) then Waiting
                       else if step == DoSendFailed(sid) || step == DoAbandon(sid) then Over
                       else Sending
                     case Waiting =>
                       if step == DoAbandon(sid) || (step == DoResume(sid) && c.waiter != Open) then Over else Waiting
                     case Over => Over)
      && d.waiter == (if c.waiter != Open then c.waiter
                      else if step.DoDial? && step.sid == sid && sid in r.waiters then Paired(step.ws)
                      else if c.phase == Waiting && (step == DoTimer(sid) || step == DoAbandon(sid)) then Cancelled
                      else Open)
  {
  }

  /** A call comes about only by opening a session under a new id with a control there: it
      sends to that control, with an entry, and its future is open. */
  lemma CallBegins(r: Registry, step: Step, sid: Sid)
    requires sid !in r.calls
    ensures sid in Do(r, step).calls <==> step.DoOpen? && step.sid == sid && step.w in r.controls
    ensures sid in Do(r, step).calls ==>
              sid in Do(r, step).waiters
              && Do(r, step).calls[sid] == Call(step.w, r.controls[step.w], Sending, Open)
  {
  }

  // ----- runs -----

  function Final(run: seq<Step>): Registry {
    if run == [] then EMPTY else Do(Final(run[..|run| - 1]), run[|run| - 1])
  }

  lemma {:induction false} RunKeepsLinked(run: seq<Step>)
    ensures Linked(Final(run))
  {
    if run != [] {
      RunKeepsLinked(run[..|run| - 1]);
      StepKeepsLinked(Final(run[..|run| - 1]), run[|run| - 1]);
    }
  }

  lemma FinalNext(run: seq<Step>, k: nat)
    requires k < |run|
    ensures Final(run[..k + 1]) == Do(Final(run[..k]), run[k])
  {
    hide Do;
    assert run[..k + 1][..k] == run[..k];
  }

  /** Some step of the run orphaned the entry of `sid`, and no dial took it away since. */
  ghost predicate OrphanedIn(run: seq<Step>, sid: Sid) {
    exists k :: 0 <= k < |run| && OrphansAt(run, k, sid) && NoDialAfter(run, k, sid)
  }

  ghost predicate OrphansAt(run: seq<Step>, k: int, sid: Sid)
    requires 0 <= k < |run|
  {
    Orphans(Final(run[..k]), run[k], sid)
  }

  ghost predicate NoDialAfter(run: seq<Step>, k: int, sid: Sid) {
    forall j :: 0 <= j && k < j < |run| ==> !(run[j].DoDial? && run[j].sid == sid)
  }

  lemma OrphanedInStep(run: seq<Step>, sid: Sid)
    requires run != []
    ensures var init, last := run[..|run| - 1], run[|run| - 1];
      OrphanedIn(run, sid) <==>
        Orphans(Final(init), last, sid) || (OrphanedIn(init, sid) && !(last.DoDial? && last.sid == sid))
  {
    hide Final, Orphans;
    var n := |run| - 1;
    var init := run[..n];
    assert forall k :: 0 <= k < n ==> init[..k] == run[..k] && init[k] == run[k];
    assert forall k :: 0 <= k < n ==> (OrphansAt(init, k, sid) <==> OrphansAt(run, k, sid));
    if OrphanedIn(init, sid) && !(run[n].DoDial? && run[n].sid == sid) {
      var k :| 0 <= k < n && OrphansAt(init, k, sid) && NoDialAfter(init, k, sid);
      assert OrphansAt(run, k, sid) && NoDialAfter(run, k, sid);
    }
    if Orphans(Final(init), run[n], sid) { assert OrphansAt(run, n, sid) && NoDialAfter(run, n, sid); }
    if OrphanedIn(run, sid) {
      var k :| 0 <= k < |run| && OrphansAt(run, k, sid) && NoDialAfter(run, k, sid);
      if k < n { assert OrphansAt(init, k, sid) && NoDialAfter(init, k, sid) &&
          !(run[n].DoDial? && run[n].sid == sid); }
    }
  }

  /** Over every run, an entry whose call is over is there exactly when the caller was
      cancelled while it had one, and no dial for it came since. */
  lemma {:induction false} OrphanIff(run: seq<Step>, sid: Sid)
    ensures Orphan(Final(run), sid) <==> OrphanedIn(run, sid)
  {
    hide Do, Orphans, Linked;
    if run != [] {
      hide Orphan, OrphanedIn;
      RunKeepsLinked(run[..|run| - 1]);
      OrphanIff(run[..|run| - 1], sid);
      OrphanByStep(Final(run[..|run| - 1]), run[|run| - 1], sid);
      OrphanedInStep(run, sid);
    }
  }

  ghost predicate NobodyCancelled(run: seq<Step>) { forall k :: 0 <= k < |run| ==> !run[k].DoAbandon? }

  /** As long as no caller is cancelled, a call that is over leaves no entry. */
  lemma NoOrphans(run: seq<Step>, sid: Sid)
    requires NobodyCancelled(run) && sid in Final(run).calls && Final(run).calls[sid].phase == Over
    ensures sid !in Final(run).waiters
  {
    hide Final;
    OrphanIff(run, sid);
  }

  /** When no call is under way, the entries are exactly the orphans; so there is none if no
      caller was cancelled. */
  lemma QuietTableIsEmpty(run: seq<Step>)
    requires forall sid :: sid in Final(run).calls ==> Final(run).calls[sid].phase == Over
    ensures forall sid :: sid in Final(run).waiters <==> OrphanedIn(run, sid)
    ensures NobodyCancelled(run) ==> Final(run).waiters == {}
  {
    hide Final;
    RunKeepsLinked(run);
    forall sid ensures sid in Final(run).waiters <==> OrphanedIn(run, sid) { OrphanIff(run, sid); }
  }

  /** A caller cancelled while it sends leaves an entry, and the worker's dial is accepted for
      nobody: the call that holds the socket is over. */
  lemma AbandonedCallTakesASocket(w: WorkerId, control: Socket, sid: Sid, ws: Socket)
    ensures var run := [DoRegisterControl(w, control), DoOpen(w, sid), DoAbandon(sid)];
      && Orphan(Final(run), sid)
      && Accepts(Final(run), sid)
      && HasSocket(RegisterData(Final(run), sid, ws), sid, ws)
      && RegisterData(Final(run), sid, ws).calls[sid].phase == Over
  {
    var run := [DoRegisterControl(w, control), DoOpen(w, sid), DoAbandon(sid)];
    assert run[..2] == [run[0], run[1]] && run[..2][..1] == [run[0]] && [run[0]][..0] == [];
    var one := RegisterControl(EMPTY, w, control);
    assert Final([run[0]]) == one;
    assert Final(run[..2]) == OpenSession(one, w, sid);
  }

  // ----- each data socket has one taker -----

  ghost predicate HasSocket(r: Registry, sid: Sid, ws: Socket) {
    sid in r.calls && r.calls[sid].waiter == Paired(ws)
  }

  /** Step k pairs `ws` with the call `sid`. */
  ghost predicate PairsAt(run: seq<Step>, k: int, sid: Sid, ws: Socket) {
    0 <= k < |run| && run[k] == DoDial(sid, ws) && Accepts(Final(run[..k]), sid)
  }

  ghost predicate PairedIn(run: seq<Step>, sid: Sid, ws: Socket) {
    exists k :: PairsAt(run, k, sid, ws)
  }

  lemma PairedByStep(r: Registry, step: Step, sid: Sid, ws: Socket)
    ensures HasSocket(Do(r, step), sid, ws) <==> HasSocket(r, sid, ws) || (step == DoDial(sid, ws) && Accepts(r, sid))
  {
  }

  lemma PairedInStep(run: seq<Step>, sid: Sid, ws: Socket)
    requires run != []
    ensures var init, last := run[..|run| - 1], run[|run| - 1];
      PairedIn(run, sid, ws) <==> PairedIn(init, sid, ws) || (last == DoDial(sid, ws) && Accepts(Final(init), sid))
  {
    hide Final, Accepts;
    var n := |run| - 1;
    var init := run[..n];
    assert forall k :: 0 <= k < n ==> init[..k] == run[..k] && init[k] == run[k];
    assert forall k :: 0 <= k < n ==> (PairsAt(init, k, sid, ws) <==> PairsAt(run, k, sid, ws));
    if run[n] == DoDial(sid, ws) && Accepts(Final(init), sid) { assert PairsAt(run, n, sid, ws); }
    if PairedIn(run, sid, ws) {
      var k :| PairsAt(run, k, sid, ws);
      if k < n { assert PairsAt(init, k, sid, ws); }
    }
  }

  /** A call holds exactly the socket that some dial with its session id brought. */
  lemma {:induction false} SocketIffPaired(run: seq<Step>, sid: Sid, ws: Socket)
    ensures HasSocket(Final(run), sid, ws) <==> PairedIn(run, sid, ws)
  {
    hide Do, Accepts, PairsAt;
    if run == [] {
      NothingPaired(run, sid, ws);
    } else {
      SocketIffPaired(run[..|run| - 1], sid, ws);
      PairedByStep(Final(run[..|run| - 1]), run[|run| - 1], sid, ws);
      PairedInStep(run, sid, ws);
    }
  }

  lemma NothingPaired(run: seq<Step>, sid: Sid, ws: Socket)
    requires run == []
    ensures !PairedIn(run, sid, ws)
  {
  }

  /** No call is given a second socket. */
  lemma PairedOnce(run: seq<Step>, j: nat, k: nat, sid: Sid, v: Socket, w: Socket)
    requires j <= k && PairsAt(run, j, sid, v) && PairsAt(run, k, sid, w)
    ensures j == k && v == w
  {
    hide Do;
    var before := run[..k];
    assert forall i :: 0 <= i < k ==> before[..i] == run[..i];
    assert j < k ==> PairsAt(before, j, sid, v);
    SocketIffPaired(before, sid, v);
  }

  /** A socket that is dialled once is handed to one caller at most. */
  lemma OneTaker(run: seq<Step>, a: Sid, b: Sid, ws: Socket)
    requires forall j, k, x, y :: 0 <= j < k < |run| && run[j] == DoDial(x, ws) ==> run[k] != DoDial(y, ws)
    requires HasSocket(Final(run), a, ws) && HasSocket(Final(run), b, ws)
    ensures a == b
  {
    hide Final, Accepts, HasSocket;
    SocketIffPaired(run, a, ws);
    SocketIffPaired(run, b, ws);
    var j :| PairsAt(run, j, a, ws);
    var k :| PairsAt(run, k, b, ws);
  }

  // ----- late dials -----

  /** The call has its socket, gave up, or has no entry any more. */
  predicate Settled(r: Registry, sid: Sid) {
    sid in r.calls && (r.calls[sid].waiter != Open || sid !in r.waiters)
  }

  /** A call that is over is settled, unless its caller was cancelled with an entry. */
  lemma OverIsSettled(r: Registry, sid: Sid)
    requires Linked(r) && sid in r.calls && r.calls[sid].phase == Over && !Orphan(r, sid)
    ensures Settled(r, sid)
  {
  }

  lemma SettledByStep(r: Registry, step: Step, sid: Sid)
    requires Settled(r, sid)
    ensures Settled(Do(r, step), sid)
  {
  }

  lemma {:induction false} SettledStays(run: seq<Step>, j: nat, sid: Sid)
    requires j <= |run| && Settled(Final(run[..j]), sid)
    ensures Settled(Final(run), sid)
  {
    hide Do, Settled;
    if j == |run| {
      assert run[..j] == run;
    } else {
      var init := run[..|run| - 1];
      assert init[..j] == run[..j];
      SettledStays(init, j, sid);
      SettledByStep(Final(init), run[|run| - 1], sid);
    }
  }

  /** A dial that comes after the call settled, a repeated one included, is refused and
      changes no call. */
  lemma LateDialIsRefused(run: seq<Step>, j: nat, sid: Sid, ws: Socket)
    requires j <= |run| && Settled(Final(run[..j]), sid)
    ensures !Accepts(Final(run), sid) && RegisterData(Final(run), sid, ws).calls == Final(run).calls
  {
    hide Final;
    SettledStays(run, j, sid);
  }

  // ----- controls -----

  /** A step that may replace or remove the control socket `ws` of `w`: a new registration,
      a drop that names this socket or none, or a failing send on it. */
  predicate Touches(r: Registry, step: Step, w: WorkerId, ws: Socket) {
    match step
    case DoRegisterControl(v, _) => v == w
    case DoDropControl(v, only) => v == w && (only == None || only == Some(ws))
    case DoSendFailed(sid) => Enabled(r, step) && r.calls[sid].worker == w && r.calls[sid].control == ws
    case _ => false
  }

  ghost predicate Controls(r: Registry, w: WorkerId, ws: Socket) { w in r.controls && r.controls[w] == ws }

  /** Exactly these steps take a control away, unless they register the same socket again. */
  lemma ControlKeptIff(r: Registry, step: Step, w: WorkerId, ws: Socket)
    requires Controls(r, w, ws)
    ensures Controls(Do(r, step), w, ws) <==> !Touches(r, step, w, ws) || step == DoRegisterControl(w, ws)
  {
  }

  /** A newer control survives everything that is about an older one. */
  lemma {:induction false} NewerControlStays(run: seq<Step>, j: nat, w: WorkerId, ws: Socket)
    requires j <= |run| && Controls(Final(run[..j]), w, ws)
    requires forall k :: j <= k < |run| ==> !Touches(Final(run[..k]), run[k], w, ws)
    ensures Controls(Final(run), w, ws)
  {
    hide Do, Controls, Touches;
    if j == |run| {
      assert run[..j] == run;
    } else {
      var n := |run| - 1;
      var init := run[..n];
      assert forall k :: 0 <= k <= n ==> init[..k] == run[..k];
      assert forall k :: 0 <= k < n ==> init[k] == run[k];
      NewerControlStays(init, j, w, ws);
      assert !Touches(Final(init), run[n], w, ws);
      ControlKeptIff(Final(init), run[n], w, ws);
    }
  }

  // ----- the registry object -----

  class InboundRegistry {
    var controls: map<WorkerId, Socket>
    var waiters: set<Sid>
    var calls: map<Sid, Call>

    constructor ()
      ensures View() == EMPTY
    {
      controls, waiters, calls := map[], {}, map[];
    }

    ghost function View(): Registry
      reads this
    {
      Registry(controls, waiters, calls)
    }

    method Register(w: WorkerId, ws: Socket)
      modifies this
      ensures View() == RegisterControl(old(View()), w, ws)
    {
      controls := controls[w := ws];
    }

    method Drop(w: WorkerId, ws: Option<Socket>)
      modifies this
      ensures View() == DropControl(old(View()), w, ws)
    {
      if w !in controls { return; }
      if ws.Some? && controls[w] != ws.value { return; }
      controls := controls - {w};
    }

    /** `open_session` up to its send; false is the lookup error. */
    method Open(w: WorkerId, sid: Sid) returns (ok: bool)
      requires Enabled(View(), DoOpen(w, sid))
      modifies this
      ensures View() == Do(old(View()), DoOpen(w, sid))
      ensures ok == (w in old(controls))
    {
      if w !in controls { return false; }
      waiters := waiters + {sid};
      calls := calls[sid := Call(w, controls[w], Sending, Waiter.Open)];
      return true;
    }

    method HandleSendResult(sid: Sid, ok: bool)
      requires Enabled(View(), DoSent(sid))
      modifies this
      ensures View() == Do(old(View()), if ok then DoSent(sid) else DoSendFailed(sid))
    {
      var call := calls[sid];
      calls := calls[sid := call.(phase := if ok then Waiting else Over)];
      if !ok {
        waiters := waiters - {sid};
        Drop(call.worker, Some(call.control));
      }
    }

    method FireTimer(sid: Sid)
      requires Enabled(View(), DoTimer(sid))
      modifies this
      ensures View() == Do(old(View()), DoTimer(sid))
    {
      if calls[sid].waiter == Waiter.Open { calls := calls[sid := calls[sid].(waiter := Cancelled)]; }
    }

    /** The end of `open_session`: the data socket, or the timeout. */
    method Finish(sid: Sid) returns (ws: Option<Socket>)
      requires Enabled(View(), DoResume(sid))
      modifies this
      ensures View() == Do(old(View()), DoResume(sid))
      ensures forall s: Socket :: ws == Some(s) <==> HasSocket(old(View()), sid, s)
    {
      var call := calls[sid];
      calls := calls[sid := call.(phase := Over)];
      if call.waiter == Cancelled {
        waiters := waiters - {sid};
        return None;
      }
      return Some(call.waiter.ws);
    }

    /** The task that awaits `open_session` is cancelled. */
    method CancelCaller(sid: Sid)
      requires Enabled(View(), DoAbandon(sid))
      modifies this
      ensures View() == Do(old(View()), DoAbandon(sid))
    {
      var call := calls[sid];
      if call.phase == Waiting && call.waiter == Waiter.Open { call := call.(waiter := Cancelled); }
      calls := calls[sid := call.(phase := Over)];
    }

    /** `register_data`: false asks the endpoint to close the socket. */
    method RegisterData(sid: Sid, ws: Socket) returns (ok: bool)
      modifies this
      ensures View() == Do(old(View()), DoDial(sid, ws))
      ensures ok == Accepts(old(View()), sid)
      ensures ok ==> HasSocket(View(), sid, ws)
    {
      ok := sid in waiters && sid in calls && calls[sid].waiter == Waiter.Open;
      waiters := waiters - {sid};
      if ok { calls := calls[sid := calls[sid].(waiter := Paired(ws))]; }
    }
  }
}
