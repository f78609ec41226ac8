/** The session ownership protocol as a transition system: locks, parked sessions, the
    session each connection has on screen, and which session objects were started and
    stopped.  One step is one whole handler call (shared/worker_shared/sdk/manager.py) or
    one expiry task waking up (shared/worker_shared/sdk/registry.py).

    `SessionWorker` proves that the classes take exactly these steps. */
module SessionProtocol {
  import opened ParkingLot
  import opened Wrappers

  type Conn = string

  datatype Lock = Lock(conn: Conn, device: string)

  datatype Msg =
    | CwdNotFound
    | LockCollision
    | InternalError
    | SessionLocked(sid: Sid, holder: string)
    | LockRevoked(sid: Sid)
    | SessionStarted(sid: Sid)

  /** Where a session's output goes: to the connection showing it, to a connection that
      switched away from it, or nowhere. */
  datatype Route = Attached(conn: Conn) | Background(conn: Conn) | Muted

  datatype State = State(
    locks: map<Sid, Lock>,
    lot: Lot,
    current: map<Conn, Session>,
    started: set<Session>,
    stopped: set<Session>,
    route: map<Session, Route>,
    sent: seq<(Conn, Msg)>)

  const INITIAL := State(map[], EMPTY, map[], {}, {}, map[], [])

  /** The connection that makes a call, with its `email @ device` label. */
  datatype Client = Client(conn: Conn, device: string)

  ghost function Live(st: State): set<Session> { st.started - st.stopped }

  function Send(st: State, c: Conn, msg: Msg): State { st.(sent := st.sent + [(c, msg)]) }

  // ----- locks -----

  predicate HeldByOther(st: State, sid: Sid, c: Conn) {
    sid in st.locks && st.locks[sid].conn != c
  }

  /** Whether `try_acquire` turns the caller away: someone else holds the lock, the call
      does not insist, and it is not the same device coming back. */
  predicate Refused(st: State, sid: Sid, who: Client, force: bool) {
    HeldByOther(st, sid, who.conn) && !force && st.locks[sid].device != who.device
  }

  /** The revocation callback of connection `c`: tell the client, and stop its session if
      that is the one being taken over. */
  function Revoke(st: State, c: Conn, sid: Sid): State {
    var told := Send(st, c, LockRevoked(sid));
    if c in st.current && st.current[c].sid == sid then
      told.(current := st.current - {c}, stopped := st.stopped + {st.current[c]})
    else told
  }

  function Acquire(st: State, sid: Sid, who: Client, force: bool): State {
    if Refused(st, sid, who, force) then st
    else
      var st1 := if HeldByOther(st, sid, who.conn) then Revoke(st, st.locks[sid].conn, sid) else st;
      st1.(locks := st1.locks[sid := Lock(who.conn, who.device)])
  }

  function Release(st: State, sid: Sid, c: Conn): State {
    if sid in st.locks && st.locks[sid].conn == c then st.(locks := st.locks - {sid}) else st
  }

  function ReleaseAll(st: State, c: Conn): State {
    st.(locks := map sid | sid in st.locks && st.locks[sid].conn != c :: st.locks[sid])
  }

  // ----- handler calls -----

  function ParkAs(st: State, s: Session, route: Route, task: nat): State {
    st.(lot := Park(st.lot, s, task), route := st.route[s := route])
  }

  function ParkCurrent(st: State, c: Conn, task: nat): State {
    if c !in st.current then st
    else
      var s := st.current[c];
      var st1 := Release(ParkAs(st, s, Background(c), task), s.sid, c);
      st1.(current := st1.current - {c})
  }

  /** `session.start()`: it succeeds and the session goes on screen, or it raises and the
      message loop reports it. */
  function Start(st: State, c: Conn, s: Session, startOk: bool): State {
    if startOk then
      Send(st.(started := st.started + {s}, current := st.current[c := s], route := st.route[s := Attached(c)]),
           c, SessionStarted(s.sid))
    else Send(st, c, InternalError)
  }

  function NewSession(st: State, who: Client, cwdOk: bool, s: Session, startOk: bool, task: nat): State {
    if !cwdOk then Send(st, who.conn, CwdNotFound)
    else if Refused(st, s.sid, who, false) then Send(st, who.conn, LockCollision)
    else Start(ParkCurrent(Acquire(st, s.sid, who, false), who.conn, task), who.conn, s, startOk)
  }

  /** The caller reclaims the parked session `s`, already taken out of the table. */
  function Reattach(st: State, s: Session, who: Client, force: bool, task: nat): State {
    if Refused(st, s.sid, who, force) then
      Send(ParkAs(st, s, Muted, task), who.conn, SessionLocked(s.sid, st.locks[s.sid].device))
    else
      var st1 := ParkCurrent(Acquire(st, s.sid, who, force), who.conn, task);
      Send(st1.(current := st1.current[who.conn := s], route := st1.route[s := Attached(who.conn)]),
           who.conn, SessionStarted(s.sid))
  }

  function Resume(st: State, who: Client, cwdOk: bool, s: Session, force: bool, startOk: bool, task: nat): State {
    if !cwdOk then Send(st, who.conn, CwdNotFound)
    else
      var st1 := st.(lot := Take(st.lot, s.sid));
      if s.sid in st.lot.sessions then Reattach(st1, st.lot.sessions[s.sid], who, force, task)
      else if Refused(st1, s.sid, who, force) then
        Send(st1, who.conn, SessionLocked(s.sid, st1.locks[s.sid].device))
      else Start(ParkCurrent(Acquire(st1, s.sid, who, force), who.conn, task), who.conn, s, startOk)
  }

  function Disconnect(st: State, c: Conn, task: nat): State {
    var st1 := if c in st.current then ParkAs(st, st.current[c], Muted, task).(current := st.current - {c}) else st;
    ReleaseAll(st1, c)
  }

  function Expire(st: State, task: nat): State {
    var s := Fired(st.lot, task);
    st.(lot := Fire(st.lot, task), stopped := st.stopped + (if s.Some? then {s.value} else {}))
  }

  function Shutdown(st: State): State {
    st.(lot := StopAll(st.lot), stopped := st.stopped + st.lot.sessions.Values)
  }

  // ----- steps and runs -----

  /** `s` is the object that the call would create: for a new session its id is new too,
      for a resumed one it is the requested id. */
  datatype Step =
    | New(who: Client, cwdOk: bool, s: Session, startOk: bool, task: nat)
    | Resumed(who: Client, cwdOk: bool, s: Session, force: bool, startOk: bool, task: nat)
    | Left(conn: Conn, task: nat)
    | Woke(task: nat)
    | ShutDown

  function Do(st: State, step: Step): State {
    match step
    case New(who, cwdOk, s, startOk, task) => NewSession(st, who, cwdOk, s, startOk, task)
    case Resumed(who, cwdOk, s, force, startOk, task) => Resume(st, who, cwdOk, s, force, startOk, task)
    case Left(conn, task) => Disconnect(st, conn, task)
    case Woke(task) => Expire(st, task)
    case ShutDown => Shutdown(st)
  }

  /** A connection resuming the very session it has on screen. */
  predicate ResumesOwn(st: State, step: Step) {
    step.Resumed? && step.who.conn in st.current && st.current[step.who.conn].sid == step.s.sid
  }

  /** New objects are new, and so is the id of a new session. */
  predicate Fresh(st: State, step: Step) {
    && (step.New? || step.Resumed? ==> step.s !in st.started && step.task !in st.lot.armed)
    && (step.Left? ==> step.task !in st.lot.armed)
    && (step.New? ==> step.s.sid !in st.locks && step.s.sid !in st.lot.sessions)
  }

  ghost predicate Allowed(st: State, step: Step) {
    Fresh(st, step) && !ResumesOwn(st, step)
  }

  // ----- the invariant -----

  /** A connection's session is locked by that connection, parked sessions are unlocked, and
      the live objects are exactly the parked ones, the ones on screen, and `hand`, the one
      that the running call has in its hands. */
  ghost predicate InvWith(st: State, hand: set<Session>) {
    && Valid(st.lot)
    && ScreensLocked(st)
    && (forall sid :: sid in st.lot.sessions ==> sid !in st.locks)
    && st.stopped <= st.started
    && Accounted(st, hand)
    && RoutesFollow(st)
  }

  ghost predicate ScreensLocked(st: State) {
    forall c :: c in st.current ==> OwnsLock(st, c)
  }

  ghost predicate Accounted(st: State, hand: set<Session>) {
    forall s :: s in Live(st) <==> IsParked(st, s) || IsOnScreen(st, s) || s in hand
  }

  /** What is on screen is attached there; what is parked is not attached anywhere. */
  ghost predicate RoutesFollow(st: State) {
    && (forall c :: c in st.current ==> Get(st.route, st.current[c]) == Some(Attached(c)))
    && (forall sid :: sid in st.lot.sessions ==> InBackground(st, st.lot.sessions[sid]))
  }

  ghost predicate Inv(st: State) { InvWith(st, {}) }

  ghost predicate OwnsLock(st: State, c: Conn)
    requires c in st.current
  {
    st.current[c].sid in st.locks && st.locks[st.current[c].sid].conn == c
  }

  ghost predicate IsParked(st: State, s: Session) {
    Get(st.lot.sessions, s.sid) == Some(s)
  }

  ghost predicate IsOnScreen(st: State, s: Session) {
    exists c :: c in st.current && st.current[c] == s
  }

  ghost predicate InBackground(st: State, s: Session) {
    s in st.route && !st.route[s].Attached?
  }

  // ----- what each part of a call keeps -----

  lemma SendKeeps(st: State, c: Conn, msg: Msg, hand: set<Session>)
    requires InvWith(st, hand)
    ensures InvWith(Send(st, c, msg), hand)
  {
    var st' := Send(st, c, msg);
    assert Live(st') == Live(st);
    assert forall s :: IsOnScreen(st', s) <==> IsOnScreen(st, s);
  }

  lemma RevokeKeeps(st: State, c: Conn, sid: Sid, hand: set<Session>)
    requires InvWith(st, hand)
    requires forall s :: s in hand ==> s.sid !in st.locks
    ensures InvWith(Revoke(st, c, sid), hand)
    ensures c in Revoke(st, c, sid).current ==> st.current[c].sid != sid
  {
    var st' := Revoke(st, c, sid);
    if c in st.current && st.current[c].sid == sid {
      var gone := st.current[c];
      forall s ensures s in Live(st') <==> IsParked(st', s) || IsOnScreen(st', s) || s in hand {
        if IsOnScreen(st, s) {
          var d :| d in st.current && st.current[d] == s;
          assert d != c ==> d in st'.current && st'.current[d] == s;
        }
        if IsOnScreen(st', s) {
          var d :| d in st'.current && st'.current[d] == s;
          assert d in st.current && OwnsLock(st, d) && OwnsLock(st, c);
        }
        assert s == gone ==> IsOnScreen(st, s);
      }
    } else {
      SendKeeps(st, c, LockRevoked(sid), hand);
    }
  }

  /** A lock may go to whoever shows the session, or to anyone if nobody does. */
  lemma RelockKeeps(st: State, sid: Sid, lock: Lock, hand: set<Session>)
    requires InvWith(st, hand) && sid !in st.lot.sessions
    requires forall c :: c in st.current && st.current[c].sid == sid ==> c == lock.conn
    ensures InvWith(st.(locks := st.locks[sid := lock]), hand)
  {
    hide Valid;
    var st' := st.(locks := st.locks[sid := lock]);
    assert Live(st') == Live(st);
    assert forall s :: IsOnScreen(st', s) <==> IsOnScreen(st, s);
    forall c | c in st'.current ensures OwnsLock(st', c) { assert OwnsLock(st, c); }
  }

  lemma AcquireKeeps(st: State, sid: Sid, who: Client, force: bool, hand: set<Session>)
    requires InvWith(st, hand) && sid !in st.lot.sessions
    requires forall s :: s in hand ==> s.sid !in st.locks
    ensures InvWith(Acquire(st, sid, who, force), hand)
  {
    hide InvWith;
    Owners(st, hand);
    if !Refused(st, sid, who, force) {
      if HeldByOther(st, sid, who.conn) {
        RevokeKeeps(st, st.locks[sid].conn, sid, hand);
        Owners(Revoke(st, st.locks[sid].conn, sid), hand);
        RelockKeeps(Revoke(st, st.locks[sid].conn, sid), sid, Lock(who.conn, who.device), hand);
      } else {
        RelockKeeps(st, sid, Lock(who.conn, who.device), hand);
      }
    }
  }

  lemma Owners(st: State, hand: set<Session>)
    requires InvWith(st, hand)
    ensures forall c :: c in st.current ==> OwnsLock(st, c)
  {
  }

  /** Taking a session off its screen puts it in hand. */
  lemma OffScreenKeeps(st: State, c: Conn, hand: set<Session>)
    requires InvWith(st, hand) && c in st.current
    ensures InvWith(st.(current := st.current - {c}), hand + {st.current[c]})
    ensures !IsOnScreen(st.(current := st.current - {c}), st.current[c])
  {
    var s0, st' := st.current[c], st.(current := st.current - {c});
    assert OwnsLock(st, c);
    forall d | d in st'.current
      ensures OwnsLock(st', d) && Get(st'.route, st'.current[d]) == Some(Attached(d)) && st'.current[d] != s0
    {
      assert OwnsLock(st, d);
    }
    forall s ensures s in Live(st') <==> IsParked(st', s) || IsOnScreen(st', s) || s in hand + {s0} {
      if IsOnScreen(st, s) {
        var d :| d in st.current && st.current[d] == s;
        assert d != c ==> d in st'.current && st'.current[d] == s;
      }
      if IsOnScreen(st', s) {
        var d :| d in st'.current && st'.current[d] == s;
        assert d in st.current && st.current[d] == s;
      }
      assert s == s0 ==> IsOnScreen(st, s);
    }
  }

  /** Locks of a connection that shows nothing can go. */
  lemma UnlockKeeps(st: State, c: Conn, locks: map<Sid, Lock>, hand: set<Session>)
    requires InvWith(st, hand) && c !in st.current
    requires locks.Keys <= st.locks.Keys
    requires forall sid :: sid in st.locks && st.locks[sid].conn != c ==> Get(locks, sid) == Some(st.locks[sid])
    ensures InvWith(st.(locks := locks), hand)
  {
    var st' := st.(locks := locks);
    assert Live(st') == Live(st);
    forall d | d in st'.current ensures OwnsLock(st', d) { assert OwnsLock(st, d); }
    assert forall s :: IsOnScreen(st', s) <==> IsOnScreen(st, s);
  }

  lemma ParkAsAccounts(st: State, s0: Session, route: Route, task: nat, hand: set<Session>)
    requires Accounted(st, hand + {s0}) && s0 !in hand && s0.sid !in st.lot.sessions
    ensures Accounted(ParkAs(st, s0, route, task), hand)
  {
    var st' := ParkAs(st, s0, route, task);
    forall s ensures s in Live(st') <==> IsParked(st', s) || IsOnScreen(st', s) || s in hand {
      assert IsOnScreen(st', s) <==> IsOnScreen(st, s);
      assert IsParked(st', s) <==> IsParked(st, s) || s == s0;
      assert s in Live(st) <==> IsParked(st, s) || IsOnScreen(st, s) || s in hand + {s0};
    }
  }

  lemma ParkAsRoutes(st: State, s0: Session, route: Route, task: nat)
    requires RoutesFollow(st) && !IsOnScreen(st, s0) && !route.Attached?
    ensures RoutesFollow(ParkAs(st, s0, route, task))
  {
    var st' := ParkAs(st, s0, route, task);
    forall d | d in st'.current ensures Get(st'.route, st'.current[d]) == Some(Attached(d)) {
      assert IsOnScreen(st, st.current[d]);
    }
    forall sid | sid in st'.lot.sessions ensures InBackground(st', st'.lot.sessions[sid]) {
      if sid != s0.sid { assert InBackground(st, st.lot.sessions[sid]); }
    }
  }

  /** Parking the session in hand, once its id is unlocked. */
  lemma ParkAsKeeps(st: State, s0: Session, route: Route, task: nat, hand: set<Session>)
    requires InvWith(st, hand + {s0}) && s0 !in hand && !IsOnScreen(st, s0)
    requires s0.sid !in st.locks && s0.sid !in st.lot.sessions && task !in st.lot.armed && !route.Attached?
    ensures InvWith(ParkAs(st, s0, route, task), hand)
  {
    hide Accounted, RoutesFollow, Valid;
    ParkAsAccounts(st, s0, route, task, hand);
    ParkAsRoutes(st, s0, route, task);
    ParkKeepsValid(st.lot, s0, task);
    forall d | d in st.current ensures OwnsLock(ParkAs(st, s0, route, task), d) { assert OwnsLock(st, d); }
  }

  lemma ParkCurrentKeeps(st: State, c: Conn, task: nat, hand: set<Session>)
    requires InvWith(st, hand) && task !in st.lot.armed
    requires forall s :: s in hand ==> c in st.current ==> s.sid != st.current[c].sid
    ensures InvWith(ParkCurrent(st, c, task), hand)
    ensures c !in ParkCurrent(st, c, task).current
  {
    if c in st.current {
      var s0 := st.current[c];
      assert OwnsLock(st, c);
      OffScreenKeeps(st, c, hand);
      var st1 := st.(current := st.current - {c});
      UnlockKeeps(st1, c, st.locks - {s0.sid}, hand + {s0});
      var st2 := st1.(locks := st.locks - {s0.sid});
      assert forall s :: IsOnScreen(st2, s) <==> IsOnScreen(st1, s);
      ParkAsKeeps(st2, s0, Background(c), task, hand);
    }
  }

  /** Putting the session in hand on the caller's screen. */
  lemma AttachKeeps(st: State, c: Conn, s: Session, hand: set<Session>)
    requires InvWith(st, hand + {s}) && c !in st.current
    requires s.sid in st.locks && st.locks[s.sid].conn == c
    requires !IsOnScreen(st, s)
    ensures InvWith(st.(current := st.current[c := s], route := st.route[s := Attached(c)]), hand - {s})
  {
    var st' := st.(current := st.current[c := s], route := st.route[s := Attached(c)]);
    forall d | d in st'.current
      ensures OwnsLock(st', d) && Get(st'.route, st'.current[d]) == Some(Attached(d))
    {
      if d != c {
        assert OwnsLock(st, d);
        assert IsOnScreen(st, st.current[d]);
      }
    }
    forall x ensures x in Live(st') <==> IsParked(st', x) || IsOnScreen(st', x) || x in hand - {s} {
      if IsOnScreen(st, x) {
        var d :| d in st.current && st.current[d] == x;
        assert d in st'.current && st'.current[d] == x;
      }
      if IsOnScreen(st', x) && x != s {
        var d :| d in st'.current && st'.current[d] == x;
        assert d in st.current && st.current[d] == x;
      }
      if x == s { assert c in st'.current && st'.current[c] == s; }
    }
  }

  // ----- what each step keeps -----

  /** The last leg of a new or resumed call: park what is on screen, then start. */
  lemma SwitchToNewKeeps(st: State, c: Conn, s: Session, startOk: bool, task: nat)
    requires Inv(st) && s !in st.started && task !in st.lot.armed
    requires s.sid in st.locks && st.locks[s.sid].conn == c
    requires c in st.current ==> st.current[c].sid != s.sid
    ensures Inv(Start(ParkCurrent(st, c, task), c, s, startOk))
  {
    ParkCurrentKeeps(st, c, task, {});
    var st1 := ParkCurrent(st, c, task);
    if startOk {
      var st2 := st1.(started := st1.started + {s});
      assert s !in Live(st1);
      assert Live(st2) == Live(st1) + {s};
      assert forall x :: IsOnScreen(st2, x) <==> IsOnScreen(st1, x);
      assert InvWith(st2, {} + {s});
      AttachKeeps(st2, c, s, {});
      SendKeeps(st2.(current := st2.current[c := s], route := st2.route[s := Attached(c)]), c, SessionStarted(s.sid),
          {});
      assert {} - {s} == {};
    } else {
      SendKeeps(st1, c, InternalError, {});
    }
  }

  lemma AcquireKeepsOwnScreen(st: State, sid: Sid, who: Client, force: bool)
    ensures Get(Acquire(st, sid, who, force).current, who.conn) == Get(st.current, who.conn)
    ensures !Refused(st, sid, who, force) ==>
              Get(Acquire(st, sid, who, force).locks, sid) == Some(Lock(who.conn, who.device))
    ensures Acquire(st, sid, who, force).lot == st.lot && Acquire(st, sid, who, force).started == st.started
  {
  }

  lemma NewKeeps(st: State, who: Client, cwdOk: bool, s: Session, startOk: bool, task: nat)
    requires Inv(st) && Fresh(st, New(who, cwdOk, s, startOk, task))
    ensures Inv(NewSession(st, who, cwdOk, s, startOk, task))
  {
    if !cwdOk {
      SendKeeps(st, who.conn, CwdNotFound, {});
    } else {
      assert who.conn in st.current ==> OwnsLock(st, who.conn);
      AcquireKeeps(st, s.sid, who, false, {});
      AcquireKeepsOwnScreen(st, s.sid, who, false);
      SwitchToNewKeeps(Acquire(st, s.sid, who, false), who.conn, s, startOk, task);
    }
  }

  lemma TakeAccounts(st: State, sid: Sid)
    requires Valid(st.lot) && Accounted(st, {})
    ensures Accounted(st.(lot := Take(st.lot, sid)), if sid in st.lot.sessions then {st.lot.sessions[sid]} else {})
  {
    var st' := st.(lot := Take(st.lot, sid));
    var hand := if sid in st.lot.sessions then {st.lot.sessions[sid]} else {};
    forall s ensures s in Live(st') <==> IsParked(st', s) || IsOnScreen(st', s) || s in hand {
      assert IsOnScreen(st', s) <==> IsOnScreen(st, s);
      assert IsParked(st, s) <==> IsParked(st', s) || s in hand;
      assert s in Live(st) <==> IsParked(st, s) || IsOnScreen(st, s);
    }
  }

  /** Taking a session out of the table puts it in hand. */
  lemma TakeKeeps(st: State, sid: Sid)
    requires Inv(st)
    ensures sid !in st.lot.sessions ==> Inv(st.(lot := Take(st.lot, sid)))
    ensures sid in st.lot.sessions ==>
              && InvWith(st.(lot := Take(st.lot, sid)), {st.lot.sessions[sid]})
              && !IsOnScreen(st.(lot := Take(st.lot, sid)), st.lot.sessions[sid])
  {
    hide Accounted;
    var st' := st.(lot := Take(st.lot, sid));
    TakeKeepsValid(st.lot, sid);
    TakeAccounts(st, sid);
    forall d | d in st'.current ensures OwnsLock(st', d) { assert OwnsLock(st, d); }
    forall k | k in st'.lot.sessions ensures InBackground(st', st'.lot.sessions[k]) {
      assert InBackground(st, st.lot.sessions[k]);
    }
  }

  /** A parked session's lock is free, so reclaiming it is never refused ... */
  lemma ReattachKeeps(st: State, s: Session, who: Client, force: bool, task: nat)
    requires InvWith(st, {s}) && !IsOnScreen(st, s) && task !in st.lot.armed
    requires s.sid !in st.locks && s.sid !in st.lot.sessions
    ensures Inv(Reattach(st, s, who, force, task))
  {
    var c := who.conn;
    AcquireKeeps(st, s.sid, who, force, {s});
    AcquireKeepsOwnScreen(st, s.sid, who, force);
    var st1 := Acquire(st, s.sid, who, force);
    assert c in st.current ==> OwnsLock(st, c);
    ParkCurrentKeeps(st1, c, task, {s});
    var st2 := ParkCurrent(st1, c, task);
    assert forall d :: d in st2.current ==> d in st.current && st2.current[d] == st.current[d];
    if IsOnScreen(st2, s) { assert IsOnScreen(st, s); }
    assert {} + {s} == {s};
    AttachKeeps(st2, c, s, {});
    assert {} - {s} == {};
    SendKeeps(st2.(current := st2.current[c := s], route := st2.route[s := Attached(c)]), c, SessionStarted(s.sid), {});
  }

  lemma ResumeKeeps(st: State, who: Client, cwdOk: bool, s: Session, force: bool, startOk: bool, task: nat)
    requires Inv(st) && Allowed(st, Resumed(who, cwdOk, s, force, startOk, task))
    ensures Inv(Resume(st, who, cwdOk, s, force, startOk, task))
  {
    if !cwdOk {
      SendKeeps(st, who.conn, CwdNotFound, {});
    } else {
      TakeKeeps(st, s.sid);
      var st1 := st.(lot := Take(st.lot, s.sid));
      if s.sid in st.lot.sessions {
        ReattachKeeps(st1, st.lot.sessions[s.sid], who, force, task);
      } else if Refused(st1, s.sid, who, force) {
        SendKeeps(st1, who.conn, SessionLocked(s.sid, st1.locks[s.sid].device), {});
      } else {
        AcquireKeeps(st1, s.sid, who, force, {});
        AcquireKeepsOwnScreen(st1, s.sid, who, force);
        SwitchToNewKeeps(Acquire(st1, s.sid, who, force), who.conn, s, startOk, task);
      }
    }
  }

  lemma DisconnectKeeps(st: State, c: Conn, task: nat)
    requires Inv(st) && task !in st.lot.armed
    ensures Inv(Disconnect(st, c, task))
    ensures c !in Disconnect(st, c, task).current
    ensures forall sid :: sid in Disconnect(st, c, task).locks ==> Disconnect(st, c, task).locks[sid].conn != c
  {
    var st1 := st.(current := st.current - {c});
    var free := ReleaseAll(st1, c).locks;
    if c in st.current {
      var s0 := st.current[c];
      assert OwnsLock(st, c);
      OffScreenKeeps(st, c, {});
      UnlockKeeps(st1, c, free, {} + {s0});
      var st2 := st1.(locks := free);
      assert forall s :: IsOnScreen(st2, s) <==> IsOnScreen(st1, s);
      ParkAsKeeps(st2, s0, Muted, task, {});
      assert Disconnect(st, c, task) == ParkAs(st2, s0, Muted, task);
    } else {
      UnlockKeeps(st, c, free, {});
      assert Disconnect(st, c, task) == st.(locks := free);
    }
  }

  lemma ExpireKeeps(st: State, task: nat)
    requires Inv(st)
    ensures Inv(Expire(st, task))
  {
    var st' := Expire(st, task);
    FireKeepsValid(st.lot, task);
    var gone := if Fired(st.lot, task).Some? then {Fired(st.lot, task).value} else {};
    forall d | d in st'.current ensures OwnsLock(st', d) { assert OwnsLock(st, d); }
    forall s ensures s in Live(st') <==> IsParked(st', s) || IsOnScreen(st', s) {
      assert IsOnScreen(st', s) <==> IsOnScreen(st, s);
      assert IsParked(st', s) <==> IsParked(st, s) && s !in gone;
      assert s in Live(st) <==> IsParked(st, s) || IsOnScreen(st, s);
    }
    assert forall s :: s in gone ==> IsParked(st, s) && s in Live(st);
    forall k | k in st'.lot.sessions ensures InBackground(st', st'.lot.sessions[k]) {
      assert InBackground(st, st.lot.sessions[k]);
    }
  }

  lemma ShutdownKeeps(st: State)
    requires Inv(st)
    ensures Inv(Shutdown(st))
  {
    var st' := Shutdown(st);
    StopAllKeepsValid(st.lot);
    forall d | d in st'.current ensures OwnsLock(st', d) { assert OwnsLock(st, d); }
    forall s ensures s in st.lot.sessions.Values <==> IsParked(st, s) {
      if s in st.lot.sessions.Values {
        var sid :| sid in st.lot.sessions && st.lot.sessions[sid] == s;
      }
    }
    forall s ensures s in Live(st') <==> IsParked(st', s) || IsOnScreen(st', s) {
      assert IsOnScreen(st', s) <==> IsOnScreen(st, s);
      assert s in Live(st) <==> IsParked(st, s) || IsOnScreen(st, s);
    }
    assert forall s :: s in st.lot.sessions.Values ==> s in Live(st);
  }

  /** Every allowed step keeps the invariant. */
  lemma StepKeeps(st: State, step: Step)
    requires Inv(st) && Allowed(st, step)
    ensures Inv(Do(st, step))
  {
    match step
    case New(who, cwdOk, s, startOk, task) => NewKeeps(st, who, cwdOk, s, startOk, task);
    case Resumed(who, cwdOk, s, force, startOk, task) => ResumeKeeps(st, who, cwdOk, s, force, startOk, task);
    case Left(conn, task) => DisconnectKeeps(st, conn, task);
    case Woke(task) => ExpireKeeps(st, task);
    case ShutDown => ShutdownKeeps(st);
  }

  /** Resuming one's own session is the one call that can break the invariant, and it does
      exactly when it gets as far as starting a second object for the id: the old object is
      parked and the lock just taken again is released with it. */
  lemma ResumeOwnBreaks(st: State, step: Step)
    requires Inv(st) && Fresh(st, step) && ResumesOwn(st, step)
    ensures Inv(Do(st, step)) <==> !(step.cwdOk && step.startOk)
    ensures step.cwdOk && step.startOk ==>
              && step.who.conn in Do(st, step).current
              && !OwnsLock(Do(st, step), step.who.conn)
              && {st.current[step.who.conn], step.s} <= Live(Do(st, step))
              && st.current[step.who.conn] != step.s
  {
    var c := step.who.conn;
    assert OwnsLock(st, c);
    if !step.cwdOk {
      SendKeeps(st, c, CwdNotFound, {});
    } else {
      var mid := ParkCurrent(Acquire(st, step.s.sid, step.who, step.force), c, step.task);
      ResumeFromDisk(st, step);
      OwnIsUnlocked(st, step);
      if step.startOk {
        OwnBreaks(mid, Do(st, step), step, st.current[c]);
      } else {
        SendKeeps(mid, c, InternalError, {});
      }
    }
  }

  /** Having locked its own session again, the caller parks it and with that unlocks it. */
  lemma OwnIsUnlocked(st: State, step: Step)
    requires Inv(st) && Fresh(st, step) && ResumesOwn(st, step)
    ensures var mid := ParkCurrent(Acquire(st, step.s.sid, step.who, step.force), step.who.conn, step.task);
      Inv(mid) && step.s.sid !in mid.locks && st.current[step.who.conn] in Live(mid) && step.s !in mid.started
  {
    var sid, c := step.s.sid, step.who.conn;
    var s0 := st.current[c];
    assert OwnsLock(st, c) && IsOnScreen(st, s0);
    AcquireKeeps(st, sid, step.who, step.force, {});
    var again := Acquire(st, sid, step.who, step.force);
    assert again == st.(locks := st.locks[sid := Lock(c, step.who.device)]);
    ParkCurrentKeeps(again, c, step.task, {});
    ParkCurrentEffect(again, c, step.task);
  }

  lemma OwnBreaks(mid: State, next: State, step: Step, previous: Session)
    requires step.Resumed? && Inv(mid) && step.s.sid !in mid.locks && previous in Live(mid) && step.s !in mid.started
    requires next == Start(mid, step.who.conn, step.s, true)
    ensures !Inv(next) && step.who.conn in next.current && !OwnsLock(next, step.who.conn)
    ensures {previous, step.s} <= Live(next) && previous != step.s
  {
    assert next.locks == mid.locks && next.current[step.who.conn] == step.s;
    assert !OwnsLock(next, step.who.conn);
    assert step.s !in mid.stopped;
  }

  /** It can happen: a connection starts a session and asks for the same one again. */
  lemma OwnResumeIsReachable(who: Client, sid: Sid)
    ensures var first := New(who, true, Session(sid, 0), true, 0);
            var again := Resumed(who, true, Session(sid, 1), false, true, 1);
            var st := Do(INITIAL, first);
      && Inv(INITIAL) && Allowed(INITIAL, first) && Fresh(st, again) && ResumesOwn(st, again)
      && !OwnsLock(Do(st, again), who.conn) && !Inv(Do(st, again))
      && Live(Do(st, again)) == {Session(sid, 0), Session(sid, 1)}
  {
    var first := New(who, true, Session(sid, 0), true, 0);
    var again := Resumed(who, true, Session(sid, 1), false, true, 1);
    var st := Do(INITIAL, first);
    assert Inv(INITIAL);
    StepKeeps(INITIAL, first);
    assert st.current == map[who.conn := Session(sid, 0)];
    ResumeOwnBreaks(st, again);
    assert Do(st, again).started == {Session(sid, 0), Session(sid, 1)} && Do(st, again).stopped == {};
  }

  /** So, over fresh steps, the invariant is kept if and only if the step is not a
      successful resume of the caller's own session. */
  lemma KeptIffNotOwn(st: State, step: Step)
    requires Inv(st) && Fresh(st, step)
    ensures Inv(Do(st, step)) <==> !(ResumesOwn(st, step) && step.cwdOk && step.startOk)
  {
    if ResumesOwn(st, step) { ResumeOwnBreaks(st, step); } else { StepKeeps(st, step); }
  }

  // ----- what holds in every reachable state -----

  function Final(steps: seq<Step>): State {
    if steps == [] then INITIAL else Do(Final(steps[..|steps| - 1]), steps[|steps| - 1])
  }

  ghost predicate AllowedRun(steps: seq<Step>) {
    forall k :: 0 <= k < |steps| ==> Allowed(Final(steps[..k]), steps[k])
  }

  lemma {:induction false} RunKeepsInv(steps: seq<Step>)
    requires AllowedRun(steps)
    ensures Inv(Final(steps))
  {
    if steps != [] {
      var init := steps[..|steps| - 1];
      assert forall k :: 0 <= k < |init| ==> init[..k] == steps[..k];
      RunKeepsInv(init);
      StepKeeps(Final(init), steps[|steps| - 1]);
    }
  }

  /** The live sessions are the disjoint union of the parked ones and those on screen, with
      one object per id, each on one screen only and locked by the connection showing it. */
  lemma LiveSessionsAccounted(steps: seq<Step>)
    requires AllowedRun(steps)
    ensures var st := Final(steps);
      && (forall s :: s in Live(st) <==> IsParked(st, s) || IsOnScreen(st, s))
      && (forall s :: !(IsParked(st, s) && IsOnScreen(st, s)))
      && (forall s, t :: s in Live(st) && t in Live(st) && s.sid == t.sid ==> s == t)
      && (forall c, d :: c in st.current && d in st.current && st.current[c] == st.current[d] ==> c == d)
      && (forall c :: c in st.current ==> OwnsLock(st, c))
      && (forall sid :: sid in st.lot.sessions ==> sid !in st.locks)
  {
    RunKeepsInv(steps);
    var st := Final(steps);
    forall c, d | c in st.current && d in st.current && st.current[c].sid == st.current[d].sid
      ensures c == d
    {
      assert OwnsLock(st, c) && OwnsLock(st, d);
    }
    forall s | IsOnScreen(st, s) ensures s.sid in st.locks {
      var c :| c in st.current && st.current[c] == s;
      assert OwnsLock(st, c);
    }
  }

  /** Nobody else holds the session, or the caller is on the device that does, or it insists. */
  predicate MayHave(st: State, sid: Sid, who: Client, force: bool) {
    sid in st.locks ==> st.locks[sid].conn == who.conn || st.locks[sid].device == who.device || force
  }

  /** A resume is answered with the holder's label exactly when another connection, on another
      device, holds the session and the caller does not insist. */
  lemma LockedOutIff(st: State, step: Step, holder: string)
    requires Inv(st) && step.Resumed? && step.cwdOk
    ensures var sid := step.s.sid;
      Do(st, step).sent == st.sent + [(step.who.conn, SessionLocked(sid, holder))] <==>
        && sid in st.locks && st.locks[sid].conn != step.who.conn && st.locks[sid].device != step.who.device
        && !step.force && holder == st.locks[sid].device
  {
    var sid := step.s.sid;
    var next := Do(st, step);
    RefusedResumeChangesNothing(st, step);
    if MayHave(st, sid, step.who, step.force) {
      assert next.sent != [] && !next.sent[|next.sent| - 1].1.SessionLocked?;
    } else {
      assert next.sent[|st.sent|] == (step.who.conn, SessionLocked(sid, st.locks[sid].device));
    }
  }

  /** Whether the caller was sent `msg` last. */
  predicate SentLast(st: State, c: Conn, msg: Msg) {
    st.sent != [] && st.sent[|st.sent| - 1] == (c, msg)
  }

  lemma StartAnswers(st: State, c: Conn, s: Session, startOk: bool)
    ensures SentLast(Start(st, c, s, startOk), c, if startOk then SessionStarted(s.sid) else InternalError)
  {
  }

  lemma ReattachAnswers(st: State, s: Session, who: Client, force: bool, task: nat)
    ensures !SentLast(Reattach(st, s, who, force, task), who.conn, CwdNotFound)
  {
    hide Refused, Acquire, ParkCurrent, ParkAs;
  }

  /** A call without a project directory is answered so, and does nothing else; no other call is. */
  lemma NoDirectoryIff(st: State, step: Step)
    requires step.New? || step.Resumed?
    ensures SentLast(Do(st, step), step.who.conn, CwdNotFound) <==> !step.cwdOk
    ensures !step.cwdOk ==> Do(st, step) == st.(sent := st.sent + [(step.who.conn, CwdNotFound)])
  {
    hide Refused, Acquire, ParkCurrent, Start, Reattach, Park, Take;
    var who := step.who;
    if step.cwdOk {
      var st1 := if step.New? then st else st.(lot := Take(st.lot, step.s.sid));
      var force := step.Resumed? && step.force;
      StartAnswers(ParkCurrent(Acquire(st1, step.s.sid, who, force), who.conn, step.task),
                   who.conn, step.s, step.startOk);
      if step.Resumed? && step.s.sid in st.lot.sessions {
        ReattachAnswers(st1, st.lot.sessions[step.s.sid], who, force, step.task);
      }
    }
  }

  /** A new session is refused in the same way; under a fresh id it never is. */
  lemma CollidesIff(st: State, step: Step)
    requires step.New? && step.cwdOk
    ensures var sid := step.s.sid;
      Do(st, step).sent == st.sent + [(step.who.conn, LockCollision)] <==>
        sid in st.locks && st.locks[sid].conn != step.who.conn && st.locks[sid].device != step.who.device
  {
    var next := Do(st, step);
    assert next.sent != [];
    assert MayHave(st, step.s.sid, step.who, false) ==> !next.sent[|next.sent| - 1].1.LockCollision?;
  }

  /** Such a resume changes nothing but the caller's mailbox; a parked session is never refused. */
  lemma RefusedResumeChangesNothing(st: State, step: Step)
    requires Inv(st) && step.Resumed? && step.cwdOk
    ensures var next := Do(st, step); var sid := step.s.sid;
      (!MayHave(st, sid, step.who, step.force) <==>
        next == Send(st, step.who.conn, SessionLocked(sid, if sid in st.locks then st.locks[sid].device else "")))
    ensures !MayHave(st, step.s.sid, step.who, step.force) ==> step.s.sid !in st.lot.sessions
  {
    var sid := step.s.sid;
    if sid !in st.lot.sessions {
      assert Take(st.lot, sid) == st.lot;
      assert st.(lot := Take(st.lot, sid)) == st;
    }
    if MayHave(st, sid, step.who, step.force) {
      var next := Do(st, step);
      assert next.sent != [] && !next.sent[|next.sent| - 1].1.SessionLocked?;
    }
  }

  /** Whoever may have the session gets it on screen, under its own lock, unless a session that
      has to be started does not start; nobody else does.  So the same device always gets its
      session back. */
  lemma GrantedIff(st: State, step: Step)
    requires Inv(st) && step.Resumed? && step.cwdOk && !ResumesOwn(st, step)
    requires step.startOk || step.s.sid in st.lot.sessions
    ensures var next := Do(st, step); var sid, c := step.s.sid, step.who.conn;
      && (c in next.current && next.current[c].sid == sid <==>
            (sid in st.locks ==> st.locks[sid].conn == c || st.locks[sid].device == step.who.device || step.force))
      && (c in next.current && next.current[c].sid == sid ==>
            Get(next.locks, sid) == Some(Lock(c, step.who.device)))
  {
    var sid, c := step.s.sid, step.who.conn;
    if !MayHave(st, sid, step.who, step.force) {
      RefusedResumeChangesNothing(st, step);
    } else if sid in st.lot.sessions {
      ParkedIsReclaimed(st, step);
    } else {
      ResumeFromDisk(st, step);
      AcquireKeepsOwnScreen(st, sid, step.who, step.force);
      SwitchEffect(Acquire(st, sid, step.who, step.force), c, step.s, step.startOk, step.task);
    }
  }

  /** Another connection loses its screen exactly if the session it shows is resumed by someone
      on its own device or by someone who insists. */
  lemma ScreenTakenIff(st: State, step: Step, d: Conn)
    requires Inv(st) && Allowed(st, step)
    requires (step.New? || step.Resumed? ==> step.who.conn != d) && (step.Left? ==> step.conn != d)
    ensures Get(Do(st, step).current, d) != Get(st.current, d) <==>
            && step.Resumed? && step.cwdOk && d in st.current && st.current[d].sid == step.s.sid
            && (step.force || st.locks[step.s.sid].device == step.who.device)
  {
    assert d in st.current ==> OwnsLock(st, d);
    match step
    case Resumed(who, cwdOk, s, force, startOk, task) =>
      if cwdOk {
        if !MayHave(st, s.sid, who, force) {
          RefusedResumeChangesNothing(st, step);
        } else if s.sid in st.lot.sessions {
          ParkedIsReclaimed(st, step);
        } else if HeldByOther(st, s.sid, who.conn) {
          TakeoverEffect(st, step);
        } else {
          ResumeFromDisk(st, step);
          AcquireKeepsOwnScreen(st, s.sid, who, force);
          SwitchEffect(Acquire(st, s.sid, who, force), who.conn, s, startOk, task);
        }
      }
    case New(who, cwdOk, s, startOk, task) =>
      if cwdOk {
        assert who.conn in st.current ==> OwnsLock(st, who.conn);
        SwitchEffect(Acquire(st, s.sid, who, false), who.conn, s, startOk, task);
      }
    case _ =>
  }

  lemma ParkCurrentEffect(st: State, c: Conn, task: nat)
    ensures var next := ParkCurrent(st, c, task);
      && next.current == st.current - {c} && next.sent == st.sent
      && next.started == st.started && next.stopped == st.stopped
      && (forall sid :: !(c in st.current && st.current[c].sid == sid) ==> Get(next.locks, sid) == Get(st.locks, sid))
  {
  }

  /** A granted resume of a session that is not parked, leg by leg. */
  lemma ResumeFromDisk(st: State, step: Step)
    requires Valid(st.lot) && step.Resumed? && step.cwdOk
    requires step.s.sid !in st.lot.sessions && !Refused(st, step.s.sid, step.who, step.force)
    ensures Do(st, step) == Start(ParkCurrent(Acquire(st, step.s.sid, step.who, step.force), step.who.conn, step.task),
                                  step.who.conn, step.s, step.startOk)
  {
    assert Take(st.lot, step.s.sid) == st.lot;
    assert st.(lot := Take(st.lot, step.s.sid)) == st;
  }

  /** What a lock that changes hands does. */
  ghost predicate Seized(st: State, next: State, sid: Sid, who: Client, d: Conn) {
    && next.sent == st.sent + [(d, LockRevoked(sid))]
    && next.started == st.started
    && Get(next.locks, sid) == Some(Lock(who.conn, who.device))
    && (if d in st.current && st.current[d].sid == sid
        then next.current == st.current - {d} && next.stopped == st.stopped + {st.current[d]}
        else next.current == st.current && next.stopped == st.stopped)
  }

  lemma SeizeEffect(st: State, sid: Sid, who: Client, force: bool)
    requires HeldByOther(st, sid, who.conn) && !Refused(st, sid, who, force)
    ensures Seized(st, Acquire(st, sid, who, force), sid, who, st.locks[sid].conn)
  {
  }

  /** What parking the screen of `c` and starting `s` does. */
  ghost predicate Switched(st: State, next: State, c: Conn, s: Session, startOk: bool) {
    && next.current == (if startOk then st.current[c := s] else st.current - {c})
    && next.sent == st.sent + [(c, if startOk then SessionStarted(s.sid) else InternalError)]
    && next.stopped == st.stopped && st.started <= next.started
    && Get(next.locks, s.sid) == Get(st.locks, s.sid)
  }

  lemma SwitchEffect(st: State, c: Conn, s: Session, startOk: bool, task: nat)
    requires c in st.current ==> st.current[c].sid != s.sid
    ensures Switched(st, Start(ParkCurrent(st, c, task), c, s, startOk), c, s, startOk)
  {
    ParkCurrentEffect(st, c, task);
    assert startOk ==> (st.current - {c})[c := s] == st.current[c := s];
  }

  /** A takeover: the previous holder `d`, and nobody else, is told and loses the session;
      the lock is the caller's; the caller gets the session or an error. */
  ghost predicate TakenOver(st: State, next: State, who: Client, s: Session, startOk: bool, d: Conn) {
    && next.sent ==
         st.sent + [(d, LockRevoked(s.sid)), (who.conn, if startOk then SessionStarted(s.sid) else InternalError)]
    && (d in next.current ==> d in st.current && st.current[d].sid != s.sid)
    && (forall e :: e != d && e != who.conn ==> Get(next.current, e) == Get(st.current, e))
    && Get(next.locks, s.sid) == Some(Lock(who.conn, who.device))
    && Get(next.current, who.conn) == (if startOk then Some(s) else None)
    && next.stopped == st.stopped + (if d in st.current && st.current[d].sid == s.sid then {st.current[d]} else {})
    && st.started <= next.started
  }

  lemma SeizeThenSwitch(st: State, mid: State, next: State, who: Client, s: Session, startOk: bool, d: Conn)
    requires Seized(st, mid, s.sid, who, d) && Switched(mid, next, who.conn, s, startOk) && d != who.conn
    ensures TakenOver(st, next, who, s, startOk, d)
  {
  }

  lemma TakeoverEffect(st: State, step: Step)
    requires Inv(st) && step.Resumed? && step.cwdOk && !ResumesOwn(st, step)
    requires HeldByOther(st, step.s.sid, step.who.conn) && MayHave(st, step.s.sid, step.who, step.force)
    ensures TakenOver(st, Do(st, step), step.who, step.s, step.startOk, st.locks[step.s.sid].conn)
  {
    var mid := Acquire(st, step.s.sid, step.who, step.force);
    ResumeFromDisk(st, step);
    SeizeEffect(st, step.s.sid, step.who, step.force);
    SwitchEffect(mid, step.who.conn, step.s, step.startOk, step.task);
    SeizeThenSwitch(st, mid, Do(st, step), step.who, step.s, step.startOk, st.locks[step.s.sid].conn);
  }

  /** Reclaiming a parked session always succeeds, hands over the very object that was
      parked and starts nothing. */
  lemma ParkedIsReclaimed(st: State, step: Step)
    requires Inv(st) && step.Resumed? && step.cwdOk && step.s.sid in st.lot.sessions
    ensures var next := Do(st, step); var s := st.lot.sessions[step.s.sid];
      && Get(next.current, step.who.conn) == Some(s)
      && Get(next.route, s) == Some(Attached(step.who.conn))
      && next.started == st.started && next.stopped == st.stopped
      && (forall e :: e != step.who.conn ==> Get(next.current, e) == Get(st.current, e))
  {
  }

  ghost predicate EndsIt(st: State, step: Step, s: Session) {
    || (step.Woke? && Fired(st.lot, step.task) == Some(s))
    || (step.ShutDown? && IsParked(st, s))
    || (step.Resumed? && step.cwdOk && step.s.sid == s.sid && IsOnScreen(st, s)
        && MayHave(st, s.sid, step.who, step.force))
  }

  lemma ResumeStops(st: State, step: Step, s: Session)
    requires Inv(st) && !ResumesOwn(st, step) && step.Resumed? && s in Live(st)
    ensures s in Do(st, step).stopped <==> EndsIt(st, step, s)
    ensures s in Do(st, step).started
  {
    var sid, c := step.s.sid, step.who.conn;
    if IsOnScreen(st, s) {
      var d :| d in st.current && st.current[d] == s;
      assert OwnsLock(st, d);
    }
    if !step.cwdOk {
    } else if sid in st.lot.sessions {
      ParkedIsReclaimed(st, step);
    } else if Refused(st, sid, step.who, step.force) {
      RefusedResumeChangesNothing(st, step);
    } else if HeldByOther(st, sid, c) {
      TakeoverEffect(st, step);
    } else {
      ResumeFromDisk(st, step);
      SwitchEffect(Acquire(st, sid, step.who, step.force), c, step.s, step.startOk, step.task);
    }
  }

  lemma OthersStop(st: State, step: Step, s: Session)
    requires Inv(st) && Fresh(st, step) && !step.Resumed? && s in Live(st)
    ensures s in Do(st, step).stopped <==> EndsIt(st, step, s)
    ensures s in Do(st, step).started
  {
    match step
    case New(who, cwdOk, created, startOk, task) =>
      if cwdOk {
        assert who.conn in st.current ==> OwnsLock(st, who.conn);
        SwitchEffect(Acquire(st, created.sid, who, false), who.conn, created, startOk, task);
      }
    case Left(conn, task) =>
    case Woke(task) =>
    case ShutDown =>
      if s in st.lot.sessions.Values {
        var sid :| sid in st.lot.sessions && st.lot.sessions[sid] == s;
      }
  }

  /** The only ways a live session ends: its own expiry task, the server's shutdown while
      it is parked, or a takeover of the screen it is on.  Switching sessions, closing the
      browser or a refused call never ends one. */
  lemma HowSessionsEnd(st: State, step: Step, s: Session)
    requires Inv(st) && Allowed(st, step) && s in Live(st)
    ensures s !in Live(Do(st, step)) <==> EndsIt(st, step, s)
  {
    if step.Resumed? { ResumeStops(st, step, s); } else { OthersStop(st, step, s); }
  }

  /** Over any run: a session that is live at some point is live at the end, or was ended by
      one of those steps in between. */
  lemma {:induction false} NothingIsLost(steps: seq<Step>, from: nat, s: Session)
    requires AllowedRun(steps) && from <= |steps|
    ensures s in Live(Final(steps[..from])) ==>
              s in Live(Final(steps)) || exists k :: from <= k < |steps| && EndsIt(Final(steps[..k]), steps[k], s)
  {
    hide Do, EndsIt, Inv, Allowed, Live;
    assert steps[..|steps|] == steps;
    if from < |steps| {
      var n := |steps| - 1;
      var init := steps[..n];
      assert forall k :: 0 <= k <= n ==> init[..k] == steps[..k];
      NothingIsLost(init, from, s);
      if s in Live(Final(init)) {
        RunKeepsInv(init);
        HowSessionsEnd(Final(init), steps[n], s);
        assert s in Live(Final(steps)) || EndsIt(Final(steps[..n]), steps[n], s);
      } else if s in Live(Final(steps[..from])) {
        var k :| from <= k < n && EndsIt(Final(init[..k]), init[k], s);
        assert EndsIt(Final(steps[..k]), steps[k], s);
      }
    }
  }

  // ----- where output goes -----

  /** The call gives the caller's screen to another session. */
  predicate Switches(st: State, step: Step) {
    || (step.New? && step.cwdOk)
    || (step.Resumed? && step.cwdOk && MayHave(st, step.s.sid, step.who, step.force))
  }

  /** The session a call takes off the screen of `c`, if any. */
  predicate Shows(st: State, c: Conn, s: Session) { c in st.current && st.current[c] == s }

  /** A session is muted when its client leaves, goes on sending to its client in the background
      when that switches away, and sends to whoever reclaims it; nothing else redirects it. */
  lemma OutputFollows(st: State, step: Step, s: Session)
    requires Inv(st) && Allowed(st, step) && s in Live(st) && s in Live(Do(st, step))
    ensures Get(Do(st, step).route, s) ==
            if step.Left? && Shows(st, step.conn, s) then Some(Muted)
            else if Switches(st, step) && Shows(st, step.who.conn, s) then Some(Background(step.who.conn))
            else if step.Resumed? && step.cwdOk && IsParked(st, s) && step.s.sid == s.sid then
              Some(Attached(step.who.conn))
            else Get(st.route, s)
  {
    match step
    case New(who, cwdOk, created, startOk, task) => NewRedirects(st, who, cwdOk, created, startOk, task, s);
    case Resumed(who, cwdOk, created, force, startOk, task) => ResumeRedirects(st, step, s);
    case Left(conn, task) =>
    case Woke(task) =>
    case ShutDown =>
  }

  lemma ParkingRedirects(st: State, c: Conn, task: nat, s: Session)
    ensures Get(ParkCurrent(st, c, task).route, s) ==
            if Shows(st, c, s) then Some(Background(c)) else Get(st.route, s)
  {
  }

  lemma AcquireRedirectsNothing(st: State, sid: Sid, who: Client, force: bool)
    ensures Acquire(st, sid, who, force).route == st.route
  {
  }

  lemma NewRedirects(st: State, who: Client, cwdOk: bool, created: Session, startOk: bool, task: nat, s: Session)
    requires Inv(st) && s in Live(st) && created !in st.started && created.sid !in st.locks
    ensures Get(NewSession(st, who, cwdOk, created, startOk, task).route, s) ==
            if cwdOk && Shows(st, who.conn, s) then Some(Background(who.conn)) else Get(st.route, s)
  {
    hide ParkCurrent, Inv;
    AcquireRedirectsNothing(st, created.sid, who, false);
    ParkingRedirects(Acquire(st, created.sid, who, false), who.conn, task, s);
    AcquireKeepsOwnScreen(st, created.sid, who, false);
    SessionsStarted(st, s);
  }

  lemma SessionsStarted(st: State, s: Session)
    requires s in Live(st)
    ensures s in st.started
  {
  }

  lemma ResumeRedirects(st: State, step: Step, s: Session)
    requires Inv(st) && Allowed(st, step) && step.Resumed? && s in Live(st)
    ensures Get(Do(st, step).route, s) ==
            if Switches(st, step) && Shows(st, step.who.conn, s) then Some(Background(step.who.conn))
            else if step.cwdOk && IsParked(st, s) && step.s.sid == s.sid then Some(Attached(step.who.conn))
            else Get(st.route, s)
  {
    var sid, c := step.s.sid, step.who.conn;
    if !step.cwdOk {
    } else if !MayHave(st, sid, step.who, step.force) {
      RefusedResumeChangesNothing(st, step);
    } else if sid in st.lot.sessions {
      ReclaimRedirects(st, step, s);
    } else {
      hide ParkCurrent, Inv;
      ResumeFromDisk(st, step);
      AcquireRedirectsNothing(st, sid, step.who, step.force);
      ParkingRedirects(Acquire(st, sid, step.who, step.force), c, step.task, s);
      AcquireKeepsOwnScreen(st, sid, step.who, step.force);
      SessionsStarted(st, s);
    }
  }

  lemma ReclaimRedirects(st: State, step: Step, s: Session)
    requires Inv(st) && Allowed(st, step) && step.Resumed? && step.cwdOk && step.s.sid in st.lot.sessions
    ensures Get(Do(st, step).route, s) ==
            if Shows(st, step.who.conn, s) then Some(Background(step.who.conn))
            else if IsParked(st, s) && step.s.sid == s.sid then Some(Attached(step.who.conn))
            else Get(st.route, s)
  {
    var sid, c := step.s.sid, step.who.conn;
    var taken := st.(lot := Take(st.lot, sid));
    assert c in st.current ==> OwnsLock(st, c);
    AcquireRedirectsNothing(taken, sid, step.who, step.force);
    AcquireKeepsOwnScreen(taken, sid, step.who, step.force);
    ParkingRedirects(Acquire(taken, sid, step.who, step.force), c, step.task, s);
  }

  // ----- locks without a screen -----

  /** The connection holds the lock of a session that it does not show. */
  predicate HeldIdly(st: State, c: Conn, sid: Sid) {
    sid in st.locks && st.locks[sid].conn == c && !(c in st.current && st.current[c].sid == sid)
  }

  /** A granted new or resumed session that is not parked fails to start. */
  predicate FailsToStart(st: State, step: Step, c: Conn, sid: Sid) {
    || (step.New? && step.cwdOk && !step.startOk && step.who.conn == c && step.s.sid == sid)
    || (step.Resumed? && step.cwdOk && !step.startOk && step.who.conn == c && step.s.sid == sid
        && sid !in st.lot.sessions && MayHave(st, sid, step.who, step.force))
  }

  /** The connection leaves, or someone is granted the session. */
  predicate Frees(st: State, step: Step, c: Conn, sid: Sid) {
    || (step.Left? && step.conn == c)
    || (step.Resumed? && step.cwdOk && step.s.sid == sid && MayHave(st, sid, step.who, step.force))
  }

  /** Starting `s` after parking the screen leaves an idle lock exactly if it fails. */
  lemma SwitchHoldsIdly(st: State, c: Conn, s: Session, startOk: bool, task: nat, d: Conn, sid: Sid)
    requires ScreensLocked(st) && s.sid in st.locks && st.locks[s.sid].conn == c
    requires c in st.current ==> st.current[c].sid != s.sid
    ensures var next := Start(ParkCurrent(st, c, task), c, s, startOk);
      HeldIdly(next, d, sid) <==> if sid == s.sid then d == c && !startOk else HeldIdly(st, d, sid)
  {
    assert c in st.current ==> OwnsLock(st, c);
    assert d in st.current ==> OwnsLock(st, d);
  }

  lemma AcquireHoldsIdly(st: State, sid: Sid, who: Client, force: bool, d: Conn, k: Sid)
    requires ScreensLocked(st) && k != sid
    ensures HeldIdly(Acquire(st, sid, who, force), d, k) <==> HeldIdly(st, d, k)
  {
  }

  lemma ReattachHoldsIdly(st: State, s: Session, who: Client, force: bool, task: nat, d: Conn, sid: Sid)
    requires ScreensLocked(st) && s.sid !in st.locks
    ensures HeldIdly(Reattach(st, s, who, force, task), d, sid) <==> HeldIdly(st, d, sid)
  {
    assert who.conn in st.current ==> OwnsLock(st, who.conn);
    assert d in st.current ==> OwnsLock(st, d);
  }

  lemma ResumeHoldsIdly(st: State, step: Step, c: Conn, sid: Sid)
    requires Inv(st) && Allowed(st, step) && step.Resumed?
    ensures HeldIdly(Do(st, step), c, sid) <==>
            FailsToStart(st, step, c, sid) || (HeldIdly(st, c, sid) && !Frees(st, step, c, sid))
  {
    var who, s := step.who, step.s;
    if !step.cwdOk {
    } else if s.sid in st.lot.sessions {
      ReattachHoldsIdly(st.(lot := Take(st.lot, s.sid)), st.lot.sessions[s.sid], who, step.force, step.task, c, sid);
    } else if Refused(st, s.sid, who, step.force) {
      RefusedResumeChangesNothing(st, step);
    } else {
      ResumeFromDisk(st, step);
      var mid := Acquire(st, s.sid, who, step.force);
      AcquireKeeps(st, s.sid, who, step.force, {});
      AcquireKeepsOwnScreen(st, s.sid, who, step.force);
      SwitchHoldsIdly(mid, who.conn, s, step.startOk, step.task, c, sid);
      if sid != s.sid { AcquireHoldsIdly(st, s.sid, who, step.force, c, sid); }
    }
  }

  /** After a failed start the connection keeps a lock on a session it does not show; that is
      the only way to such a lock, and it stays until the connection leaves or someone is
      granted the session. */
  lemma HeldIdlyByStep(st: State, step: Step, c: Conn, sid: Sid)
    requires Inv(st) && Allowed(st, step)
    ensures HeldIdly(Do(st, step), c, sid) <==>
            FailsToStart(st, step, c, sid) || (HeldIdly(st, c, sid) && !Frees(st, step, c, sid))
  {
    match step
    case New(who, cwdOk, s, startOk, task) =>
      if cwdOk {
        var mid := Acquire(st, s.sid, who, false);
        AcquireKeeps(st, s.sid, who, false, {});
        AcquireKeepsOwnScreen(st, s.sid, who, false);
        assert who.conn in st.current ==> OwnsLock(st, who.conn);
        SwitchHoldsIdly(mid, who.conn, s, startOk, task, c, sid);
        if sid != s.sid { AcquireHoldsIdly(st, s.sid, who, false, c, sid); }
      }
    case Resumed(_, _, _, _, _, _) => ResumeHoldsIdly(st, step, c, sid);
    case Left(conn, task) =>
    case Woke(task) =>
    case ShutDown =>
  }

  /** Some start failed, and nothing freed the lock since. */
  ghost predicate HeldSince(steps: seq<Step>, c: Conn, sid: Sid) {
    exists k :: 0 <= k < |steps| && FailsAt(steps, k, c, sid) && NotFreedAfter(steps, k, c, sid)
  }

  ghost predicate FailsAt(steps: seq<Step>, k: int, c: Conn, sid: Sid)
    requires 0 <= k < |steps|
  {
    FailsToStart(Final(steps[..k]), steps[k], c, sid)
  }

  ghost predicate NotFreedAfter(steps: seq<Step>, k: int, c: Conn, sid: Sid) {
    forall j :: 0 <= j && k < j < |steps| ==> !FreesAt(steps, j, c, sid)
  }

  ghost predicate FreesAt(steps: seq<Step>, j: int, c: Conn, sid: Sid)
    requires 0 <= j < |steps|
  {
    Frees(Final(steps[..j]), steps[j], c, sid)
  }

  lemma HeldSinceStep(steps: seq<Step>, c: Conn, sid: Sid)
    requires steps != []
    ensures var init, last := steps[..|steps| - 1], steps[|steps| - 1];
      HeldSince(steps, c, sid) <==>
        FailsToStart(Final(init), last, c, sid) || (HeldSince(init, c, sid) && !Frees(Final(init), last, c, sid))
  {
    hide Final, FailsToStart, Frees;
    var n := |steps| - 1;
    var init := steps[..n];
    assert forall k :: 0 <= k < n ==> init[..k] == steps[..k] && init[k] == steps[k];
    assert forall k :: 0 <= k < n ==> (FailsAt(init, k, c, sid) <==> FailsAt(steps, k, c, sid));
    assert forall k :: 0 <= k < n ==> (FreesAt(init, k, c, sid) <==> FreesAt(steps, k, c, sid));
    if HeldSince(init, c, sid) && !FreesAt(steps, n, c, sid) {
      var k :| 0 <= k < n && FailsAt(init, k, c, sid) && NotFreedAfter(init, k, c, sid);
      assert FailsAt(steps, k, c, sid) && NotFreedAfter(steps, k, c, sid);
    }
    if FailsAt(steps, n, c, sid) { assert NotFreedAfter(steps, n, c, sid); }
    if HeldSince(steps, c, sid) {
      var k :| 0 <= k < |steps| && FailsAt(steps, k, c, sid) && NotFreedAfter(steps, k, c, sid);
      if k < n { assert FailsAt(init, k, c, sid) && NotFreedAfter(init, k, c, sid) && !FreesAt(steps, n, c, sid); }
    }
  }

  /** Over all runs: a connection holds the lock of a session it does not show exactly when a
      granted start of its failed, and since then it did not leave and nobody was granted the
      session. */
  lemma {:induction false} HeldIdlyIff(steps: seq<Step>, c: Conn, sid: Sid)
    requires AllowedRun(steps)
    ensures HeldIdly(Final(steps), c, sid) <==> HeldSince(steps, c, sid)
  {
    hide Do, Inv, Allowed, FailsToStart, Frees;
    if steps != [] {
      hide HeldIdly, HeldSince;
      var init := steps[..|steps| - 1];
      AllowedPrefix(steps);
      RunKeepsInv(init);
      HeldIdlyIff(init, c, sid);
      HeldIdlyByStep(Final(init), steps[|steps| - 1], c, sid);
      HeldSinceStep(steps, c, sid);
    }
  }

  lemma AllowedPrefix(steps: seq<Step>)
    requires steps != [] && AllowedRun(steps)
    ensures AllowedRun(steps[..|steps| - 1]) && Allowed(Final(steps[..|steps| - 1]), steps[|steps| - 1])
  {
    hide Final, Allowed;
    var init := steps[..|steps| - 1];
    assert forall k :: 0 <= k < |init| ==> init[..k] == steps[..k] && init[k] == steps[k];
  }

  /** It can happen: a new session fails to start. */
  lemma FailedStartKeepsItsLock(who: Client, sid: Sid)
    ensures var step := New(who, true, Session(sid, 0), false, 0);
      Allowed(INITIAL, step) && HeldIdly(Do(INITIAL, step), who.conn, sid) && Do(INITIAL, step).current == map[]
  {
  }
}
