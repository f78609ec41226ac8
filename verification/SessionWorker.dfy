/** The worker process as objects: the lock table (shared/worker_shared/locks/manager.py),
    the registry of parked sessions (shared/worker_shared/sdk/registry.py) and one manager per
    connection (shared/worker_shared/sdk/manager.py).

    Every method is proved to do to `Worker.View()` exactly what its namesake in
    `SessionProtocol` does, so the protocol's theorems hold of the objects.  The ghost
    argument `w` names the process the objects belong to. */
module SessionWorker {
  import opened ParkingLot
  import opened Spec = SessionProtocol
  import opened Wrappers

  /** `notify` is the manager that the revocation callback was built for. */
  datatype LockEntry = LockEntry(conn: Conn, device: string, notify: SessionManager)

  /** What the calls do to agent sessions and sockets. */
  class Sdk {
    var started: set<Session>
    var stopped: set<Session>
    var route: map<Session, Route>
    var sent: seq<(Conn, Msg)>

    constructor ()
      ensures started == {} && stopped == {} && route == map[] && sent == []
    {
      started, stopped, route, sent := {}, {}, map[], [];
    }
  }

  class LockManager {
    var locks: map<Sid, LockEntry>

    constructor ()
      ensures locks == map[]
    {
      locks := map[];
    }

    ghost function Table(): map<Sid, Lock>
      reads this
    {
      map sid | sid in locks :: Lock(locks[sid].conn, locks[sid].device)
    }

    /** Nobody else holds the session, or the same device does, or the caller insists. */
    static predicate Available(locks: map<Sid, LockEntry>, sid: Sid, who: Client, force: bool) {
      sid in locks ==> locks[sid].conn == who.conn || locks[sid].device == who.device || force
    }

    /** Another connection that held the lock. */
    static function PriorOther(locks: map<Sid, LockEntry>, sid: Sid, conn: Conn): Option<LockEntry> {
      if sid in locks && locks[sid].conn != conn then Some(locks[sid]) else None
    }

    method TryAcquire(ghost w: Worker, sid: Sid, caller: SessionManager, force: bool)
      returns (acquired: bool, existing: Option<LockEntry>)
      requires w.Valid() && w.lockTable == this && w.Has(caller)
      modifies this, w.sdk, w.managers.Values
      ensures w.Valid()
      ensures acquired == !Refused(old(w.View()), sid, caller.Caller(), force)
      ensures acquired == Available(old(locks), sid, caller.Caller(), force)
      ensures acquired ==> existing == PriorOther(old(locks), sid, caller.connectionId)
      ensures w.View() == Spec.Acquire(old(w.View()), sid, caller.Caller(), force)
      ensures !acquired ==> existing.Some? && sid in old(locks) && existing.value == old(locks)[sid]
    {
      ghost var st := w.View();
      existing := Get(locks, sid);
      var priorOther: Option<LockEntry> := None;
      if existing.Some? && existing.value.conn != caller.connectionId {
        var sameClient := existing.value.device == caller.deviceLabel;
        if !force && !sameClient {
          return false, existing;
        }
        priorOther := existing;
        existing.value.notify.OnRevoked(w, sid);
      }
      ghost var st1 := w.View();
      locks := locks[sid := LockEntry(caller.connectionId, caller.deviceLabel, caller)];
      assert Table() == st1.locks[sid := Lock(caller.connectionId, caller.deviceLabel)];
      assert w.OnScreen() == st1.current;
      return true, priorOther;
    }

    method Release(ghost w: Worker, sid: Sid, conn: Conn) returns (released: bool)
      requires w.Valid() && w.lockTable == this
      modifies this
      ensures w.Valid()
      ensures released == (sid in old(locks) && old(locks)[sid].conn == conn)
      ensures w.View() == Spec.Release(old(w.View()), sid, conn)
    {
      released := sid in locks && locks[sid].conn == conn;
      if released {
        locks := locks - {sid};
        assert Table() == old(Table()) - {sid};
        assert w.OnScreen() == old(w.OnScreen());
      }
    }

    method ReleaseAllByConnection(ghost w: Worker, conn: Conn) returns (released: set<Sid>)
      requires w.Valid() && w.lockTable == this
      modifies this
      ensures w.Valid()
      ensures released == set sid | sid in old(locks) && old(locks)[sid].conn == conn
      ensures w.View() == Spec.ReleaseAll(old(w.View()), conn)
    {
      released := set sid | sid in locks && locks[sid].conn == conn;
      var rest := released;
      while rest != {}
        invariant rest <= released
        invariant locks == old(locks) - (released - rest)
        decreases rest
      {
        var sid :| sid in rest;
        locks := locks - {sid};
        rest := rest - {sid};
      }
      assert locks == old(locks) - released;
      assert Table() == Spec.ReleaseAll(old(w.View()), conn).locks;
      assert w.OnScreen() == old(w.OnScreen());
    }
  }

  class SessionRegistry {
    var sessions: map<Sid, Session>
    var expiryTasks: map<Sid, nat>
    /** The event loop's side: tasks created and neither cancelled nor finished. */
    var armed: map<nat, Sid>
    var nextTask: nat

    constructor ()
      ensures Contents() == EMPTY && FreshTasks()
    {
      sessions, expiryTasks, armed, nextTask := map[], map[], map[], 0;
    }

    ghost function Contents(): Lot
      reads this
    {
      Lot(sessions, expiryTasks, armed)
    }

    ghost predicate FreshTasks()
      reads this
    {
      forall t :: t in armed ==> t < nextTask
    }

    /** `background` is the live connection a switch hands over, or nothing on disconnect. */
    method Park(sdk: Sdk, session: Session, background: Option<Conn>)
      requires FreshTasks()
      modifies this, sdk`route
      ensures FreshTasks()
      ensures Contents() == ParkingLot.Park(old(Contents()), session, old(nextTask))
      ensures sdk.route == old(sdk.route)[session := if background.Some? then Background(background.value) else Muted]
    {
      var sid := session.sid;
      if sid in expiryTasks {
        var task := expiryTasks[sid];
        expiryTasks := expiryTasks - {sid};
        armed := armed - {task};
      }
      if background.None? {
        sdk.route := sdk.route[session := Muted];
      } else {
        sdk.route := sdk.route[session := Background(background.value)];
      }
      sessions := sessions[sid := session];
      expiryTasks := expiryTasks[sid := nextTask];
      armed := armed[nextTask := sid];
      nextTask := nextTask + 1;
      assert expiryTasks == old(expiryTasks)[sid := old(nextTask)];
    }

    method Take(sid: Sid) returns (session: Option<Session>)
      requires FreshTasks()
      modifies this
      ensures FreshTasks() && nextTask == old(nextTask)
      ensures session == Get(old(sessions), sid)
      ensures Contents() == ParkingLot.Take(old(Contents()), sid)
    {
      session := Get(sessions, sid);
      sessions := sessions - {sid};
      if sid in expiryTasks {
        armed := armed - {expiryTasks[sid]};
      }
      expiryTasks := expiryTasks - {sid};
    }

    /** The event loop resumes a task after its sleep. */
    method Expire(sdk: Sdk, task: nat)
      requires FreshTasks()
      modifies this, sdk`stopped
      ensures FreshTasks()
      ensures Contents() == Fire(old(Contents()), task)
      ensures sdk.stopped == old(sdk.stopped) +
              (var s := Fired(old(Contents()), task); if s.Some? then {s.value} else {})
    {
      if task !in armed { return; }
      var sid := armed[task];
      armed := armed - {task};
      var session := Get(sessions, sid);
      sessions := sessions - {sid};
      expiryTasks := expiryTasks - {sid};
      if session.Some? {
        sdk.stopped := sdk.stopped + {session.value};
      }
    }

    method StopAll(sdk: Sdk)
      requires FreshTasks()
      modifies this, sdk`stopped
      ensures FreshTasks()
      ensures Contents() == ParkingLot.StopAll(old(Contents()))
      ensures sdk.stopped == old(sdk.stopped) + old(sessions).Values
    {
      armed := armed - expiryTasks.Values;
      expiryTasks := map[];
      var rest := sessions.Values;
      sessions := map[];
      while rest != {}
        modifies sdk`stopped
        invariant rest <= old(sessions).Values
        invariant sdk.stopped == old(sdk.stopped) + (old(sessions).Values - rest)
        decreases rest
      {
        var s :| s in rest;
        sdk.stopped := sdk.stopped + {s};
        rest := rest - {s};
      }
    }
  }

  class SessionManager {
    const connectionId: Conn
    const deviceLabel: string
    const lockTable: LockManager
    const registry: SessionRegistry
    const sdk: Sdk
    var current: Option<Session>

    constructor (connectionId: Conn, deviceLabel: string, lockTable: LockManager, registry: SessionRegistry, sdk: Sdk)
      ensures this.connectionId == connectionId && this.deviceLabel == deviceLabel
      ensures this.lockTable == lockTable && this.registry == registry && this.sdk == sdk
      ensures current == None
    {
      this.connectionId, this.deviceLabel := connectionId, deviceLabel;
      this.lockTable, this.registry, this.sdk := lockTable, registry, sdk;
      current := None;
    }

    function Caller(): Client { Client(connectionId, deviceLabel) }

    method Send(ghost w: Worker, msg: Msg)
      requires w.Valid() && w.Has(this)
      modifies sdk`sent
      ensures w.Valid() && w.View() == Spec.Send(old(w.View()), connectionId, msg)
      ensures sdk.sent == old(sdk.sent) + [(connectionId, msg)]
    {
      sdk.sent := sdk.sent + [(connectionId, msg)];
      assert w.OnScreen() == old(w.OnScreen());
    }

    /** The callback that runs when this connection's lock on `sid` is taken. */
    method OnRevoked(ghost w: Worker, sid: Sid)
      requires w.Valid() && w.Has(this)
      modifies sdk`sent, sdk`stopped, this
      ensures w.Valid() && w.View() == Revoke(old(w.View()), connectionId, sid)
    {
      Send(w, LockRevoked(sid));
      if current.Some? && current.value.sid == sid {
        sdk.stopped := sdk.stopped + {current.value};
        Hide(w);
      }
    }

    /** `registry.park` as the managers call it. */
    method Park(ghost w: Worker, session: Session, background: Option<Conn>)
      requires w.Valid() && w.Has(this)
      modifies registry, sdk`route
      ensures w.Valid()
      ensures w.View() == ParkAs(old(w.View()), session,
                                 if background.Some? then Background(background.value) else Muted,
                                 old(registry.nextTask))
    {
      registry.Park(sdk, session, background);
      assert w.OnScreen() == old(w.OnScreen());
    }

    method Hide(ghost w: Worker)
      requires w.Valid() && w.Has(this)
      modifies this
      ensures w.Valid() && current == None
      ensures w.View() == old(w.View()).(current := old(w.View()).current - {connectionId})
    {
      current := None;
      assert w.OnScreen() == old(w.OnScreen()) - {connectionId};
    }

    method ParkCurrent(ghost w: Worker)
      requires w.Valid() && w.Has(this)
      modifies lockTable, registry, sdk`route, this
      ensures w.Valid() && current == None
      ensures w.View() == Spec.ParkCurrent(old(w.View()), connectionId, old(registry.nextTask))
    {
      ghost var st := w.View();
      if current.Some? {
        var session := current.value;
        assert Get(st.current, connectionId) == Some(session);
        Park(w, session, Some(connectionId));
        var released := lockTable.Release(w, session.sid, connectionId);
        Hide(w);
      } else {
        assert connectionId !in st.current;
      }
    }

    /** `session.start()` and what follows it; a failure is reported by the message loop. */
    method Start(ghost w: Worker, session: Session, startOk: bool)
      requires w.Valid() && w.Has(this) && current == None
      modifies sdk, this
      ensures w.Valid()
      ensures w.View() == Spec.Start(old(w.View()), connectionId, session, startOk)
    {
      if startOk {
        sdk.started := sdk.started + {session};
        Show(w, session);
      } else {
        Send(w, InternalError);
      }
    }

    method Show(ghost w: Worker, session: Session)
      requires w.Valid() && w.Has(this)
      modifies sdk, this
      ensures w.Valid()
      ensures w.View() == Spec.Send(old(w.View()).(current := old(w.View()).current[connectionId := session],
                                                   route := old(w.View()).route[session := Attached(connectionId)]),
                                    connectionId, SessionStarted(session.sid))
    {
      ghost var st := w.View();
      sdk.route := sdk.route[session := Attached(connectionId)];
      current := Some(session);
      assert w.OnScreen() == st.current[connectionId := session];
      Send(w, SessionStarted(session.sid));
    }

    method NewSession(ghost w: Worker, cwdOk: bool, session: Session, startOk: bool)
      requires w.Valid() && w.Has(this)
      modifies lockTable, registry, sdk, w.managers.Values
      ensures w.Valid()
      ensures w.View() == Spec.NewSession(old(w.View()), Caller(), cwdOk, session, startOk, old(registry.nextTask))
    {
      hide LockManager.Available, LockManager.PriorOther;
      if !cwdOk {
        Send(w, CwdNotFound);
        return;
      }
      var acquired, _ := lockTable.TryAcquire(w, session.sid, this, false);
      if !acquired {
        Send(w, LockCollision);
        return;
      }
      ParkCurrent(w);
      Start(w, session, startOk);
    }

    /** `session` is the object that a full resume from disk would create. */
    method ResumeSession(ghost w: Worker, cwdOk: bool, session: Session, force: bool, startOk: bool)
      requires w.Valid() && w.Has(this)
      modifies lockTable, registry, sdk, w.managers.Values
      ensures w.Valid()
      ensures w.View() == Resume(old(w.View()), Caller(), cwdOk, session, force, startOk, old(registry.nextTask))
    {
      hide LockManager.Available, LockManager.PriorOther;
      if !cwdOk {
        Send(w, CwdNotFound);
        return;
      }
      ghost var st := w.View();
      var sid := session.sid;
      var parked := registry.Take(sid);
      assert w.View() == st.(lot := ParkingLot.Take(st.lot, sid)) by { assert w.OnScreen() == st.current; }
      if parked.Some? {
        Reattach(w, parked.value, force);
        return;
      }
      var acquired, existing := lockTable.TryAcquire(w, sid, this, force);
      if !acquired && existing.Some? {
        Send(w, SessionLocked(sid, existing.value.device));
        return;
      }
      ParkCurrent(w);
      Start(w, session, startOk);
    }

    /** The fast path of a resume, once the session is out of the registry. */
    method Reattach(ghost w: Worker, parked: Session, force: bool)
      requires w.Valid() && w.Has(this)
      modifies lockTable, registry, sdk, w.managers.Values
      ensures w.Valid()
      ensures w.View() == Spec.Reattach(old(w.View()), parked, Caller(), force, old(registry.nextTask))
    {
      hide LockManager.Available, LockManager.PriorOther;
      var acquired, existing := lockTable.TryAcquire(w, parked.sid, this, force);
      if !acquired && existing.Some? {
        Park(w, parked, None);
        Send(w, SessionLocked(parked.sid, existing.value.device));
        return;
      }
      ParkCurrent(w);
      Show(w, parked);
    }

    /** The socket is gone. */
    method Stop(ghost w: Worker)
      requires w.Valid() && w.Has(this)
      modifies lockTable, registry, sdk, this
      ensures w.Valid() && current == None
      ensures w.View() == Disconnect(old(w.View()), connectionId, old(registry.nextTask))
    {
      ghost var st := w.View();
      if current.Some? {
        Park(w, current.value, None);
        Hide(w);
      }
      var released := lockTable.ReleaseAllByConnection(w, connectionId);
    }
  }

  /** The process: one lock table, one registry, and a manager per connection so far. */
  class Worker {
    const lockTable: LockManager
    const registry: SessionRegistry
    const sdk: Sdk
    var managers: map<Conn, SessionManager>

    constructor ()
      ensures Valid() && View() == INITIAL && managers == map[]
    {
      lockTable := new LockManager();
      registry := new SessionRegistry();
      sdk := new Sdk();
      managers := map[];
      new;
      assert OnScreen() == map[];
      assert lockTable.Table() == map[];
    }

    ghost predicate Has(m: SessionManager)
      reads this
    {
      m.connectionId in managers && managers[m.connectionId] == m
    }

    ghost predicate Valid()
      reads this, lockTable, registry
    {
      && (forall c :: c in managers ==>
            && managers[c].connectionId == c && managers[c].lockTable == lockTable
            && managers[c].registry == registry && managers[c].sdk == sdk)
      && (forall sid :: sid in lockTable.locks ==>
            lockTable.locks[sid].conn in managers && managers[lockTable.locks[sid].conn] == lockTable.locks[sid].notify)
      && registry.FreshTasks()
    }

    ghost function OnScreen(): map<Conn, Session>
      reads this, managers.Values
    {
      map c | c in managers && managers[c].current.Some? :: managers[c].current.value
    }

    ghost function View(): State
      reads this, lockTable, registry, sdk, managers.Values
    {
      State(lockTable.Table(), registry.Contents(), OnScreen(), sdk.started, sdk.stopped, sdk.route, sdk.sent)
    }

    /** A browser connects. */
    method Connect(c: Conn, device: string) returns (m: SessionManager)
      requires Valid() && c !in managers
      modifies this
      ensures Valid() && Has(m) && m.connectionId == c && m.deviceLabel == device
      ensures managers == old(managers)[c := m] && View() == old(View())
    {
      m := new SessionManager(c, device, lockTable, registry, sdk);
      managers := managers[c := m];
      assert OnScreen() == old(OnScreen());
    }

    method Expire(task: nat)
      requires Valid()
      modifies registry, sdk
      ensures Valid() && View() == Spec.Expire(old(View()), task)
    {
      registry.Expire(sdk, task);
      assert OnScreen() == old(OnScreen());
    }

    method Shutdown()
      requires Valid()
      modifies registry, sdk
      ensures Valid() && View() == Spec.Shutdown(old(View()))
    {
      registry.StopAll(sdk);
      assert OnScreen() == old(OnScreen());
    }
  }
}
