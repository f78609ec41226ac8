/** The registry of parked sessions (shared/worker_shared/sdk/registry.py) as values: the
    table of parked sessions, the table of expiry tasks, and the tasks that are still going
    to run.  A task is an object of its own, so cancelling one and arming another for the
    same session id are told apart. */
module ParkingLot {
  import opened Wrappers

  type Sid = string

  /** A live agent session: the id it serves and the identity of the object. */
  datatype Session = Session(sid: Sid, obj: nat)

  /** `sessions` and `tasks` are the two dictionaries; `armed` holds the expiry tasks that
      were created and neither cancelled nor run, with the id each was created for. */
  datatype Lot = Lot(sessions: map<Sid, Session>, tasks: map<Sid, nat>, armed: map<nat, Sid>)

  const EMPTY := Lot(map[], map[], map[])

  function Get<K, V>(m: map<K, V>, k: K): Option<V> {
    if k in m then Some(m[k]) else None
  }

  /** Takes the expiry task registered for `sid`, if any, out of the armed ones. */
  function Cancel(lot: Lot, sid: Sid): map<nat, Sid> {
    if sid in lot.tasks then lot.armed - {lot.tasks[sid]} else lot.armed
  }

  function Park(lot: Lot, s: Session, task: nat): Lot {
    Lot(lot.sessions[s.sid := s], lot.tasks[s.sid := task], Cancel(lot, s.sid)[task := s.sid])
  }

  function Take(lot: Lot, sid: Sid): Lot {
    Lot(lot.sessions - {sid}, lot.tasks - {sid}, Cancel(lot, sid))
  }

  /** An expiry task wakes up after its sleep; a cancelled one does nothing. */
  function Fire(lot: Lot, task: nat): Lot {
    if task !in lot.armed then lot
    else Lot(lot.sessions - {lot.armed[task]}, lot.tasks - {lot.armed[task]}, lot.armed - {task})
  }

  /** The session that the waking task stops. */
  function Fired(lot: Lot, task: nat): Option<Session> {
    if task in lot.armed then Get(lot.sessions, lot.armed[task]) else None
  }

  function StopAll(lot: Lot): Lot {
    Lot(map[], map[], lot.armed - lot.tasks.Values)
  }

  /** The parked ids and the task ids coincide, and the armed tasks are exactly the
      registered ones, each for the id it is registered under. */
  ghost predicate Valid(lot: Lot) {
    && lot.sessions.Keys == lot.tasks.Keys
    && (forall sid :: sid in lot.sessions ==> lot.sessions[sid].sid == sid)
    && (forall sid :: sid in lot.tasks ==> Get(lot.armed, lot.tasks[sid]) == Some(sid))
    && (forall t :: t in lot.armed ==> Get(lot.tasks, lot.armed[t]) == Some(t))
  }

  // ----- runs -----

  datatype Event =
    | Parked(s: Session, task: nat)
    | Taken(sid: Sid)
    | Expired(task: nat)
    | AllStopped

  function Next(lot: Lot, e: Event): Lot {
    match e
    case Parked(s, task) => Park(lot, s, task)
    case Taken(sid) => Take(lot, sid)
    case Expired(task) => Fire(lot, task)
    case AllStopped => StopAll(lot)
  }

  function After(log: seq<Event>): Lot {
    if log == [] then EMPTY else Next(After(log[..|log| - 1]), log[|log| - 1])
  }

  /** Every parking makes a task of its own. */
  ghost predicate IsRun(log: seq<Event>) {
    forall j, k :: 0 <= j < k < |log| && log[j].Parked? && log[k].Parked? ==> log[j].task != log[k].task
  }

  /** Event `k` parked a session with this task, and nothing after it concerned that
      session's id or its expiry task. */
  ghost predicate StillParked(log: seq<Event>, k: int, task: nat) {
    && 0 <= k < |log| && log[k].Parked? && log[k].task == task
    && forall j :: k < j < |log| ==> !Touches(log[j], log[k].s.sid, task)
  }

  predicate Touches(e: Event, sid: Sid, task: nat) {
    match e
    case Parked(s, _) => s.sid == sid
    case Taken(id) => id == sid
    case Expired(t) => t == task
    case AllStopped => true
  }

  lemma ParkKeepsValid(lot: Lot, s: Session, task: nat)
    requires Valid(lot) && task !in lot.armed
    ensures Valid(Park(lot, s, task))
  {
    var next := Park(lot, s, task);
    forall t | t in next.armed ensures Get(next.tasks, next.armed[t]) == Some(t) {
      if t != task { assert t in lot.armed; }
    }
  }

  lemma TakeKeepsValid(lot: Lot, sid: Sid)
    requires Valid(lot)
    ensures Valid(Take(lot, sid))
  {
  }

  lemma FireKeepsValid(lot: Lot, task: nat)
    requires Valid(lot)
    ensures Valid(Fire(lot, task))
  {
  }

  lemma StopAllKeepsValid(lot: Lot)
    requires Valid(lot)
    ensures Valid(StopAll(lot))
  {
    forall t | t in lot.armed ensures t in lot.tasks.Values {
      assert lot.armed[t] in lot.tasks;
    }
  }

  lemma NextKeepsValid(lot: Lot, e: Event)
    requires Valid(lot) && (e.Parked? ==> e.task !in lot.armed)
    ensures Valid(Next(lot, e))
  {
    match e
    case Parked(s, task) => ParkKeepsValid(lot, s, task);
    case Taken(sid) => TakeKeepsValid(lot, sid);
    case Expired(task) => FireKeepsValid(lot, task);
    case AllStopped => StopAllKeepsValid(lot);
  }

  /** Armed tasks come from the parkings of the run. */
  lemma {:induction false} ArmedWereParked(log: seq<Event>, task: nat)
    requires task in After(log).armed
    ensures exists k :: 0 <= k < |log| && log[k].Parked? && log[k].task == task
  {
    var init, last := log[..|log| - 1], log[|log| - 1];
    if last.Parked? && last.task == task {
    } else {
      ArmedWereParked(init, task);
      var k :| 0 <= k < |init| && init[k].Parked? && init[k].task == task;
      assert log[k] == init[k];
    }
  }

  lemma {:induction false} RunsAreValid(log: seq<Event>)
    requires IsRun(log)
    ensures Valid(After(log))
  {
    if log != [] {
      var init, last := log[..|log| - 1], log[|log| - 1];
      RunsAreValid(init);
      if last.Parked? && last.task in After(init).armed { ArmedWereParked(init, last.task); }
      NextKeepsValid(After(init), last);
    }
  }

  lemma StillParkedEarlier(log: seq<Event>, k: int, task: nat)
    requires log != []
    ensures StillParked(log, k, task) && k < |log| - 1 ==>
              StillParked(log[..|log| - 1], k, task) && !Touches(log[|log| - 1], log[k].s.sid, task)
    ensures StillParked(log[..|log| - 1], k, task) && !Touches(log[|log| - 1], log[k].s.sid, task) ==>
              StillParked(log, k, task)
  {
  }

  /** The session of a parking that nothing has touched is in the table, under its task. */
  lemma {:induction false} UntouchedIsHeld(log: seq<Event>, k: int, task: nat)
    requires IsRun(log) && StillParked(log, k, task)
    ensures Get(After(log).armed, task) == Some(log[k].s.sid)
    ensures Get(After(log).sessions, log[k].s.sid) == Some(log[k].s)
    ensures Get(After(log).tasks, log[k].s.sid) == Some(task)
  {
    var init, last := log[..|log| - 1], log[|log| - 1];
    if k < |init| {
      StillParkedEarlier(log, k, task);
      UntouchedIsHeld(init, k, task);
      RunsAreValid(init);
      assert init[k] == log[k];
      assert last.Parked? ==> last.task != task;
    }
  }

  lemma {:induction false} ArmedIsUntouched(log: seq<Event>, task: nat) returns (k: int)
    requires IsRun(log) && task in After(log).armed
    ensures StillParked(log, k, task)
  {
    var init, last := log[..|log| - 1], log[|log| - 1];
    if last.Parked? && last.task == task {
      k := |log| - 1;
    } else {
      k := ArmedIsUntouched(init, task);
      UntouchedIsHeld(init, k, task);
      RunsAreValid(init);
      assert init[k] == log[k];
      StillParkedEarlier(log, k, task);
    }
  }

  /** In every run a task is armed if and only if it was made by a parking that nothing has
      touched since, and when it wakes up it stops exactly the session that was parked
      there: never one that was taken, or taken and parked again, in the meantime. */
  lemma ExpiryStopsItsOwnParking(log: seq<Event>, task: nat)
    requires IsRun(log)
    ensures task in After(log).armed <==> exists k :: StillParked(log, k, task)
    ensures forall k :: StillParked(log, k, task) ==> Fired(After(log), task) == Some(log[k].s)
  {
    if task in After(log).armed {
      var k := ArmedIsUntouched(log, task);
    }
    forall k | StillParked(log, k, task)
      ensures task in After(log).armed && Fired(After(log), task) == Some(log[k].s)
    {
      UntouchedIsHeld(log, k, task);
    }
  }

  /** A session that was taken is not stopped by any task until it is parked again. */
  lemma TakenIsNeverExpired(log: seq<Event>, sid: Sid, task: nat)
    requires IsRun(log + [Taken(sid)]) && task in After(log + [Taken(sid)]).armed
    ensures After(log + [Taken(sid)]).armed[task] != sid
  {
    RunsAreValid(log + [Taken(sid)]);
    assert (log + [Taken(sid)])[..|log + [Taken(sid)]| - 1] == log;
  }
}
