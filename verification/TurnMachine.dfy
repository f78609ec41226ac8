/** Turns of one Claude session (worker-claude/src/sdk/session.py): user prompts, the idle
    consolidation turn with suppressed output, the busy flag and one-shot approval.

    `send_prompt` and `_run_consolidation` await the client's `query` inside the session lock,
    so a step is what runs between two awaits: a waiter gets the lock and starts its query,
    the query returns or fails, a result arrives. */
module TurnMachine {
  import opened Wrappers

  datatype Turn = UserTurn | Upkeep

  /** Who asks for the lock. */
  datatype Waiter = Prompt(once: bool) | Consolidation

  /** The idle timer's task: not there or done, asleep, or past its sleep. */
  datatype Timer = Off | Armed | Running

  datatype Phase = Created | Live | Stopped

  /** `turns` is what the client was asked to run and has not finished; `holder` is whose
      query is awaited inside the lock; `knowledge` is the fixed configuration under which
      consolidation is wanted at all. */
  datatype State = State(
    knowledge: bool, phase: Phase, alive: bool, busy: bool, idle: bool,
    consolidating: bool, suppress: bool, dirty: bool, oneShot: bool,
    timer: Timer, holder: Option<Turn>, waiters: seq<Waiter>, turns: seq<Turn>)

  function Initial(knowledge: bool): State {
    State(knowledge, Created, false, false, true, false, false, false, false, Off, None, [], [])
  }

  // ----- steps -----

  function Start(s: State): State {
    if s.phase == Created then s.(phase := Live, alive := true) else s
  }

  /** The waiter has the lock: it is turned away, or its query starts. */
  function Enter(s: State, w: Waiter): State {
    match w
    case Prompt(once) =>
      if s.busy then s
      else s.(oneShot := s.oneShot || once, busy := true, idle := false,
              holder := Some(UserTurn), turns := s.turns + [UserTurn])
    case Consolidation =>
      if s.busy || s.consolidating then s.(timer := Off)
      else s.(consolidating := true, suppress := true, busy := true, idle := false,
              holder := Some(Upkeep), turns := s.turns + [Upkeep])
  }

  /** The lock is fair: a newcomer gets it only if it is free and nobody waits. */
  function Arrive(s: State, w: Waiter): State {
    if s.holder == None && s.waiters == [] then Enter(s, w) else s.(waiters := s.waiters + [w])
  }

  function SendPrompt(s: State, once: bool): State {
    if s.phase != Live then s else Arrive(s, Prompt(once))
  }

  function GrantLock(s: State): State {
    if s.holder == None && s.waiters != [] then Enter(s.(waiters := s.waiters[1..]), s.waiters[0]) else s
  }

  function LeaveLock(s: State): State {
    s.(holder := None, timer := if s.holder == Some(Upkeep) then Off else s.timer)
  }

  /** A rejected query never reached the client. A failing consolidation is rolled back; a
      failing prompt only raises. */
  function QueryFails(s: State): State {
    var left := LeaveLock(s).(turns := if s.turns == [] then [] else s.turns[..|s.turns| - 1]);
    if s.holder == Some(Upkeep)
    then left.(consolidating := false, suppress := false, busy := false, idle := true)
    else left
  }

  function NoConsolidation(waiters: seq<Waiter>): (r: seq<Waiter>)
    ensures Consolidation !in r
    ensures Consolidation !in waiters ==> r == waiters
  {
    if waiters == [] then []
    else if waiters[0] == Consolidation then NoConsolidation(waiters[1..])
    else [waiters[0]] + NoConsolidation(waiters[1..])
  }

  /** Cancelling it also takes it out of the lock or its queue. */
  function CancelTimer(s: State): State {
    if s.timer == Running
    then s.(timer := Off, waiters := NoConsolidation(s.waiters),
            holder := if s.holder == Some(Upkeep) then None else s.holder)
    else s.(timer := Off)
  }

  function Schedule(s: State): State {
    var c := CancelTimer(s);
    if c.knowledge && c.dirty then c.(timer := Armed) else c
  }

  function OnTurnEnd(s: State): State {
    if s.consolidating then s.(consolidating := false, suppress := false, dirty := false) else Schedule(s)
  }

  function Result(s: State): State {
    OnTurnEnd(s.(oneShot := false, busy := false, idle := true, turns := if s.turns == [] then [] else s.turns[1..]))
  }

  function TimerFires(s: State): State {
    if s.busy || s.consolidating || !s.dirty || s.phase != Live then s.(timer := Off)
    else Arrive(s.(timer := Running), Consolidation)
  }

  function StreamFails(s: State): State {
    s.(alive := false, busy := false, idle := true, oneShot := false)
  }

  function Stop(s: State): State {
    CancelTimer(s).(alive := false, phase := Stopped)
  }

  datatype Step =
    | DoStart
    | DoSendPrompt(once: bool)
    | DoGrantLock
    | DoQueryReturns
    | DoQueryFails
    | DoWork
    | DoResult
    | DoTimerFires
    | DoStreamFails
    | DoStreamEnds
    | DoStop

  function Do(s: State, step: Step): State {
    match step
    case DoStart => Start(s)
    case DoSendPrompt(once) => SendPrompt(s, once)
    case DoGrantLock => GrantLock(s)
    case DoQueryReturns => LeaveLock(s)
    case DoQueryFails => QueryFails(s)
    case DoWork => s.(dirty := true)
    case DoResult => Result(s)
    case DoTimerFires => TimerFires(s)
    case DoStreamFails => StreamFails(s)
    case DoStreamEnds => s.(alive := false)
    case DoStop => Stop(s)
  }

  /** What the client and the stream can do: work and results belong to a turn that was asked
      for, and a query fails only before its result. */
  predicate Enabled(s: State, step: Step) {
    match step
    case DoQueryReturns => s.holder.Some?
    case DoQueryFails => s.holder.Some? && s.turns != []
    case DoWork => s.alive && s.turns != []
    case DoResult => s.alive && s.turns != []
    case DoTimerFires => s.timer == Armed
    case DoStreamFails => s.alive
    case DoStreamEnds => s.alive
    case _ => true
  }

  // ----- the invariant -----

  predicate Flags(s: State) {
    && (s.idle <==> !s.busy)
    && (s.suppress <==> s.consolidating)
    && (s.oneShot ==> s.busy)
  }

  /** While the stream is read there is at most one turn, and the flags tell which. */
  predicate OneTurn(s: State) {
    && |s.turns| <= 1
    && (s.turns != [] ==> s.busy && (s.holder.Some? ==> s.holder == Some(s.turns[0])))
    && (s.busy && s.turns == [] ==> s.holder == None)
    && (s.consolidating <==> s.turns == [Upkeep])
    && (s.consolidating ==> !s.oneShot && s.dirty)
    && (s.timer == Armed ==> s.dirty && !s.consolidating)
    && (Consolidation in s.waiters ==> s.dirty && !s.consolidating)
  }

  /** The timer's task is in at most one place. */
  ghost predicate OneTask(s: State) {
    && (s.holder == Some(Upkeep) ==> !s.oneShot && s.timer == Running && Consolidation !in s.waiters)
    && (Consolidation in s.waiters ==> s.timer == Running)
    && (forall i, j :: 0 <= i < j < |s.waiters| && s.waiters[i] == Consolidation ==> s.waiters[j] != Consolidation)
  }

  ghost predicate Inv(s: State) {
    && Flags(s)
    && OneTask(s)
    && (s.alive ==> s.phase == Live && OneTurn(s))
    && (s.phase == Created ==> s == Initial(s.knowledge))
  }

  lemma EnterKeepsInv(s: State, w: Waiter)
    requires Inv(s) && s.phase != Created && s.holder == None
    requires w == Consolidation ==> s.timer == Running && Consolidation !in s.waiters && (s.alive ==> s.dirty)
    ensures Inv(Enter(s, w))
  {
  }

  lemma TakeHead(s: State)
    requires Inv(s) && s.waiters != []
    ensures var t := s.(waiters := s.waiters[1..]);
      Inv(t) && (s.waiters[0] == Consolidation ==> Consolidation !in t.waiters)
  {
  }

  lemma ArriveKeepsInv(s: State, w: Waiter)
    requires Inv(s) && s.phase == Live
    requires w == Consolidation ==> s.timer == Armed && !s.consolidating && (s.alive ==> s.dirty)
    ensures w == Consolidation ==> Inv(Arrive(s.(timer := Running), w))
    ensures w.Prompt? ==> Inv(Arrive(s, w))
  {
    hide Enter;
    if w == Consolidation {
      var t := s.(timer := Running);
      assert Consolidation !in s.waiters;
      if s.holder == None && s.waiters == [] { EnterKeepsInv(t, w); }
    } else if s.holder == None && s.waiters == [] {
      EnterKeepsInv(s, w);
    }
  }

  lemma CancelTimerKeepsInv(s: State)
    requires Inv(s) && s.phase != Created
    ensures Inv(CancelTimer(s))
  {
    if s.timer == Running {
      var waiters := NoConsolidation(s.waiters);
      assert forall i :: 0 <= i < |waiters| ==> waiters[i] in waiters;
    }
  }

  lemma ResultKeepsInv(s: State)
    requires Inv(s) && Enabled(s, DoResult)
    ensures Inv(Result(s))
  {
    var t := s.(oneShot := false, busy := false, idle := true, turns := s.turns[1..]);
    if !s.consolidating {
      CancelTimerKeepsInv(t);
    }
  }

  lemma QueryFailsKeepsInv(s: State)
    requires Inv(s) && Enabled(s, DoQueryFails)
    ensures Inv(QueryFails(s))
  {
  }

  lemma StepKeepsInv(s: State, step: Step)
    requires Inv(s) && Enabled(s, step)
    ensures Inv(Do(s, step))
  {
    hide Enter, CancelTimer, Result, QueryFails, Arrive;
    match step
    case DoSendPrompt(once) => if s.phase == Live { ArriveKeepsInv(s, Prompt(once)); }
    case DoGrantLock =>
      if s.holder == None && s.waiters != [] {
        TakeHead(s);
        EnterKeepsInv(s.(waiters := s.waiters[1..]), s.waiters[0]);
      }
    case DoQueryFails => QueryFailsKeepsInv(s);
    case DoResult => ResultKeepsInv(s);
    case DoTimerFires => if !(s.busy || s.consolidating || !s.dirty ||
        s.phase != Live) { ArriveKeepsInv(s, Consolidation); }
    case DoStop => StopKeepsInv(s);
    case _ =>
  }

  lemma StopKeepsInv(s: State)
    requires Inv(s)
    ensures Inv(Stop(s))
  {
    if s.phase == Created {
    } else {
      CancelTimerKeepsInv(s);
    }
  }

  // ----- runs -----

  function Final(knowledge: bool, run: seq<Step>): State {
    if run == [] then Initial(knowledge) else Do(Final(knowledge, run[..|run| - 1]), run[|run| - 1])
  }

  ghost predicate IsRun(knowledge: bool, run: seq<Step>) {
    run != [] ==>
      IsRun(knowledge, run[..|run| - 1]) && Enabled(Final(knowledge, run[..|run| - 1]), run[|run| - 1])
  }

  lemma {:induction false} RunKeepsInv(knowledge: bool, run: seq<Step>)
    requires IsRun(knowledge, run)
    ensures Inv(Final(knowledge, run))
  {
    if run != [] {
      RunKeepsInv(knowledge, run[..|run| - 1]);
      StepKeepsInv(Final(knowledge, run[..|run| - 1]), run[|run| - 1]);
    }
  }

  /** While the stream is read, an accepted prompt's turn runs alone: its output and result
      are shown, and whoever gets the lock meanwhile is turned away. */
  lemma UserTurnRunsAlone(knowledge: bool, run: seq<Step>, w: Waiter)
    requires IsRun(knowledge, run)
    ensures var s := Final(knowledge, run);
      s.alive && UserTurn in s.turns ==>
        s.turns == [UserTurn] && !s.suppress && s.busy && Enter(s, w).turns == s.turns
  {
    hide Final, IsRun, OneTask;
    RunKeepsInv(knowledge, run);
  }

  /** A consolidation turn runs alone too, suppressed and never with one-shot approval.  What
      suppression holds back is in ClaudeSession: task events and system messages still get
      out, and a reload shows the turn. */
  lemma UpkeepIsSuppressed(knowledge: bool, run: seq<Step>, w: Waiter)
    requires IsRun(knowledge, run)
    ensures var s := Final(knowledge, run);
      s.alive && Upkeep in s.turns ==>
        s.turns == [Upkeep] && s.suppress && !s.oneShot && !Enter(s, w).oneShot && Enter(s, w).turns == s.turns
  {
    hide Final, IsRun, OneTask;
    RunKeepsInv(knowledge, run);
  }

  /** The flags in every reachable state, also after the stream died. */
  lemma FlagsAgree(knowledge: bool, run: seq<Step>)
    requires IsRun(knowledge, run)
    ensures var s := Final(knowledge, run);
      && (s.idle <==> !s.busy) && (s.suppress <==> s.consolidating) && (s.oneShot ==> s.busy)
      && (s.alive && s.consolidating ==> s.busy)
  {
    hide Final, IsRun, OneTask;
    RunKeepsInv(knowledge, run);
  }

  /** A prompt that gets the lock of an idle session starts the only turn, shown, and with
      one-shot approval exactly if it asked for it: none is left over from before. */
  lemma AcceptedPrompt(s: State, once: bool)
    requires Inv(s) && s.alive && !s.busy
    ensures var t := Enter(s, Prompt(once));
      t.turns == [UserTurn] && t.busy && !t.idle && !t.suppress && (t.oneShot <==> once)
  {
  }

  /** That lasts from step to step until the turn's result, or until its query fails; the result
      ends the turn and the approval. */
  lemma KeptUntilItsResult(s: State, step: Step)
    requires Inv(s) && Enabled(s, step) && s.alive && s.turns == [UserTurn] && Do(s, step).alive
    ensures var t := Do(s, step);
      if step == DoResult then t.turns == [] && !t.oneShot && t.idle
      else PromptFails(s, step) || (t.turns == [UserTurn] && (t.oneShot <==> s.oneShot) && !t.suppress && !t.idle)
  {
    hide OneTask, NoConsolidation;
    match step
    case DoResult =>
    case DoQueryFails =>
    case DoGrantLock =>
    case _ =>
  }

  /** A user turn's result arms the idle timer exactly if there is work to consolidate.  When
      the timer fires, a consolidation starts or queues for the lock exactly if nothing runs
      and the work is still there, and one that queued starts exactly if nothing runs when
      its turn comes. */
  lemma WorkIsConsolidated(s: State)
    requires Inv(s)
    ensures Enabled(s, DoResult) && !s.consolidating ==> (Result(s).timer == Armed <==> s.knowledge && s.dirty)
    ensures var wanted := !s.busy && !s.consolidating && s.dirty && s.phase == Live;
            var free := s.holder == None && s.waiters == [];
      && (TimerFires(s).turns == s.turns + [Upkeep] <==> wanted && free)
      && (TimerFires(s).waiters == s.waiters + [Consolidation] <==> wanted && !free)
    ensures s.holder == None && s.waiters != [] && s.waiters[0] == Consolidation ==>
              (GrantLock(s).turns == s.turns + [Upkeep] <==> !s.busy && !s.consolidating)
  {
    assert |s.turns + [Upkeep]| == |s.turns| + 1 && |s.waiters + [Consolidation]| == |s.waiters| + 1;
  }

  // ----- causes over runs -----

  /** Some step of the run was a cause, and nothing undid it since. */
  ghost predicate Since(knowledge: bool, run: seq<Step>, cause: (State, Step) -> bool, undo: Step -> bool) {
    exists k :: 0 <= k < |run| && CausedAt(knowledge, run, k, cause) && NoneAfter(run, k, undo)
  }

  ghost predicate CausedAt(knowledge: bool, run: seq<Step>, k: int, cause: (State, Step) -> bool)
    requires 0 <= k < |run|
  {
    cause(Final(knowledge, run[..k]), run[k])
  }

  ghost predicate NoneAfter(run: seq<Step>, k: int, undo: Step -> bool) {
    forall j :: k < j < |run| && 0 <= j ==> !undo(run[j])
  }

  predicate Never(step: Step) { false }

  lemma SinceByStep(knowledge: bool, run: seq<Step>, cause: (State, Step) -> bool, undo: Step -> bool)
    requires run != []
    ensures var init, last := run[..|run| - 1], run[|run| - 1];
      Since(knowledge, run, cause, undo) <==>
        cause(Final(knowledge, init), last) || (Since(knowledge, init, cause, undo) && !undo(last))
  {
    hide Final;
    var n := |run| - 1;
    var init := run[..n];
    assert forall k :: 0 <= k < n ==> init[..k] == run[..k] && init[k] == run[k];
    assert forall k :: 0 <= k < n ==> (CausedAt(knowledge, init, k, cause) <==> CausedAt(knowledge, run, k, cause));
    if Since(knowledge, init, cause, undo) && !undo(run[n]) {
      var k :| 0 <= k < n && CausedAt(knowledge, init, k, cause) && NoneAfter(init, k, undo);
      assert CausedAt(knowledge, run, k, cause) && NoneAfter(run, k, undo);
    }
    if cause(Final(knowledge, init), run[n]) {
      assert CausedAt(knowledge, run, n, cause) && NoneAfter(run, n, undo);
    }
    if Since(knowledge, run, cause, undo) {
      var k :| 0 <= k < |run| && CausedAt(knowledge, run, k, cause) && NoneAfter(run, k, undo);
      if k < n { assert CausedAt(knowledge, init, k, cause) && NoneAfter(init, k, undo) && !undo(run[n]); }
    }
  }

  lemma FinalSnoc(knowledge: bool, run: seq<Step>, step: Step)
    ensures Final(knowledge, run + [step]) == Do(Final(knowledge, run), step)
    ensures IsRun(knowledge, run + [step]) <==> IsRun(knowledge, run) && Enabled(Final(knowledge, run), step)
  {
    hide Do, Enabled;
    assert (run + [step])[..|run + [step]| - 1] == run;
  }

  // ----- how long a turn and its approval last -----

  /** Cancelling the timer touches the timer's task only. */
  lemma CancelTimerIsLocal(s: State)
    ensures var t := CancelTimer(s);
      t.alive == s.alive && t.phase == s.phase && t.busy == s.busy && t.oneShot == s.oneShot
      && t.consolidating == s.consolidating && t.turns == s.turns && t.dirty == s.dirty
      && t.knowledge == s.knowledge
      && t.holder == if s.timer == Running && s.holder == Some(Upkeep) then None else s.holder
  {
    hide NoConsolidation;
    if s.timer == Running {
    } else {
    }
  }

  lemma ResultEndsTurn(s: State)
    ensures var t := Result(s); t.alive == s.alive && t.phase == s.phase && !t.busy && !t.oneShot
  {
    hide CancelTimer;
    var t := s.(oneShot := false, busy := false, idle := true, turns := if s.turns == [] then [] else s.turns[1..]);
    CancelTimerIsLocal(t);
  }

  /** A turn that is under way after j steps is still the only one, shown and busy, with the
      approval it had, until one of the steps since is its result or the failure of its query. */
  lemma {:induction false} UntilItsResult(knowledge: bool, run: seq<Step>, j: nat)
    requires IsRun(knowledge, run) && j <= |run| && Final(knowledge, run).alive
    requires Final(knowledge, run[..j]).alive && Final(knowledge, run[..j]).turns == [UserTurn]
    requires forall k :: j <= k < |run| ==> run[k] != DoResult && !PromptFails(Final(knowledge, run[..k]), run[k])
    ensures var s, t := Final(knowledge, run[..j]), Final(knowledge, run);
      t.turns == [UserTurn] && (t.oneShot <==> s.oneShot) && !t.suppress && t.busy && !t.idle
  {
    hide Do, Enabled, PromptFails, Inv;
    if j == |run| {
      assert run[..j] == run;
      UserTurnRunsAlone(knowledge, run, Consolidation);
      FlagsAgree(knowledge, run);
    } else {
      var init := run[..|run| - 1];
      assert init[..j] == run[..j];
      assert forall k :: j <= k < |init| ==> init[..k] == run[..k] && init[k] == run[k];
      AliveBefore(knowledge, run, j);
      RunKeepsInv(knowledge, init);
      UntilItsResult(knowledge, init, j);
      KeptUntilItsResult(Final(knowledge, init), run[|run| - 1]);
      FlagsAgree(knowledge, run);
    }
  }

  lemma {:induction false} StaysStarted(knowledge: bool, run: seq<Step>, j: nat)
    requires j <= |run| && Final(knowledge, run[..j]).phase != Created
    ensures Final(knowledge, run).phase != Created
  {
    hide Do;
    if j == |run| {
      assert run[..j] == run;
    } else {
      var init := run[..|run| - 1];
      assert init[..j] == run[..j];
      StaysStarted(knowledge, init, j);
      PhaseByStep(Final(knowledge, init), run[|run| - 1]);
    }
  }

  lemma EnterIsLocal(s: State, w: Waiter)
    ensures Enter(s, w).phase == s.phase && Enter(s, w).alive == s.alive
    ensures Enter(s, w).oneShot <==> s.oneShot || (w.Prompt? && w.once && !s.busy)
  {
  }

  lemma ArriveIsLocal(s: State, w: Waiter)
    ensures Arrive(s, w).phase == s.phase && Arrive(s, w).alive == s.alive
    ensures Arrive(s, w).oneShot <==>
              s.oneShot || (w.Prompt? && w.once && !s.busy && s.holder == None && s.waiters == [])
  {
    hide Enter;
    EnterIsLocal(s, w);
  }

  lemma AskIsLocal(s: State, once: bool)
    ensures var t := SendPrompt(s, once);
      t.phase == s.phase && t.alive == s.alive && (t.oneShot <==> s.oneShot || Arms(s, DoSendPrompt(once)))
    ensures var t := TimerFires(s); t.phase == s.phase && t.alive == s.alive && t.oneShot == s.oneShot
  {
    hide Arrive;
    ArriveIsLocal(s, Prompt(once));
    ArriveIsLocal(s.(timer := Running), Consolidation);
  }

  lemma GrantIsLocal(s: State)
    ensures var t := GrantLock(s);
      t.phase == s.phase && t.alive == s.alive && (t.oneShot <==> s.oneShot || Arms(s, DoGrantLock))
  {
    hide Enter;
    if s.waiters != [] { EnterIsLocal(s.(waiters := s.waiters[1..]), s.waiters[0]); }
  }

  lemma FailureIsLocal(s: State)
    ensures var t := QueryFails(s); t.phase == s.phase && t.alive == s.alive && t.oneShot == s.oneShot
  {
    if s.holder == Some(Upkeep) {
    } else {
    }
  }

  lemma PhaseByStep(s: State, step: Step)
    ensures s.phase != Created ==> Do(s, step).phase != Created && (Do(s, step).alive ==> s.alive)
  {
    hide CancelTimer, Result, SendPrompt, GrantLock, TimerFires, QueryFails;
    match step
    case DoSendPrompt(once) => AskIsLocal(s, once);
    case DoTimerFires => AskIsLocal(s, false);
    case DoGrantLock => GrantIsLocal(s);
    case DoResult => ResultEndsTurn(s);
    case DoStop => CancelTimerIsLocal(s);
    case DoQueryFails => FailureIsLocal(s);
    case _ =>
  }

  /** A stream that was read at some point and is read now was read in between. */
  lemma AliveBefore(knowledge: bool, run: seq<Step>, j: nat)
    requires IsRun(knowledge, run) && j < |run|
    requires Final(knowledge, run[..j]).alive && Final(knowledge, run).alive
    ensures Final(knowledge, run[..|run| - 1]).alive
  {
    hide Do, Enabled, Inv;
    var init := run[..|run| - 1];
    assert init[..j] == run[..j];
    IsRunPrefix(knowledge, init, j);
    AliveIsLive(knowledge, init[..j]);
    StaysStarted(knowledge, init, j);
    PhaseByStep(Final(knowledge, init), run[|run| - 1]);
  }

  lemma {:induction false} IsRunPrefix(knowledge: bool, run: seq<Step>, j: nat)
    requires IsRun(knowledge, run) && j <= |run|
    ensures IsRun(knowledge, run[..j])
  {
    hide Final, Enabled;
    if j == |run| {
      assert run[..j] == run;
    } else {
      assert run[..|run| - 1][..j] == run[..j];
      IsRunPrefix(knowledge, run[..|run| - 1], j);
    }
  }

  lemma AliveIsLive(knowledge: bool, run: seq<Step>)
    requires IsRun(knowledge, run) && Final(knowledge, run).alive
    ensures Final(knowledge, run).phase == Live
  {
    RunKeepsInv(knowledge, run);
  }

  /** A prompt that asks for one-shot approval is accepted. */
  predicate Arms(s: State, step: Step) {
    PromptEnters(s, step) &&
    match step
    case DoSendPrompt(once) => once
    case DoGrantLock => s.waiters[0].once
    case _ => false
  }

  predicate Disarms(step: Step) { step == DoResult || step == DoStreamFails }

  lemma ArmedByStep(s: State, step: Step)
    ensures Do(s, step).oneShot <==> Arms(s, step) || (s.oneShot && !Disarms(step))
  {
    hide CancelTimer, Result, SendPrompt, GrantLock, TimerFires, QueryFails;
    match step
    case DoSendPrompt(once) => AskIsLocal(s, once);
    case DoTimerFires => AskIsLocal(s, false);
    case DoGrantLock => GrantIsLocal(s);
    case DoResult => ResultEndsTurn(s);
    case DoStop => CancelTimerIsLocal(s);
    case DoQueryFails => FailureIsLocal(s);
    case _ =>
  }

  /** Over all runs: one-shot approval is on exactly when some accepted prompt asked for it and
      neither a result nor an error of the stream came since. */
  lemma {:induction false} ApprovedIff(knowledge: bool, run: seq<Step>)
    ensures Final(knowledge, run).oneShot <==> Since(knowledge, run, Arms, Disarms)
  {
    hide Do, Arms, Disarms;
    if run != [] {
      hide Since;
      ApprovedIff(knowledge, run[..|run| - 1]);
      ArmedByStep(Final(knowledge, run[..|run| - 1]), run[|run| - 1]);
      SinceByStep(knowledge, run, Arms, Disarms);
    }
  }

  // ----- the timer's task -----

  /** Past its sleep, the task has the lock or waits for it. */
  predicate InPlace(s: State) { s.timer == Running ==> s.holder == Some(Upkeep) || Consolidation in s.waiters }

  lemma GrantKeepsPlace(s: State)
    requires Inv(s) && InPlace(s)
    ensures InPlace(GrantLock(s)) && (GrantLock(s).timer == Armed <==> s.timer == Armed)
  {
    if s.holder == None && s.waiters != [] {
      TakeHead(s);
      if s.waiters[0] != Consolidation && Consolidation in s.waiters { assert Consolidation in s.waiters[1..]; }
    }
  }

  lemma ArrivalKeepsPlace(s: State, step: Step)
    requires Inv(s) && InPlace(s) && (step.DoSendPrompt? || (step == DoTimerFires && s.timer == Armed))
    ensures InPlace(Do(s, step)) && (Do(s, step).timer == Armed <==> step.DoSendPrompt? && s.timer == Armed)
  {
    if step.DoSendPrompt? { assert Consolidation in s.waiters ==> Consolidation in s.waiters + [Prompt(step.once)]; }
  }

  lemma CancelledHasNoPlace(s: State)
    ensures CancelTimer(s).timer == Off
  {
    hide NoConsolidation;
  }

  predicate Schedules(s: State, step: Step) { step == DoResult && !s.consolidating && s.knowledge && s.dirty }

  predicate Unschedules(step: Step) { step in {DoResult, DoTimerFires, DoStop} }

  lemma TimerByStep(s: State, step: Step)
    requires Inv(s) && Enabled(s, step) && InPlace(s)
    ensures InPlace(Do(s, step))
    ensures Do(s, step).timer == Armed <==> Schedules(s, step) || (s.timer == Armed && !Unschedules(step))
  {
    hide CancelTimer, SendPrompt, GrantLock, TimerFires;
    match step
    case DoSendPrompt(once) => ArrivalKeepsPlace(s, step);
    case DoTimerFires => ArrivalKeepsPlace(s, step);
    case DoGrantLock => GrantKeepsPlace(s);
    case DoResult =>
      var t := s.(oneShot := false, busy := false, idle := true, turns := s.turns[1..]);
      CancelledHasNoPlace(t);
      CancelTimerIsLocal(t);
    case DoStop => CancelledHasNoPlace(s);
    case _ =>
  }

  /** Over all runs: the timer's task sleeps exactly if a result left work to consolidate and
      since then no other result came, it did not fire, and the session was not stopped.  It is
      past its sleep exactly while the consolidation has the lock or waits for it, so no task is
      left over. */
  lemma {:induction false} TimerIff(knowledge: bool, run: seq<Step>)
    requires IsRun(knowledge, run)
    ensures var s := Final(knowledge, run);
      && (s.timer == Armed <==> Since(knowledge, run, Schedules, Unschedules))
      && (s.timer == Running <==> s.holder == Some(Upkeep) || Consolidation in s.waiters)
  {
    hide Do, Enabled, Schedules, Unschedules, Since, Flags, OneTurn;
    RunKeepsInv(knowledge, run);
    if run == [] {
      NothingSince(knowledge, Schedules, Unschedules);
    } else {
      var init := run[..|run| - 1];
      TimerIff(knowledge, init);
      RunKeepsInv(knowledge, init);
      TimerByStep(Final(knowledge, init), run[|run| - 1]);
      SinceByStep(knowledge, run, Schedules, Unschedules);
    }
  }

  lemma NothingSince(knowledge: bool, cause: (State, Step) -> bool, undo: Step -> bool)
    ensures !Since(knowledge, [], cause, undo)
  {
  }

  // ----- phases -----

  predicate Starts(s: State, step: Step) { step == DoStart && s.phase == Created }

  /** The stream raises or ends, or the session is stopped. */
  predicate Dies(step: Step) { step in {DoStreamFails, DoStreamEnds, DoStop} }

  lemma PhaseStep(s: State, step: Step)
    ensures Do(s, step).alive <==> Starts(s, step) || (s.alive && !Dies(step))
    ensures Do(s, step).phase == if step == DoStop then Stopped
                                 else if step == DoStart && s.phase == Created then Live
                                 else s.phase
  {
    hide CancelTimer, Result, SendPrompt, GrantLock, TimerFires, QueryFails;
    match step
    case DoSendPrompt(once) => AskIsLocal(s, once);
    case DoTimerFires => AskIsLocal(s, false);
    case DoGrantLock => GrantIsLocal(s);
    case DoResult => ResultEndsTurn(s);
    case DoStop => CancelTimerIsLocal(s);
    case DoQueryFails => FailureIsLocal(s);
    case _ =>
  }

  /** Over all runs: a session is live from its start until it is stopped, and its stream is read
      from the start until it raises or ends, or the session is stopped. */
  lemma {:induction false} PhaseIff(knowledge: bool, run: seq<Step>)
    ensures var s := Final(knowledge, run);
      && (s.phase == Stopped <==> DoStop in run)
      && (s.phase == Created <==> DoStop !in run && DoStart !in run)
      && (s.alive <==> Since(knowledge, run, Starts, Dies))
  {
    hide Do, Starts, Dies, Since;
    if run == [] {
      NothingSince(knowledge, Starts, Dies);
    } else {
      SinceByStep(knowledge, run, Starts, Dies);
      var init, last := run[..|run| - 1], run[|run| - 1];
      PhaseIff(knowledge, init);
      PhaseStep(Final(knowledge, init), last);
      assert run == init + [last];
    }
  }

  // ----- a consolidation that nothing will end -----

  /** The stream is dead and a consolidation is on record whose query is over: no result will
      come to end it. */
  predicate LeftOver(s: State) { !s.alive && s.consolidating && s.holder != Some(Upkeep) }

  /** The stream dies during a consolidation but outside its query, the query returns on a
      dead stream, or the session is stopped. */
  predicate LeavesOver(s: State, step: Step) {
    s.consolidating &&
    match step
    case DoStreamFails => s.holder != Some(Upkeep)
    case DoStreamEnds => s.holder != Some(Upkeep)
    case DoQueryReturns => s.holder == Some(Upkeep) && !s.alive
    case DoStop => true
    case _ => false
  }

  /** The few facts of the invariant that single steps need. */
  lemma Facts(s: State)
    requires Inv(s)
    ensures s.holder == Some(Upkeep) ==> s.timer == Running
    ensures s.phase == Created ==> s == Initial(s.knowledge)
    ensures s.alive && s.busy && s.turns == [] ==> s.holder == None
  {
  }

  lemma LeftOverByArrival(s: State, w: Waiter)
    ensures s.holder == None ==> (LeftOver(Enter(s, w)) <==> LeftOver(s))
    ensures LeftOver(Arrive(s, w)) <==> LeftOver(s)
  {
  }

  lemma LeftOverByLock(s: State, once: bool)
    ensures LeftOver(SendPrompt(s, once)) <==> LeftOver(s)
    ensures LeftOver(GrantLock(s)) <==> LeftOver(s)
    ensures LeftOver(TimerFires(s)) <==> LeftOver(s)
  {
    hide Enter, Arrive;
    LeftOverByArrival(s, Prompt(once));
    LeftOverByArrival(s.(timer := Running), Consolidation);
    if s.waiters != [] { LeftOverByArrival(s.(waiters := s.waiters[1..]), s.waiters[0]); }
  }

  lemma LeftOverByStep(s: State, step: Step)
    requires Inv(s) && Enabled(s, step)
    ensures LeftOver(Do(s, step)) <==> LeavesOver(s, step) || (LeftOver(s) && !Never(step))
  {
    hide Inv, SendPrompt, GrantLock, TimerFires, CancelTimer, Result;
    Facts(s);
    match step
    case DoSendPrompt(once) => LeftOverByLock(s, once);
    case DoGrantLock => LeftOverByLock(s, false);
    case DoTimerFires => LeftOverByLock(s, false);
    case DoResult => ResultEndsTurn(s);
    case DoStop => CancelTimerIsLocal(s);
    case DoQueryReturns =>
    case DoQueryFails =>
    case DoStreamFails =>
    case DoStreamEnds =>
    case _ =>
  }

  /** A consolidation is left over exactly when one of those steps made it so; from then on,
      for good: output stays suppressed, and no consolidation's query is ever awaited again. */
  lemma {:induction false} LeftOverIff(knowledge: bool, run: seq<Step>)
    requires IsRun(knowledge, run)
    ensures LeftOver(Final(knowledge, run)) <==> Since(knowledge, run, LeavesOver, Never)
    ensures LeftOver(Final(knowledge, run)) ==>
        Final(knowledge, run).suppress && Final(knowledge, run).holder != Some(Upkeep)
  {
    RunKeepsInv(knowledge, run);
    hide Do, Enabled, LeavesOver, OneTask, OneTurn, Never;
    if run != [] {
      hide Since, LeftOver, Inv;
      LeftOverIff(knowledge, run[..|run| - 1]);
      RunKeepsInv(knowledge, run[..|run| - 1]);
      LeftOverByStep(Final(knowledge, run[..|run| - 1]), run[|run| - 1]);
      SinceByStep(knowledge, run, LeavesOver, Never);
    }
  }

  /** A left-over consolidation outlives its stream for good: in every later state output is
      suppressed, and whoever asks for a consolidation starts none. */
  lemma {:induction false} ConsolidationOutlivesItsStream(knowledge: bool, run: seq<Step>, j: nat)
    requires IsRun(knowledge, run) && j <= |run| && LeftOver(Final(knowledge, run[..j]))
    ensures var s := Final(knowledge, run);
      LeftOver(s) && s.suppress && Enter(s, Consolidation).turns == s.turns &&
          Enter(s, Consolidation).holder != Some(Upkeep)
  {
    RunKeepsInv(knowledge, run);
    if j == |run| {
      assert run[..j] == run;
    } else {
      hide Do, Inv, Enabled, LeftOver, LeavesOver, Enter;
      var init := run[..|run| - 1];
      assert init[..j] == run[..j];
      RunKeepsInv(knowledge, init);
      ConsolidationOutlivesItsStream(knowledge, init, j);
      LeftOverByStep(Final(knowledge, init), run[|run| - 1]);
    }
    LeftOverRefuses(Final(knowledge, run));
  }

  lemma LeftOverRefuses(s: State)
    requires Inv(s) && LeftOver(s)
    ensures s.suppress && Enter(s, Consolidation).turns == s.turns && Enter(s, Consolidation).holder != Some(Upkeep)
  {
  }

  // ----- when the session gets stuck -----

  /** Busy with nothing running: every prompt is refused and no result will end it. */
  predicate Stuck(s: State) { s.busy && s.turns == [] }

  predicate PromptFails(s: State, step: Step) {
    step == DoQueryFails && s.holder == Some(UserTurn)
  }

  /** Not yet started, or its stream is read. */
  predicate Sound(s: State) { s.phase == Created || s.alive }

  lemma FailureSticks(s: State)
    requires Flags(s) && OneTurn(s) && Enabled(s, DoQueryFails)
    ensures Stuck(QueryFails(s)) <==> s.holder == Some(UserTurn)
  {
    assert s.turns[..|s.turns| - 1] == [];
    match s.holder.value
    case UserTurn =>
    case Upkeep =>
  }

  lemma StuckByStep(s: State, step: Step)
    requires Inv(s) && Enabled(s, step) && Sound(Do(s, step))
    ensures Sound(s)
    ensures Stuck(Do(s, step)) <==> Stuck(s) || PromptFails(s, step)
  {
    hide NoConsolidation, OneTask;
    match step
    case DoSendPrompt(once) =>
      assert s.holder == None && s.waiters == [] ==> !Stuck(Enter(s, Prompt(once))) || Stuck(s);
    case DoGrantLock =>
    case DoTimerFires =>
    case DoResult =>
    case DoQueryFails => FailureSticks(s);
    case _ =>
  }

  /** Until the stream dies, the session is stuck exactly when some prompt's query failed. */
  lemma {:induction false} StuckIffAPromptFailed(knowledge: bool, run: seq<Step>)
    requires IsRun(knowledge, run) && Sound(Final(knowledge, run))
    ensures Stuck(Final(knowledge, run)) <==> Since(knowledge, run, PromptFails, Never)
  {
    hide Do, Inv, Enabled, PromptFails, Sound;
    if run != [] {
      hide Stuck, Since;
      RunKeepsInv(knowledge, run[..|run| - 1]);
      StuckByStep(Final(knowledge, run[..|run| - 1]), run[|run| - 1]);
      StuckIffAPromptFailed(knowledge, run[..|run| - 1]);
      SinceByStep(knowledge, run, PromptFails, Never);
    }
  }

  /** Busy, and no result or failing consolidation will end it: the stream is read but nothing
      runs, or it is not read and no consolidation's query is awaited. */
  predicate Hung(s: State) {
    s.busy && if s.alive then s.turns == [] else s.holder != Some(Upkeep)
  }

  /** A prompt gets the lock of a session that is not busy. */
  predicate PromptEnters(s: State, step: Step) {
    && !s.busy && s.holder == None
    && match step
       case DoSendPrompt(_) => s.phase == Live && s.waiters == []
       case DoGrantLock => s.waiters != [] && s.waiters[0].Prompt?
       case _ => false
  }

  /** A prompt's query fails while the stream is read; the stream ends or the session is
      stopped while busy; or, on a dead stream, a prompt is accepted or a consolidation's
      query returns. */
  predicate Hangs(s: State, step: Step) {
    match step
    case DoQueryFails => s.alive && s.holder == Some(UserTurn)
    case DoStreamEnds => s.busy && s.holder != Some(Upkeep)
    case DoStop => s.busy
    case DoQueryReturns => s.busy && !s.alive && s.holder == Some(Upkeep)
    case _ => !s.alive && PromptEnters(s, step)
  }

  predicate Breaks(step: Step) { step == DoStreamFails }

  lemma HungByEntry(s: State, w: Waiter)
    requires s.holder == None
    ensures Hung(Enter(s, w)) <==> Hung(s) || (w.Prompt? && !s.busy && !s.alive)
  {
  }

  lemma HungByArrival(s: State, w: Waiter)
    ensures Hung(Arrive(s, w)) <==> Hung(s) || (w.Prompt? && !s.busy && !s.alive && s.holder == None && s.waiters == [])
  {
    hide Enter;
    if s.holder == None { HungByEntry(s, w); }
  }

  lemma HungByGrant(s: State)
    ensures Hung(GrantLock(s)) <==> Hung(s) || (!s.alive && PromptEnters(s, DoGrantLock))
  {
    hide Enter;
    if s.holder == None && s.waiters != [] {
      HungByEntry(s.(waiters := s.waiters[1..]), s.waiters[0]);
    }
  }

  lemma HungBySend(s: State, once: bool)
    ensures Hung(SendPrompt(s, once)) <==> Hung(s) || (!s.alive && PromptEnters(s, DoSendPrompt(once)))
    ensures Hung(TimerFires(s)) <==> Hung(s)
  {
    hide Arrive;
    HungByArrival(s, Prompt(once));
    HungByArrival(s.(timer := Running), Consolidation);
  }

  lemma HungByStep(s: State, step: Step)
    requires Inv(s) && Enabled(s, step)
    ensures Hung(Do(s, step)) <==> Hangs(s, step) || (Hung(s) && !Breaks(step))
  {
    hide Inv, SendPrompt, TimerFires, GrantLock, CancelTimer, Result, QueryFails;
    Facts(s);
    match step
    case DoSendPrompt(once) => HungBySend(s, once);
    case DoGrantLock => HungByGrant(s);
    case DoTimerFires => HungBySend(s, false);
    case DoQueryFails => HungByFailure(s);
    case DoResult => ResultEndsTurn(s);
    case DoStop => CancelTimerIsLocal(s);
    case DoQueryReturns =>
    case DoStreamFails =>
    case DoStreamEnds =>
    case _ =>
  }

  lemma HungByFailure(s: State)
    requires Inv(s) && Enabled(s, DoQueryFails)
    ensures Hung(QueryFails(s)) <==> Hangs(s, DoQueryFails) || Hung(s)
  {
    hide OneTask;
    if s.alive { FailureSticks(s); }
  }

  /** Over all runs, whether or not the stream lives: the session hangs exactly when one of
      those steps happened and the stream did not break with an error since, which is the one
      thing that still clears the busy flag. */
  lemma {:induction false} HungIff(knowledge: bool, run: seq<Step>)
    requires IsRun(knowledge, run)
    ensures Hung(Final(knowledge, run)) <==> Since(knowledge, run, Hangs, Breaks)
  {
    hide Do, Inv, Enabled, Hangs, Breaks;
    if run != [] {
      hide Hung, Since;
      RunKeepsInv(knowledge, run[..|run| - 1]);
      HungByStep(Final(knowledge, run[..|run| - 1]), run[|run| - 1]);
      HungIff(knowledge, run[..|run| - 1]);
      SinceByStep(knowledge, run, Hangs, Breaks);
    }
  }

  // ----- the failing inputs -----

  ghost predicate Reaches(knowledge: bool, run: seq<Step>, s: State) {
    IsRun(knowledge, run) && Final(knowledge, run) == s
  }

  lemma Extends(knowledge: bool, run: seq<Step>, s: State, step: Step)
    requires Reaches(knowledge, run, s) && Enabled(s, step)
    ensures Reaches(knowledge, run + [step], Do(s, step))
  {
    hide Do, Enabled;
    FinalSnoc(knowledge, run, step);
  }

  const STARTED := State(true, Live, true, false, true, false, false, false, false, Off, None, [], [])
  const PROMPTED := STARTED.(busy := true, idle := false, holder := Some(UserTurn), turns := [UserTurn])
  const WORKED := STARTED.(dirty := true, timer := Armed)
  const CONSOLIDATING := WORKED.(busy := true, idle := false, consolidating := true, suppress := true,
                                 timer := Running, holder := Some(Upkeep), turns := [Upkeep])

  const PROMPT := [DoStart, DoSendPrompt(false)]
  const WORK := PROMPT + [DoQueryReturns, DoWork, DoResult]

  lemma ReachesPrompted()
    ensures Reaches(true, PROMPT, PROMPTED)
  {
    assert Reaches(true, [], Initial(true));
    Extends(true, [], Initial(true), DoStart);
    assert [] + [DoStart] == [DoStart];
    Extends(true, [DoStart], STARTED, DoSendPrompt(false));
    assert PROMPT == [DoStart] + [DoSendPrompt(false)];
  }

  lemma ReachesWorked()
    ensures Reaches(true, WORK, WORKED)
  {
    hide Reaches;
    ReachesPrompted();
    Extends(true, PROMPT, PROMPTED, DoQueryReturns);
    Extends(true, PROMPT + [DoQueryReturns], PROMPTED.(holder := None), DoWork);
    Extends(true, PROMPT + [DoQueryReturns] + [DoWork], PROMPTED.(holder := None, dirty := true), DoResult);
    assert WORK == PROMPT + [DoQueryReturns] + [DoWork] + [DoResult];
    assert [UserTurn][1..] == [];
  }

  /** A prompt whose query raises: busy with nothing running, and the next one is refused. */
  lemma FailedPromptSticks()
    ensures var s := PROMPTED.(holder := None, turns := []);
      && Reaches(true, PROMPT + [DoQueryFails], s)
      && s.alive && Stuck(s) && SendPrompt(s, false) == s
  {
    ReachesPrompted();
    Extends(true, PROMPT, PROMPTED, DoQueryFails);
    assert [UserTurn][..0] == [];
  }

  /** The stream dies during a consolidation: the session is idle again but stays suppressed. */
  lemma StreamDiesDuringConsolidation()
    ensures var s := CONSOLIDATING.(holder := None, timer := Off, alive := false, busy := false, idle := true);
      Reaches(true, WORK + [DoTimerFires] + [DoQueryReturns] + [DoStreamFails], s) && LeftOver(s) && s.idle &&
          s.suppress
  {
    hide Reaches;
    ReachesWorked();
    Extends(true, WORK, WORKED, DoTimerFires);
    assert [] + [Upkeep] == [Upkeep];
    Extends(true, WORK + [DoTimerFires], CONSOLIDATING, DoQueryReturns);
    Extends(true, WORK + [DoTimerFires] + [DoQueryReturns], CONSOLIDATING.(holder := None, timer := Off),
        DoStreamFails);
  }

  /** If its query is still awaited then and fails, the consolidation is rolled back after all. */
  lemma FailingQueryRollsBack()
    ensures var s := WORKED.(timer := Off, alive := false);
      Reaches(true, WORK + [DoTimerFires] + [DoStreamFails] + [DoQueryFails], s) && !s.suppress
  {
    hide Reaches;
    ReachesWorked();
    Extends(true, WORK, WORKED, DoTimerFires);
    assert [] + [Upkeep] == [Upkeep] && [Upkeep][..0] == [];
    Extends(true, WORK + [DoTimerFires], CONSOLIDATING, DoStreamFails);
    Extends(true, WORK + [DoTimerFires] + [DoStreamFails],
            CONSOLIDATING.(alive := false, busy := false, idle := true), DoQueryFails);
  }

  /** The timer does not look at the stream: a consolidation that starts on a dead one leaves
      the session suppressed and busy. */
  lemma ConsolidationOnDeadStream()
    ensures var s := CONSOLIDATING.(holder := None, timer := Off, alive := false);
      Reaches(true, WORK + [DoStreamFails] + [DoTimerFires] + [DoQueryReturns], s) && LeftOver(s) && Hung(s)
  {
    hide Reaches;
    ReachesWorked();
    Extends(true, WORK, WORKED, DoStreamFails);
    Extends(true, WORK + [DoStreamFails], WORKED.(alive := false), DoTimerFires);
    assert [] + [Upkeep] == [Upkeep];
    Extends(true, WORK + [DoStreamFails] + [DoTimerFires], CONSOLIDATING.(alive := false), DoQueryReturns);
  }

  // ----- consolidation needs new work -----

  /** Nothing to consolidate, and nobody about to. */
  predicate Quiet(s: State) {
    !s.dirty && s.timer != Armed && !s.consolidating && Consolidation !in s.waiters
  }

  /** The result of a consolidation leaves nothing to consolidate. */
  lemma ConsolidationEndsQuiet(s: State)
    requires Inv(s) && s.consolidating && Enabled(s, DoResult)
    ensures Quiet(Result(s))
  {
  }

  lemma QuietStep(s: State, step: Step)
    requires Inv(s) && Quiet(s) && Enabled(s, step) && step != DoWork
    ensures Quiet(Do(s, step))
  {
    hide OneTurn;
    match step
    case DoResult =>
    case DoStop =>
    case _ =>
  }

  /** From then on no consolidation starts until a turn edits something. */
  lemma {:induction false} QuietUntilWork(knowledge: bool, run: seq<Step>, j: nat)
    requires IsRun(knowledge, run) && j <= |run| && Quiet(Final(knowledge, run[..j]))
    requires forall k :: j <= k < |run| ==> run[k] != DoWork
    ensures Quiet(Final(knowledge, run))
  {
    hide Do, Inv, Enabled, Quiet;
    if j == |run| {
      assert run[..j] == run;
    } else {
      var n := |run| - 1;
      var init := run[..n];
      assert init[..j] == run[..j];
      RunKeepsInv(knowledge, init);
      QuietUntilWork(knowledge, init, j);
      QuietStep(Final(knowledge, init), run[n]);
    }
  }
}
