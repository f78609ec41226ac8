/** The Claude `Session` object: its methods change the turn fields in place, each exactly as
    the step of TurnMachine it stands for (worker-claude/src/sdk/session.py). */
module ClaudeSession {
  import ChatStore
  import D = Dispatcher
  import opened TurnMachine
  import opened Wrappers

  datatype Reply = NoSession | Waits | Busy | Accepted

  const WORK_TOOLS := {"Edit", "Write", "MultiEdit", "NotebookEdit"}

  /** The message calls a tool that edits. */
  ghost predicate Edits(m: D.SdkMessage) {
    m.AssistantSaid? && exists k :: 0 <= k < |m.blocks| && EditsAt(m.blocks, k)
  }

  predicate EditsAt(blocks: seq<D.SdkBlock>, k: nat)
    requires k < |blocks|
  {
    blocks[k].SdkToolUse? && blocks[k].name in {"Edit", "Write", "MultiEdit", "NotebookEdit"}
  }

  /** What the dispatcher sends in any reachable state: while a consolidation runs only task
      events and system messages, in order; while a user turn runs, everything. */
  lemma UpkeepSendsTasksAndNotes(knowledge: bool, run: seq<Step>, stream: bool, sid: Option<string>, m: D.SdkMessage)
    requires IsRun(knowledge, run) && Final(knowledge, run).alive
    ensures var s := Final(knowledge, run);
            var sent, all := D.Dispatch(stream, s.suppress, sid, m), D.Dispatch(stream, false, sid, m);
      && (Upkeep in s.turns ==> sent == D.OnlyUngated(all))
      && (UserTurn in s.turns ==> sent == all)
  {
    hide Final, IsRun;
    UpkeepIsSuppressed(knowledge, run, Consolidation);
    UserTurnRunsAlone(knowledge, run, Consolidation);
    D.SuppressedMessage(stream, sid, m);
  }

  class Session {
    const knowledge: bool
    var phase: Phase
    var alive: bool
    var busy: bool
    var idle: bool
    var consolidating: bool
    var suppress: bool
    var dirty: bool
    var oneShot: bool
    var timer: Timer
    var holder: Option<Turn>
    var waiters: seq<Waiter>
    var turns: seq<Turn>

    constructor (knowledge: bool)
      ensures View() == Initial(knowledge)
    {
      this.knowledge := knowledge;
      phase, alive, busy, idle := Created, false, false, true;
      consolidating, suppress, dirty, oneShot := false, false, false, false;
      timer, holder, waiters, turns := Off, None, [], [];
    }

    ghost function View(): State
      reads this
    {
      State(knowledge, phase, alive, busy, idle, consolidating, suppress, dirty, oneShot, timer, holder, waiters, turns)
    }

    method Start()
      modifies this
      ensures View() == TurnMachine.Start(old(View()))
    {
      if phase != Created { return; }
      phase, alive := Live, true;
    }

    /** `send_prompt` up to its query, or up to waiting for the lock. */
    method SendPrompt(once: bool) returns (reply: Reply)
      modifies this
      ensures View() == TurnMachine.SendPrompt(old(View()), once)
      ensures reply == NoSession <==> old(phase) != Live
      ensures reply == Accepted ==> !old(busy) && turns == old(turns) + [UserTurn]
      ensures reply != Accepted ==> turns == old(turns)
      ensures reply == Waits <==> old(phase) == Live && waiters == old(waiters) + [Prompt(once)]
    {
      if phase != Live { return NoSession; }
      if holder != None || waiters != [] {
        waiters := waiters + [Prompt(once)];
        return Waits;
      }
      reply := EnterPrompt(once);
    }

    method EnterPrompt(once: bool) returns (reply: Reply)
      modifies this
      ensures View() == Enter(old(View()), Prompt(once))
      ensures reply == if old(busy) then Busy else Accepted
    {
      if busy { return Busy; }
      if once { oneShot := true; }
      busy := true;
      idle := false;
      holder := Some(UserTurn);
      turns := turns + [UserTurn];
      return Accepted;
    }

    /** `_run_consolidation` inside the lock, up to its query. */
    method EnterConsolidation()
      modifies this
      ensures View() == Enter(old(View()), Consolidation)
    {
      if busy || consolidating {
        timer := Off;
        return;
      }
      consolidating := true;
      suppress := true;
      busy := true;
      idle := false;
      holder := Some(Upkeep);
      turns := turns + [Upkeep];
    }

    method GrantLock()
      modifies this
      ensures View() == TurnMachine.GrantLock(old(View()))
    {
      if holder != None || waiters == [] { return; }
      var w := waiters[0];
      waiters := waiters[1..];
      match w
      case Prompt(once) => var _ := EnterPrompt(once);
      case Consolidation => EnterConsolidation();
    }

    method LeaveLock()
      modifies this
      ensures View() == TurnMachine.LeaveLock(old(View()))
    {
      if holder == Some(Upkeep) { timer := Off; }
      holder := None;
    }

    method QueryFails()
      modifies this
      ensures View() == TurnMachine.QueryFails(old(View()))
    {
      var wasUpkeep := holder == Some(Upkeep);
      LeaveLock();
      if turns != [] { turns := turns[..|turns| - 1]; }
      if wasUpkeep {
        consolidating := false;
        suppress := false;
        busy := false;
        idle := true;
      }
    }

    /** The stream's reaction to a result message. */
    method Result()
      modifies this
      ensures View() == TurnMachine.Result(old(View()))
    {
      if turns != [] { turns := turns[1..]; }
      oneShot := false;
      busy := false;
      idle := true;
      OnTurnEnd();
    }

    method OnTurnEnd()
      modifies this
      ensures View() == TurnMachine.OnTurnEnd(old(View()))
    {
      if consolidating {
        consolidating := false;
        suppress := false;
        dirty := false;
        return;
      }
      CancelTimer();
      if knowledge && dirty { timer := Armed; }
    }

    method CancelTimer()
      modifies this
      ensures View() == TurnMachine.CancelTimer(old(View()))
    {
      if timer == Running {
        waiters := NoConsolidation(waiters);
        if holder == Some(Upkeep) { holder := None; }
      }
      timer := Off;
    }

    method IdleConsolidate()
      modifies this
      ensures View() == TurnMachine.TimerFires(old(View()))
    {
      if busy || consolidating || !dirty || phase != Live {
        timer := Off;
        return;
      }
      timer := Running;
      if holder == None && waiters == [] {
        EnterConsolidation();
      } else {
        waiters := waiters + [Consolidation];
      }
    }

    method StreamFails()
      modifies this
      ensures View() == TurnMachine.StreamFails(old(View()))
    {
      busy := false;
      idle := true;
      oneShot := false;
      alive := false;
    }

    method Stop()
      modifies this
      ensures View() == TurnMachine.Stop(old(View()))
    {
      CancelTimer();
      alive := false;
      phase := Stopped;
    }

    /** A message of the running turn: one that edits marks the session as having something to
        consolidate, also while its output is suppressed. */
    method Dispatch(stream: bool, sid: Option<string>, m: D.SdkMessage) returns (sent: seq<ChatStore.Event>)
      modifies `dirty
      ensures View() == if Edits(m) then Do(old(View()), DoWork) else old(View())
      ensures sent == D.Dispatch(stream, suppress, sid, m)
    {
      if m.AssistantSaid? {
        for k := 0 to |m.blocks|
          invariant dirty == (old(dirty) || exists j :: 0 <= j < k && EditsAt(m.blocks, j))
        {
          if m.blocks[k].SdkToolUse? && m.blocks[k].name in WORK_TOOLS {
            assert EditsAt(m.blocks, k);
            dirty := true;
          }
        }
      }
      sent := D.SendMessage(stream, suppress, sid, m);
    }
  }
}
