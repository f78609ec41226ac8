/** What a session sends for each message of the client library (`_dispatch` in
    worker-claude/src/sdk/session.py), shown or suppressed. */
module Dispatcher {
  import opened ChatStore
  import opened ToolResults
  import opened Transcript
  import opened Wrappers

  datatype Outcome = Outcome(id: string, content: Content, isError: bool)

  datatype SdkBlock =
    | SdkText(text: string)
    | SdkThinking(text: string)
    | SdkToolUse(id: string, name: string, args: string)

  /** A user text is what task events were found in it. */
  datatype UserBlock = GotResult(outcome: Outcome) | GotText(events: seq<TaskEvent>)

  datatype Stage = Started | Progress | Updated | Notification

  /** What the client library yields: deltas, whole blocks, the user side with tool results,
      the stages of a background task, other system messages with the note that the chat
      shows for them, the result. */
  datatype SdkMessage =
    | Partial(thinking: bool, delta: string)
    | AssistantSaid(blocks: seq<SdkBlock>)
    | UserGot(content: seq<UserBlock>)
    | TaskStage(stage: Stage, task: TaskEvent)
    | SystemSaid(note: Option<string>)
    | Finished

  function DeltaEvent(sid: Option<string>, thinking: bool, delta: string): Event {
    if thinking then ThinkingDelta(sid, delta) else TextDelta(sid, delta)
  }

  function DispatchBlock(stream: bool, suppress: bool, sid: Option<string>, b: SdkBlock): seq<Event> {
    if suppress then [] else
    match b
    case SdkToolUse(id, name, args) => [ToolCall(sid, id, name, args)]
    case SdkText(text) => if stream || text == "" then [] else [TextDelta(sid, text)]
    case SdkThinking(text) => if stream || text == "" then [] else [ThinkingDelta(sid, text)]
  }

  function DispatchBlocks(stream: bool, suppress: bool, sid: Option<string>, blocks: seq<SdkBlock>): seq<Event> {
    if blocks == [] then []
    else
      DispatchBlocks(stream, suppress, sid, blocks[..|blocks| - 1])
      + DispatchBlock(stream, suppress, sid, blocks[|blocks| - 1])
  }

  function Ticks(sid: Option<string>, events: seq<TaskEvent>): seq<Event> {
    seq(|events|, i requires 0 <= i < |events| => TaskTick(sid, events[i]))
  }

  function DispatchUserBlock(suppress: bool, sid: Option<string>, b: UserBlock): seq<Event> {
    match b
    case GotResult(o) => if suppress then [] else [ToolDone(sid, o.id, o.content, o.isError)]
    case GotText(events) => Ticks(sid, events)
  }

  function DispatchUser(suppress: bool, sid: Option<string>, blocks: seq<UserBlock>): seq<Event> {
    if blocks == [] then []
    else
      DispatchUser(suppress, sid, blocks[..|blocks| - 1])
      + DispatchUserBlock(suppress, sid, blocks[|blocks| - 1])
  }

  function StageName(stage: Stage): string {
    match stage
    case Started => "started"
    case Progress => "progress"
    case Updated => "updated"
    case Notification => "notification"
  }

  function Dispatch(stream: bool, suppress: bool, sid: Option<string>, m: SdkMessage): seq<Event> {
    match m
    case Partial(thinking, delta) =>
      if stream && !suppress && delta != "" then [DeltaEvent(sid, thinking, delta)] else []
    case AssistantSaid(blocks) => DispatchBlocks(stream, suppress, sid, blocks)
    case UserGot(blocks) => DispatchUser(suppress, sid, blocks)
    case TaskStage(stage, task) =>
      if stage == Updated then [] else [TaskTick(sid, task.(eventType := StageName(stage)))]
    case SystemSaid(note) => [SystemNote(sid, note)]
    case Finished => if suppress then [] else [TurnResult(sid)]
  }

  function DispatchAll(stream: bool, suppress: bool, sid: Option<string>, ms: seq<SdkMessage>): seq<Event> {
    if ms == [] then []
    else DispatchAll(stream, suppress, sid, ms[..|ms| - 1]) + Dispatch(stream, suppress, sid, ms[|ms| - 1])
  }

  lemma {:induction false} DispatchAppend(stream: bool, suppress: bool, sid: Option<string>,
                                          a: seq<SdkMessage>, b: seq<SdkMessage>)
    ensures DispatchAll(stream, suppress, sid, a + b) ==
            DispatchAll(stream, suppress, sid, a) + DispatchAll(stream, suppress, sid, b)
  {
    hide Dispatch;
    if b == [] {
      assert a + b == a;
    } else {
      DispatchAppend(stream, suppress, sid, a, b[..|b| - 1]);
      assert (a + b)[..|a + b| - 1] == a + b[..|b| - 1];
    }
  }

  // ----- what gets out while suppressed -----

  predicate Ungated(e: Event) { e.TaskTick? || e.SystemNote? }

  function OnlyUngated(es: seq<Event>): seq<Event> {
    if es == [] then []
    else OnlyUngated(es[..|es| - 1]) + (if Ungated(es[|es| - 1]) then [es[|es| - 1]] else [])
  }

  lemma {:induction false} OnlyUngatedAppend(a: seq<Event>, b: seq<Event>)
    ensures OnlyUngated(a + b) == OnlyUngated(a) + OnlyUngated(b)
  {
    if b == [] {
      assert a + b == a;
    } else {
      OnlyUngatedAppend(a, b[..|b| - 1]);
      assert (a + b)[..|a + b| - 1] == a + b[..|b| - 1];
    }
  }

  lemma {:induction false} TicksAreUngated(sid: Option<string>, events: seq<TaskEvent>)
    ensures OnlyUngated(Ticks(sid, events)) == Ticks(sid, events)
  {
    if events != [] {
      TicksAreUngated(sid, events[..|events| - 1]);
      assert Ticks(sid, events)[..|events| - 1] == Ticks(sid, events[..|events| - 1]);
    }
  }

  lemma OneEvent(e: Event)
    ensures OnlyUngated([e]) == if Ungated(e) then [e] else []
  {
    assert [e][..0] == [];
  }

  lemma {:induction false} SuppressedBlocks(stream: bool, sid: Option<string>, blocks: seq<SdkBlock>)
    ensures DispatchBlocks(stream, true, sid, blocks) == OnlyUngated(DispatchBlocks(stream, false, sid, blocks)) == []
  {
    if blocks != [] {
      var init, b := blocks[..|blocks| - 1], blocks[|blocks| - 1];
      hide DispatchBlock, OnlyUngated;
      SuppressedBlocks(stream, sid, init);
      OnlyUngatedAppend(DispatchBlocks(stream, false, sid, init), DispatchBlock(stream, false, sid, b));
      SuppressedBlock(stream, sid, b);
    }
  }

  lemma SuppressedBlock(stream: bool, sid: Option<string>, b: SdkBlock)
    ensures DispatchBlock(stream, true, sid, b) == OnlyUngated(DispatchBlock(stream, false, sid, b)) == []
  {
    var sent := DispatchBlock(stream, false, sid, b);
    if sent != [] {
      OneEvent(sent[0]);
      assert sent == [sent[0]];
    }
  }

  lemma {:induction false} SuppressedUser(sid: Option<string>, blocks: seq<UserBlock>)
    ensures DispatchUser(true, sid, blocks) == OnlyUngated(DispatchUser(false, sid, blocks))
  {
    if blocks != [] {
      var init, b := blocks[..|blocks| - 1], blocks[|blocks| - 1];
      SuppressedUser(sid, init);
      OnlyUngatedAppend(DispatchUser(false, sid, init), DispatchUserBlock(false, sid, b));
      match b
      case GotResult(o) => OneEvent(ToolDone(sid, o.id, o.content, o.isError));
      case GotText(events) => TicksAreUngated(sid, events);
    }
  }

  lemma SuppressedMessage(stream: bool, sid: Option<string>, m: SdkMessage)
    ensures Dispatch(stream, true, sid, m) == OnlyUngated(Dispatch(stream, false, sid, m))
  {
    match m
    case Partial(thinking, delta) => OneEvent(DeltaEvent(sid, thinking, delta));
    case AssistantSaid(blocks) => SuppressedBlocks(stream, sid, blocks);
    case UserGot(blocks) => SuppressedUser(sid, blocks);
    case TaskStage(stage, task) => OneEvent(TaskTick(sid, task.(eventType := StageName(stage))));
    case SystemSaid(note) => OneEvent(SystemNote(sid, note));
    case Finished => OneEvent(TurnResult(sid));
  }

  /** While output is suppressed exactly the task events and system messages still get out, in
      their order. */
  lemma {:induction false} SuppressionKeepsTasksAndNotes(stream: bool, sid: Option<string>, ms: seq<SdkMessage>)
    ensures DispatchAll(stream, true, sid, ms) == OnlyUngated(DispatchAll(stream, false, sid, ms))
  {
    hide Dispatch;
    if ms != [] {
      var init, m := ms[..|ms| - 1], ms[|ms| - 1];
      SuppressionKeepsTasksAndNotes(stream, sid, init);
      SuppressedMessage(stream, sid, m);
      OnlyUngatedAppend(DispatchAll(stream, false, sid, init), Dispatch(stream, false, sid, m));
    }
  }

  /** The message is sent even while output is suppressed. */
  predicate Leaks(m: SdkMessage) {
    match m
    case UserGot(blocks) => exists b :: b in blocks && b.GotText? && b.events != []
    case TaskStage(stage, _) => stage != Updated
    case SystemSaid(_) => true
    case _ => false
  }

  lemma {:induction false} UserLeaks(sid: Option<string>, blocks: seq<UserBlock>)
    ensures DispatchUser(true, sid, blocks) == [] <==> !Leaks(UserGot(blocks))
  {
    if blocks != [] {
      var init, b := blocks[..|blocks| - 1], blocks[|blocks| - 1];
      UserLeaks(sid, init);
      assert blocks == init + [b];
      assert DispatchUserBlock(true, sid, b) == [] <==> !(b.GotText? && b.events != []);
    }
  }

  /** A suppressed turn is silent exactly if none of its messages is of that kind. */
  lemma {:induction false} SilentIff(stream: bool, sid: Option<string>, ms: seq<SdkMessage>)
    ensures DispatchAll(stream, true, sid, ms) == [] <==> forall m :: m in ms ==> !Leaks(m)
  {
    hide Leaks;
    if ms != [] {
      var init, m := ms[..|ms| - 1], ms[|ms| - 1];
      SilentIff(stream, sid, init);
      OneSilentIff(stream, sid, m);
      assert ms == init + [m];
    }
  }

  lemma OneSilentIff(stream: bool, sid: Option<string>, m: SdkMessage)
    ensures Dispatch(stream, true, sid, m) == [] <==> !Leaks(m)
  {
    match m
    case AssistantSaid(blocks) => SuppressedBlocks(stream, sid, blocks);
    case UserGot(blocks) => UserLeaks(sid, blocks);
    case _ =>
  }

  // ----- what is told of background tasks -----

  /** A stage is announced under its own name and otherwise as it is; an update is not, and a
      user text tells the events found in it. */
  function Announced(m: SdkMessage): seq<TaskEvent> {
    match m
    case TaskStage(Started, task) => [task.(eventType := "started")]
    case TaskStage(Progress, task) => [task.(eventType := "progress")]
    case TaskStage(Notification, task) => [task.(eventType := "notification")]
    case UserGot(content) => FoundIn(content)
    case _ => []
  }

  function FoundIn(content: seq<UserBlock>): seq<TaskEvent> {
    if content == [] then []
    else FoundIn(content[..|content| - 1]) +
         (if content[|content| - 1].GotText? then content[|content| - 1].events else [])
  }

  function AllAnnounced(ms: seq<SdkMessage>): seq<TaskEvent> {
    if ms == [] then [] else AllAnnounced(ms[..|ms| - 1]) + Announced(ms[|ms| - 1])
  }

  /** The task events among what is sent. */
  function TicksAmong(es: seq<Event>): seq<Event> {
    if es == [] then []
    else TicksAmong(es[..|es| - 1]) + (if es[|es| - 1].TaskTick? then [es[|es| - 1]] else [])
  }

  lemma {:induction false} TicksAmongAppend(a: seq<Event>, b: seq<Event>)
    ensures TicksAmong(a + b) == TicksAmong(a) + TicksAmong(b)
  {
    if b == [] {
      assert a + b == a;
    } else {
      TicksAmongAppend(a, b[..|b| - 1]);
      assert (a + b)[..|a + b| - 1] == a + b[..|b| - 1];
    }
  }

  lemma TicksAmongOne(e: Event)
    ensures TicksAmong([e]) == if e.TaskTick? then [e] else []
  {
    assert [e][..0] == [];
  }

  lemma {:induction false} TicksAmongTicks(sid: Option<string>, events: seq<TaskEvent>)
    ensures TicksAmong(Ticks(sid, events)) == Ticks(sid, events)
  {
    if events != [] {
      TicksAmongTicks(sid, events[..|events| - 1]);
      assert Ticks(sid, events)[..|events| - 1] == Ticks(sid, events[..|events| - 1]);
    }
  }

  lemma {:induction false} BlocksTellNoTasks(stream: bool, suppress: bool, sid: Option<string>, blocks: seq<SdkBlock>)
    ensures TicksAmong(DispatchBlocks(stream, suppress, sid, blocks)) == []
  {
    hide TicksAmong;
    if blocks == [] {
      NoTicksAmong();
    } else {
      var init, b := blocks[..|blocks| - 1], blocks[|blocks| - 1];
      var sent := DispatchBlock(stream, suppress, sid, b);
      BlocksTellNoTasks(stream, suppress, sid, init);
      TicksAmongAppend(DispatchBlocks(stream, suppress, sid, init), sent);
      NoTicksAmong();
      if sent != [] {
        TicksAmongOne(sent[0]);
        assert sent == [sent[0]];
      }
    }
  }

  lemma NoTicksAmong()
    ensures TicksAmong([]) == []
  {
  }

  lemma {:induction false} UserTellsItsTasks(suppress: bool, sid: Option<string>, content: seq<UserBlock>)
    ensures TicksAmong(DispatchUser(suppress, sid, content)) == Ticks(sid, FoundIn(content))
  {
    hide TicksAmong;
    NoTicksAmong();
    if content != [] {
      var init, b := content[..|content| - 1], content[|content| - 1];
      UserTellsItsTasks(suppress, sid, init);
      TicksAmongAppend(DispatchUser(suppress, sid, init), DispatchUserBlock(suppress, sid, b));
      match b
      case GotResult(o) => TicksAmongOne(ToolDone(sid, o.id, o.content, o.isError));
      case GotText(events) => TicksAmongTicks(sid, events);
    }
  }

  lemma MessageTellsItsTasks(stream: bool, suppress: bool, sid: Option<string>, m: SdkMessage)
    ensures TicksAmong(Dispatch(stream, suppress, sid, m)) == Ticks(sid, Announced(m))
  {
    hide TicksAmong;
    var sent := Dispatch(stream, suppress, sid, m);
    NoTicksAmong();
    match m
    case AssistantSaid(blocks) => BlocksTellNoTasks(stream, suppress, sid, blocks);
    case UserGot(content) => UserTellsItsTasks(suppress, sid, content);
    case _ =>
      if sent != [] {
        TicksAmongOne(sent[0]);
        assert sent == [sent[0]];
      }
  }

  /** Over any messages, shown or suppressed: the task events sent are those of the stages and
      of the user texts, in order. */
  lemma {:induction false} TasksAreAnnounced(stream: bool, suppress: bool, sid: Option<string>, ms: seq<SdkMessage>)
    ensures TicksAmong(DispatchAll(stream, suppress, sid, ms)) == Ticks(sid, AllAnnounced(ms))
  {
    hide Dispatch, Announced;
    if ms != [] {
      var init, m := ms[..|ms| - 1], ms[|ms| - 1];
      TasksAreAnnounced(stream, suppress, sid, init);
      MessageTellsItsTasks(stream, suppress, sid, m);
      TicksAmongAppend(DispatchAll(stream, suppress, sid, init), Dispatch(stream, suppress, sid, m));
      assert Ticks(sid, AllAnnounced(init)) + Ticks(sid, Announced(m)) == Ticks(sid, AllAnnounced(ms));
    }
  }

  // ----- the program -----

  method SendMessage(stream: bool, suppress: bool, sid: Option<string>, m: SdkMessage) returns (sent: seq<Event>)
    ensures sent == Dispatch(stream, suppress, sid, m)
    ensures m.TaskStage? ==>
              sent == match m.stage
                      case Started => [TaskTick(sid, m.task.(eventType := "started"))]
                      case Progress => [TaskTick(sid, m.task.(eventType := "progress"))]
                      case Updated => []
                      case Notification => [TaskTick(sid, m.task.(eventType := "notification"))]
    ensures m.SystemSaid? ==> sent == [SystemNote(sid, m.note)]
  {
    match m {
      case Partial(thinking, delta) =>
        if !stream || suppress || |delta| == 0 { return []; }
        if thinking { sent := [ThinkingDelta(sid, delta)]; } else { sent := [TextDelta(sid, delta)]; }
      case AssistantSaid(blocks) => sent := SendBlocks(stream, suppress, sid, blocks);
      case UserGot(blocks) => sent := SendUser(suppress, sid, blocks);
      case TaskStage(stage, task) =>
        if stage == Updated { return []; }
        sent := [TaskTick(sid, task.(eventType := StageName(stage)))];
      case SystemSaid(note) => sent := [SystemNote(sid, note)];
      case Finished => if suppress { sent := []; } else { sent := [TurnResult(sid)]; }
    }
  }

  method SendBlocks(stream: bool, suppress: bool, sid: Option<string>, blocks: seq<SdkBlock>) returns (sent: seq<Event>)
    ensures sent == DispatchBlocks(stream, suppress, sid, blocks)
  {
    sent := [];
    for k := 0 to |blocks|
      invariant sent == DispatchBlocks(stream, suppress, sid, blocks[..k])
    {
      assert blocks[..k + 1][..k] == blocks[..k];
      match blocks[k] {
        case SdkToolUse(id, name, args) => if !suppress { sent := sent + [ToolCall(sid, id, name, args)]; }
        case SdkText(text) => if !stream && |text| > 0 && !suppress { sent := sent + [TextDelta(sid, text)]; }
        case SdkThinking(text) => if !stream && |text| > 0 && !suppress { sent := sent + [ThinkingDelta(sid, text)]; }
      }
    }
    assert blocks[..|blocks|] == blocks;
  }

  method SendUser(suppress: bool, sid: Option<string>, blocks: seq<UserBlock>) returns (sent: seq<Event>)
    ensures sent == DispatchUser(suppress, sid, blocks)
  {
    sent := [];
    for k := 0 to |blocks|
      invariant sent == DispatchUser(suppress, sid, blocks[..k])
    {
      assert blocks[..k + 1][..k] == blocks[..k];
      match blocks[k] {
        case GotResult(o) =>
          if suppress { continue; }
          sent := sent + [ToolDone(sid, o.id, o.content, o.isError)];
        case GotText(events) =>
          var ticks := SendTicks(sid, events);
          sent := sent + ticks;
      }
    }
    assert blocks[..|blocks|] == blocks;
  }

  method SendTicks(sid: Option<string>, events: seq<TaskEvent>) returns (sent: seq<Event>)
    ensures sent == Ticks(sid, events)
  {
    sent := [];
    for k := 0 to |events|
      invariant sent == Ticks(sid, events[..k])
    {
      sent := sent + [TaskTick(sid, events[k])];
      assert sent == Ticks(sid, events[..k + 1]);
    }
    assert events[..|events|] == events;
  }
}
