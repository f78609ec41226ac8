/** The gist of a chat: what the user and the system said in it, in order, and how many task
    events it shows.  It survives coalescing and truncating, so chats that look alike have the
    same gist, and it can be counted on both sides without any assumption on how turns and
    events interleave. */
module ChatGist {
  import opened ChatStore
  import opened Dispatcher
  import opened ToolResults
  import opened Transcript
  import opened Turns
  import opened TurnSimulation
  import opened Wrappers

  datatype Line = Line(role: Role, text: string)

  datatype Gist = Gist(line: Option<Line>, tasks: nat)

  function WordsOf(b: Block): string { if b.Text? || b.Thinking? || b.Info? then b.text else "" }

  function Words(blocks: seq<Block>): string {
    if blocks == [] then "" else Words(blocks[..|blocks| - 1]) + WordsOf(blocks[|blocks| - 1])
  }

  function TasksIn(blocks: seq<Block>): nat {
    if blocks == [] then 0 else TasksIn(blocks[..|blocks| - 1]) + if blocks[|blocks| - 1].Task? then 1 else 0
  }

  function GistOf(m: Message): Gist {
    Gist(if m.role == Assistant then None else Some(Line(m.role, Words(m.blocks))), TasksIn(m.blocks))
  }

  function Gists(ms: seq<Message>): (r: seq<Gist>)
    ensures |r| == |ms|
  {
    seq(|ms|, i requires 0 <= i < |ms| => GistOf(ms[i]))
  }

  function Lines(gs: seq<Gist>): seq<Line> {
    if gs == [] then []
    else Lines(gs[..|gs| - 1]) + (if gs[|gs| - 1].line.Some? then [gs[|gs| - 1].line.value] else [])
  }

  function Tasks(gs: seq<Gist>): nat {
    if gs == [] then 0 else Tasks(gs[..|gs| - 1]) + gs[|gs| - 1].tasks
  }

  // ----- blocks -----

  lemma {:induction false} WordsAppend(a: seq<Block>, b: seq<Block>)
    ensures Words(a + b) == Words(a) + Words(b) && TasksIn(a + b) == TasksIn(a) + TasksIn(b)
  {
    if b == [] {
      assert a + b == a && Words(a) + "" == Words(a);
    } else {
      var init, w := b[..|b| - 1], WordsOf(b[|b| - 1]);
      WordsAppend(a, init);
      assert (a + b)[..|a + b| - 1] == a + init;
      assert (Words(a) + Words(init)) + w == Words(a) + (Words(init) + w);
    }
  }

  lemma OneBlockWords(b: Block)
    ensures Words([b]) == WordsOf(b) && TasksIn([b]) == if b.Task? then 1 else 0
  {
    assert [b][..0] == [] && "" + WordsOf(b) == WordsOf(b);
  }

  lemma WordsSnoc(blocks: seq<Block>, b: Block)
    ensures Words(blocks + [b]) == Words(blocks) + WordsOf(b)
    ensures TasksIn(blocks + [b]) == TasksIn(blocks) + if b.Task? then 1 else 0
  {
    assert (blocks + [b])[..|blocks|] == blocks;
  }

  lemma WordsAdd(blocks: seq<Block>, b: Block)
    ensures Words(AddBlock(blocks, b)) == Words(blocks) + WordsOf(b)
    ensures TasksIn(AddBlock(blocks, b)) == TasksIn(blocks) + if b.Task? then 1 else 0
  {
    hide Words, TasksIn;
    if blocks != [] && SameTextKind(blocks[|blocks| - 1], b) {
      var init, last := blocks[..|blocks| - 1], blocks[|blocks| - 1];
      WordsSnoc(init, last);
      WordsSnoc(init, Merge(last, b));
      assert init + [last] == blocks;
      assert Words(init) + (last.text + b.text) == Words(init) + last.text + b.text;
    } else {
      WordsSnoc(blocks, b);
    }
  }

  lemma {:induction false} WordsCoalesce(blocks: seq<Block>)
    ensures Words(Coalesce(blocks)) == Words(blocks) && TasksIn(Coalesce(blocks)) == TasksIn(blocks)
  {
    hide AddBlock;
    if blocks != [] {
      WordsCoalesce(blocks[..|blocks| - 1]);
      WordsAdd(Coalesce(blocks[..|blocks| - 1]), blocks[|blocks| - 1]);
    }
  }

  lemma {:induction false} SameWords(a: seq<Block>, b: seq<Block>)
    requires |a| == |b|
    requires forall k :: 0 <= k < |a| ==> WordsOf(a[k]) == WordsOf(b[k]) && a[k].Task? == b[k].Task?
    ensures Words(a) == Words(b) && TasksIn(a) == TasksIn(b)
  {
    if a != [] { SameWords(a[..|a| - 1], b[..|b| - 1]); }
  }

  /** Messages that look alike have the same gist. */
  lemma AlikeSaysTheSame(live: Message, read: Message)
    requires Alike(live, read)
    ensures GistOf(live) == GistOf(read)
  {
    hide Words, TasksIn, Coalesce;
    SameWords(AllShort(live.blocks), live.blocks);
    WordsCoalesce(read.blocks);
  }

  lemma AllAlikeSayTheSame(live: seq<Message>, read: seq<Message>)
    requires AllAlike(live, read)
    ensures Gists(live) == Gists(read)
  {
    hide GistOf, Alike;
    forall k | 0 <= k < |live| ensures GistOf(live[k]) == GistOf(read[k]) { AlikeSaysTheSame(live[k], read[k]); }
  }

  // ----- messages -----

  lemma SnocGist(gs: seq<Gist>, g: Gist)
    ensures Lines(gs + [g]) == Lines(gs) + (if g.line.Some? then [g.line.value] else [])
    ensures Tasks(gs + [g]) == Tasks(gs) + g.tasks
  {
    assert (gs + [g])[..|gs + [g]| - 1] == gs;
  }

  lemma {:induction false} MoreTasks(gs: seq<Gist>, k: nat, g: Gist)
    requires k < |gs| && g.line == gs[k].line
    ensures Lines(gs[k := g]) == Lines(gs) && Tasks(gs[k := g]) == Tasks(gs) + g.tasks - gs[k].tasks
  {
    hide Lines, Tasks;
    var n := |gs| - 1;
    SnocGist(gs[..n], gs[n]);
    assert gs[..n] + [gs[n]] == gs;
    if k == n {
      SnocGist(gs[..n], g);
      assert gs[..n] + [g] == gs[k := g];
    } else {
      MoreTasks(gs[..n], k, g);
      SnocGist(gs[..n][k := g], gs[n]);
      assert gs[..n][k := g] + [gs[n]] == gs[k := g];
    }
  }

  /** The effect on the conversation: these lines are added, and so many tasks. */
  ghost predicate Adds(ms: seq<Message>, next: seq<Message>, lines: seq<Line>, tasks: nat) {
    && Lines(Gists(next)) == Lines(Gists(ms)) + lines
    && Tasks(Gists(next)) == Tasks(Gists(ms)) + tasks
  }

  const NOTHING: seq<Line> := []

  lemma AddsNothing(ms: seq<Message>, next: seq<Message>)
    requires Gists(next) == Gists(ms)
    ensures Adds(ms, next, NOTHING, 0)
  {
  }

  lemma AddsThenAdds(a: seq<Message>, b: seq<Message>, c: seq<Message>, x: seq<Line>, m: nat, y: seq<Line>, n: nat)
    requires Adds(a, b, x, m) && Adds(b, c, y, n)
    ensures Adds(a, c, x + y, m + n)
  {
    hide Lines, Tasks, Gists;
    assert Lines(Gists(a)) + x + y == Lines(Gists(a)) + (x + y);
  }

  lemma MessageAdds(ms: seq<Message>, m: Message)
    ensures Adds(ms, ms + [m], if m.role == Assistant then NOTHING else [Line(m.role, Words(m.blocks))],
                 TasksIn(m.blocks))
  {
    hide Lines, Tasks, Words, TasksIn;
    SnocGist(Gists(ms), GistOf(m));
    assert Gists(ms + [m]) == Gists(ms) + [GistOf(m)];
  }

  /** Other blocks in a bubble, with so many more tasks. */
  lemma BubbleAdds(ms: seq<Message>, k: nat, blocks: seq<Block>, tasks: nat)
    requires k < |ms| && ms[k].role == Assistant && TasksIn(blocks) == TasksIn(ms[k].blocks) + tasks
    ensures Adds(ms, ms[k := ms[k].(blocks := blocks)], NOTHING, tasks)
  {
    hide Lines, Tasks, Words, TasksIn;
    var g := GistOf(ms[k].(blocks := blocks));
    MoreTasks(Gists(ms), k, g);
    assert Gists(ms[k := ms[k].(blocks := blocks)]) == Gists(ms)[k := g];
  }

  // ----- what the reader adds -----

  lemma ResultSaysNothing(m: Message, k: nat, r: Block)
    requires r.ToolResult? && k < |m.blocks| && m.blocks[k].Tool?
    ensures GistOf(m.(blocks := m.blocks[k := WithResult(m.blocks[k], r.content, r.failed)])) == GistOf(m)
  {
    SameWords(m.blocks[k := WithResult(m.blocks[k], r.content, r.failed)], m.blocks);
  }

  lemma {:induction false} ResultKeepsGists(ms: seq<Message>, r: Block)
    requires r.ToolResult?
    ensures Gists(AttachResult(ms, r)) == Gists(ms)
  {
    hide GistOf;
    if ms != [] {
      var n := |ms| - 1;
      var k := FirstTool(ms[n].blocks, r.id);
      if k < |ms[n].blocks| {
        ResultSaysNothing(ms[n], k, r);
      } else {
        ResultKeepsGists(ms[..n], r);
        assert forall i :: 0 <= i < n ==>
          Gists(AttachResult(ms, r))[i] == Gists(AttachResult(ms[..n], r))[i] == Gists(ms)[i];
      }
    }
  }

  lemma {:induction false} ResultsKeepGists(ms: seq<Message>, blocks: seq<Block>)
    ensures Gists(AttachResults(ms, blocks)) == Gists(ms)
    decreases blocks
  {
    hide Gists, AttachResult;
    if blocks != [] {
      if blocks[0].ToolResult? { ResultKeepsGists(ms, blocks[0]); }
      ResultsKeepGists(if blocks[0].ToolResult? then AttachResult(ms, blocks[0]) else ms, blocks[1..]);
    }
  }

  /** Blocks added to an old bubble, or to a new one at the end. */
  lemma BlocksAdd(ms: seq<Message>, k: nat, uuid: string, blocks: seq<Block>)
    requires k <= |ms| && (k < |ms| ==> ms[k].role == Assistant)
    ensures Adds(ms, if k < |ms| then ms[k := ms[k].(blocks := ms[k].blocks + blocks)]
                     else ms + [Message(uuid, Assistant, blocks, true)], NOTHING, TasksIn(blocks))
  {
    hide Adds, TasksIn, Words;
    if k < |ms| {
      WordsAppend(ms[k].blocks, blocks);
      BubbleAdds(ms, k, ms[k].blocks + blocks, TasksIn(blocks));
    } else {
      MessageAdds(ms, Message(uuid, Assistant, blocks, true));
    }
  }

  lemma {:induction false} AllTasks(events: seq<TaskEvent>)
    ensures TasksIn(TaskBlocksFor(events)) == |events|
  {
    if events != [] {
      AllTasks(events[..|events| - 1]);
      assert TaskBlocksFor(events)[..|events| - 1] == TaskBlocksFor(events[..|events| - 1]);
    }
  }

  lemma {:induction false} NoTasks(blocks: seq<Block>)
    requires forall k :: 0 <= k < |blocks| ==> !blocks[k].Task?
    ensures TasksIn(blocks) == 0
  {
    if blocks != [] { NoTasks(blocks[..|blocks| - 1]); }
  }

  function LinesOf(text: RawText): seq<Line> {
    if text.visible == "" then NOTHING else [Line(User, text.visible)]
  }

  /** The messages after the task events of a user entry were attached. */
  function Tagged(ms: seq<Message>, uuid: string, events: seq<TaskEvent>): seq<Message> {
    if events == [] then ms else AttachTasks(ms, uuid, TaskBlocksFor(events))
  }

  /** A user entry that is one text: its task events go to a bubble, and what is left of it is
      the user's. */
  lemma TextReads(ms: seq<Message>, uuid: string, body: Body, text: RawText)
    requires RawBlocks(body) == [RawTextBlock(text)]
    ensures var kept := AttachResults(Tagged(ms, uuid, text.events), Cleaned(RawBlocks(body)));
      FoldEntry(ms, Entry(UserEntry, uuid, body)) ==
        if text.visible == "" then kept else kept + [Message(uuid, User, [Text(text.visible)], true)]
  {
    hide AttachTasks, AttachResults;
    var block := RawTextBlock(text);
    assert [block][1..] == [];
    assert TaskBlocks([block]) == TaskBlocksFor(text.events) by {
      assert TaskBlocksOf(block) == TaskBlocksFor(text.events);
    }
    assert Cleaned([block]) == CleanedOne(block) by { assert CleanedOne(block) + [] == CleanedOne(block); }
    assert [Text(text.visible)][1..] == [];
    assert WithoutResults(CleanedOne(block)) == CleanedOne(block);
  }

  lemma TaggedAdds(ms: seq<Message>, uuid: string, events: seq<TaskEvent>, next: seq<Message>)
    requires Gists(next) == Gists(Tagged(ms, uuid, events))
    ensures Adds(ms, next, NOTHING, |events|)
  {
    hide Gists, TasksIn, Words;
    AllTasks(events);
    if events == [] {
      AddsNothing(ms, next);
    } else {
      BlocksAdd(ms, LastAssistant(ms), uuid + "-task", TaskBlocksFor(events));
    }
  }

  lemma TextAdds(ms: seq<Message>, uuid: string, body: Body, text: RawText)
    requires RawBlocks(body) == [RawTextBlock(text)]
    ensures Adds(ms, FoldEntry(ms, Entry(UserEntry, uuid, body)), LinesOf(text), |text.events|)
  {
    hide Adds, Gists, TasksIn, Words, RawBlocks, Cleaned, AttachResults, AttachTasks, FoldEntry, Tagged;
    TextReads(ms, uuid, body, text);
    var kept := AttachResults(Tagged(ms, uuid, text.events), Cleaned(RawBlocks(body)));
    ResultsKeepGists(Tagged(ms, uuid, text.events), Cleaned(RawBlocks(body)));
    TaggedAdds(ms, uuid, text.events, kept);
    if text.visible != "" {
      var m := Message(uuid, User, [Text(text.visible)], true);
      OneBlockWords(Text(text.visible));
      MessageAdds(kept, m);
      AddsThenAdds(ms, kept, kept + [m], NOTHING, |text.events|, LinesOf(text), 0);
      assert NOTHING + LinesOf(text) == LinesOf(text);
    }
  }

  function TicksOfItem(item: Item): nat { if item.Ticked? then |item.text.events| else 0 }

  function TicksOfItems(items: seq<Item>): nat {
    if items == [] then 0 else TicksOfItems(items[..|items| - 1]) + TicksOfItem(items[|items| - 1])
  }

  lemma ItemAdds(ms: seq<Message>, item: Item)
    requires GoodItem(item)
    ensures Adds(ms, FoldEntry(ms, EntryOf(item)), NOTHING, TicksOfItem(item))
  {
    hide Adds, Gists, AttachResults, Converted, Cleaned, TaskBlocks, WithoutResults, TasksIn;
    match item
    case Said(uuid, pieces) =>
      ConvertedPieces(pieces, RawBlocks(EntryOf(item).body));
      NoTasks(Wholes(pieces));
      AddsNothing(ms, ms);
      BlocksAdd(ms, if ms != [] && ms[|ms| - 1].role == Assistant then |ms| - 1 else |ms|, uuid, Wholes(pieces));
      AtTheEnd(ms, uuid, Wholes(pieces));
    case Got(uuid, outcomes) =>
      GotReads(ms, uuid, outcomes);
      ResultsKeepGists(ms, ResultBlocks(outcomes));
      AddsNothing(ms, AttachResults(ms, ResultBlocks(outcomes)));
    case Ticked(uuid, text) =>
      TextAdds(ms, uuid, EntryOf(item).body, text);
  }

  lemma AtTheEnd(ms: seq<Message>, uuid: string, blocks: seq<Block>)
    ensures Append(ms, Assistant, uuid, blocks) ==
            if ms != [] && ms[|ms| - 1].role == Assistant
            then ms[|ms| - 1 := ms[|ms| - 1].(blocks := ms[|ms| - 1].blocks + blocks)]
            else ms + [Message(uuid, Assistant, blocks, true)]
  {
  }

  lemma {:induction false} ItemsAdd(ms: seq<Message>, items: seq<Item>)
    requires forall i :: i in items ==> GoodItem(i)
    ensures Adds(ms, ReadItems(ms, items), NOTHING, TicksOfItems(items))
  {
    hide Adds, FoldEntry, EntryOf, GoodItem, TicksOfItem;
    if items == [] {
      AddsNothing(ms, ms);
    } else {
      var init, item := items[..|items| - 1], items[|items| - 1];
      var before := ReadItems(ms, init);
      ItemsAdd(ms, init);
      ItemAdds(before, item);
      assert NOTHING + NOTHING == NOTHING;
      AddsThenAdds(ms, before, ReadItems(ms, items), NOTHING, TicksOfItems(init), NOTHING, TicksOfItem(item));
    }
  }

  /** What is read of the user's side of a turn. */
  function ReadLines(t: Turn): seq<Line> { if HasPrompt(t) then LinesOf(t.sent) else NOTHING }

  function PromptEvents(t: Turn): nat { if HasPrompt(t) then |t.sent.events| else 0 }

  lemma TurnReads(ms: seq<Message>, t: Turn)
    requires forall i :: i in ItemsOf(t) ==> GoodItem(i)
    ensures Adds(ms, ReadTurn(ms, t), ReadLines(t), PromptEvents(t) + TicksOfItems(ItemsOf(t)))
  {
    hide Adds, FoldEntry, TicksOfItems, ReadItems, LinesOf, GoodItem;
    if !HasPrompt(t) {
      ItemsAdd(ms, ItemsOf(t));
    } else {
      var asked := FoldEntry(ms, PromptEntry(t));
      TextAdds(ms, t.uuid, PromptEntry(t).body, t.sent);
      ItemsAdd(asked, t.items);
      AddsThenAdds(ms, asked, ReadTurn(ms, t), LinesOf(t.sent), |t.sent.events|, NOTHING, TicksOfItems(t.items));
      assert LinesOf(t.sent) + NOTHING == LinesOf(t.sent);
    }
  }

  lemma OneItem(item: Item)
    ensures TicksOfItems([item]) == TicksOfItem(item)
  {
    assert [item][..0] == [];
  }

  lemma NoTicks()
    ensures TicksOfItems([]) == 0
  {
  }

  function AllReadLines(turns: seq<Turn>): seq<Line> {
    if turns == [] then NOTHING else AllReadLines(turns[..|turns| - 1]) + ReadLines(turns[|turns| - 1])
  }

  function AllPromptEvents(turns: seq<Turn>): nat {
    if turns == [] then 0 else AllPromptEvents(turns[..|turns| - 1]) + PromptEvents(turns[|turns| - 1])
  }

  function AllTicks(turns: seq<Turn>): nat {
    if turns == [] then 0 else AllTicks(turns[..|turns| - 1]) + TicksOfItems(ItemsOf(turns[|turns| - 1]))
  }

  ghost predicate GoodItems(turns: seq<Turn>) {
    forall t :: t in turns ==> forall i :: i in ItemsOf(t) ==> GoodItem(i)
  }

  lemma {:induction false} TurnsRead(turns: seq<Turn>)
    requires GoodItems(turns)
    ensures Adds([], ReadTurns(turns), AllReadLines(turns), AllPromptEvents(turns) + AllTicks(turns))
  {
    hide Adds, ReadTurn, ReadLines, PromptEvents, TicksOfItems, ItemsOf, GoodItem;
    if turns == [] {
      AddsNothing([], []);
    } else {
      var init, t := turns[..|turns| - 1], turns[|turns| - 1];
      assert t in turns;
      TurnsRead(init);
      TurnReads(ReadTurns(init), t);
      AddsThenAdds([], ReadTurns(init), ReadTurns(turns), AllReadLines(init), AllPromptEvents(init) + AllTicks(init),
                   ReadLines(t), PromptEvents(t) + TicksOfItems(ItemsOf(t)));
    }
  }

  // ----- what the screen adds -----

  /** A message about a turn, for the session on screen. */
  predicate Relayed(e: Event, sid: Option<string>) {
    && (StreamedBlock(e).Some? || e.ToolDone? || e.TurnResult? || e.SystemNote?)
    && (Scope(e) == sid || Scope(e) == None)
  }

  /** The open bubble, if any, is one assistant's, and new ids are new. */
  ghost predicate Sane(l: Live, sid: Option<string>, ids: nat -> string) {
    Injective(ids) && Drawn(l, ids) && l.chat.active == sid && exists trail :: Trailed(l.chat, trail)
  }

  lemma NextIdIsNew(l: Live, ids: nat -> string)
    requires Injective(ids) && Drawn(l, ids)
    ensures forall m :: m in l.chat.messages ==> m.id != ids(l.drawn)
  {
  }

  lemma HandleIds(chat: Chat, e: Event, newId: string, m: Message)
    requires !e.SessionStarted? && !e.Error? && m in Handle(chat, e, newId).messages
    ensures m.id == newId || exists before :: before in chat.messages && before.id == m.id
  {
    hide AddBlock, SetResultIn;
    var next := Handle(chat, e, newId);
    var k :| 0 <= k < |next.messages| && next.messages[k] == m;
    if k < |chat.messages| { assert chat.messages[k] in chat.messages && chat.messages[k].id == m.id; }
  }

  lemma TellKeepsSane(l: Live, e: Event, sid: Option<string>, ids: nat -> string)
    requires Sane(l, sid, ids) && Relayed(e, sid)
    ensures Sane(Tell(l, e, ids), sid, ids)
  {
    hide Handle, Trailed, TrailAfter, StreamedBlock;
    var trail :| Trailed(l.chat, trail);
    var l' := Tell(l, e, ids);
    NextIdIsNew(l, ids);
    HandleKeepsTrail(l.chat, trail, e, ids(l.drawn));
    StaysActive(l.chat, e, sid, ids(l.drawn));
    forall m | m in l'.chat.messages ensures exists k: nat :: k < l'.drawn && m.id == ids(k) {
      HandleIds(l.chat, e, ids(l.drawn), m);
      if m.id != ids(l.drawn) {
        var before :| before in l.chat.messages && before.id == m.id;
        var k: nat :| k < l.drawn && before.id == ids(k);
        assert k < l'.drawn;
      }
    }
  }

  lemma StaysActive(chat: Chat, e: Event, sid: Option<string>, newId: string)
    requires Relayed(e, sid)
    ensures !e.SessionStarted? && !e.Error? && Handle(chat, e, newId).active == chat.active
    ensures chat.active == sid ==> !Dropped(chat, e)
  {
    hide AddTo, SetResult, Finish;
  }

  function NoteOf(e: Event): seq<Line> {
    if e.SystemNote? && e.note.Some? then [Line(System, e.note.value)] else NOTHING
  }

  function NotesIn(es: seq<Event>): seq<Line> {
    if es == [] then NOTHING else NotesIn(es[..|es| - 1]) + NoteOf(es[|es| - 1])
  }

  function TicksIn(es: seq<Event>): nat {
    if es == [] then 0 else TicksIn(es[..|es| - 1]) + if es[|es| - 1].TaskTick? then 1 else 0
  }

  lemma GrowthAdds(chat: Chat, trail: seq<Role>, b: Block)
    requires Trailed(chat, trail) && chat.current.Some?
    ensures Adds(chat.messages, AddTo(chat.messages, chat.current.value, b), NOTHING, if b.Task? then 1 else 0)
  {
    hide Adds, AddBlock, TasksIn;
    var k :| TrailedFrom(chat, trail, k);
    var blocks := chat.messages[k].blocks;
    WordsAdd(blocks, b);
    BubbleAdds(chat.messages, k, AddBlock(blocks, b), if b.Task? then 1 else 0);
    assert AddTo(chat.messages, chat.current.value, b) ==
           chat.messages[k := chat.messages[k].(blocks := AddBlock(blocks, b))];
  }

  lemma StreamAdds(chat: Chat, trail: seq<Role>, b: Block, newId: string)
    requires Trailed(chat, trail) && forall m :: m in chat.messages ==> m.id != newId
    ensures Adds(chat.messages, Stream(chat, b, newId).messages, NOTHING, if b.Task? then 1 else 0)
  {
    hide Adds, AddTo, Trailed;
    var c, tasks := Ensured(chat, newId), if b.Task? then 1 else 0;
    EnsuredKeepsTrail(chat, trail, newId);
    GrowthAdds(c, if chat.current.None? then [] else trail, b);
    if chat.current.None? {
      MessageAdds(chat.messages, Message(newId, Assistant, [], false));
      NoTasks([]);
    } else {
      AddsNothing(chat.messages, c.messages);
    }
    assert NOTHING + NOTHING == NOTHING;
    AddsThenAdds(chat.messages, c.messages, Stream(chat, b, newId).messages, NOTHING, 0, NOTHING, tasks);
  }

  lemma ResultAddsNothing(ms: seq<Message>, id: string, content: Content, isError: bool)
    ensures Adds(ms, SetResult(ms, id, content, isError), NOTHING, 0)
  {
    hide Words, TasksIn;
    var next := SetResult(ms, id, content, isError);
    forall k | 0 <= k < |ms| ensures GistOf(next[k]) == GistOf(ms[k]) { SameWords(next[k].blocks, ms[k].blocks); }
    AddsNothing(ms, next);
  }

  lemma FinishAddsNothing(ms: seq<Message>, id: Option<string>)
    ensures Adds(ms, Finish(ms, id), NOTHING, 0)
  {
    hide Words, TasksIn;
    AddsNothing(ms, Finish(ms, id));
  }

  lemma NoteAdds(ms: seq<Message>, note: string, newId: string)
    ensures Adds(ms, ms + [Message(newId, System, [Info(note)], true)], [Line(System, note)], 0)
  {
    hide Adds, Words, TasksIn;
    OneBlockWords(Info(note));
    MessageAdds(ms, Message(newId, System, [Info(note)], true));
  }

  lemma EventAdds(l: Live, e: Event, sid: Option<string>, ids: nat -> string)
    requires Sane(l, sid, ids) && Relayed(e, sid)
    ensures Adds(l.chat.messages, Tell(l, e, ids).chat.messages, NoteOf(e), if e.TaskTick? then 1 else 0)
  {
    hide Adds, Stream, SetResult, Finish, Trailed;
    var trail :| Trailed(l.chat, trail);
    var chat, newId := l.chat, ids(l.drawn);
    NextIdIsNew(l, ids);
    StaysActive(chat, e, sid, newId);
    if StreamedBlock(e).Some? {
      HandleStreams(chat, e, newId);
      StreamAdds(chat, trail, StreamedBlock(e).value, newId);
    } else {
      match e
      case ToolDone(_, id, content, isError) => ResultAddsNothing(chat.messages, id, content, isError);
      case TurnResult(_) => FinishAddsNothing(chat.messages, chat.current);
      case SystemNote(_, note) =>
        AddsNothing(chat.messages, chat.messages);
        if note.Some? { NoteAdds(chat.messages, note.value, newId); }
    }
  }

  lemma {:induction false} EventsAdd(l: Live, es: seq<Event>, sid: Option<string>, ids: nat -> string)
    requires Sane(l, sid, ids) && forall e :: e in es ==> Relayed(e, sid)
    ensures Sane(TellAll(l, es, ids), sid, ids)
    ensures Adds(l.chat.messages, TellAll(l, es, ids).chat.messages, NotesIn(es), TicksIn(es))
  {
    hide Adds, Sane, Tell, Relayed, NoteOf;
    if es == [] {
      AddsNothing(l.chat.messages, l.chat.messages);
    } else {
      var init, e := es[..|es| - 1], es[|es| - 1];
      var mid := TellAll(l, init, ids);
      EventsAdd(l, init, sid, ids);
      EventAdds(mid, e, sid, ids);
      TellKeepsSane(mid, e, sid, ids);
      AddsThenAdds(l.chat.messages, mid.chat.messages, TellAll(l, es, ids).chat.messages, NotesIn(init), TicksIn(init),
                   NoteOf(e), if e.TaskTick? then 1 else 0);
    }
  }

  // ----- what the session sends, shown or suppressed -----

  /** These messages say nothing but relayed events with so many task events. */
  ghost predicate Says(es: seq<Event>, sid: Option<string>, ticks: nat) {
    (forall e :: e in es ==> Relayed(e, sid)) && NotesIn(es) == NOTHING && TicksIn(es) == ticks
  }

  lemma SaysAppend(a: seq<Event>, b: seq<Event>, sid: Option<string>, m: nat, n: nat)
    requires Says(a, sid, m) && Says(b, sid, n)
    ensures Says(a + b, sid, m + n)
  {
    hide Relayed, NotesIn, TicksIn;
    NotesAppend(a, b);
    assert NOTHING + NOTHING == NOTHING;
  }

  lemma {:induction false} NotesAppend(a: seq<Event>, b: seq<Event>)
    ensures NotesIn(a + b) == NotesIn(a) + NotesIn(b) && TicksIn(a + b) == TicksIn(a) + TicksIn(b)
  {
    hide NoteOf;
    if b == [] {
      assert a + b == a && NotesIn(a) + NOTHING == NotesIn(a);
    } else {
      var init, note := b[..|b| - 1], NoteOf(b[|b| - 1]);
      NotesAppend(a, init);
      assert (a + b)[..|a + b| - 1] == a + init;
      assert (NotesIn(a) + NotesIn(init)) + note == NotesIn(a) + (NotesIn(init) + note);
    }
  }

  lemma SaysOne(e: Event, sid: Option<string>)
    requires Relayed(e, sid) && !e.SystemNote?
    ensures Says([e], sid, if e.TaskTick? then 1 else 0)
  {
    assert [e][..0] == [];
  }

  lemma {:induction false} BlocksSay(stream: bool, suppress: bool, sid: Option<string>, blocks: seq<SdkBlock>)
    ensures Says(DispatchBlocks(stream, suppress, sid, blocks), sid, 0)
  {
    hide Says;
    SaysNothing(sid);
    if blocks != [] {
      var init, b := blocks[..|blocks| - 1], blocks[|blocks| - 1];
      var sent := DispatchBlock(stream, suppress, sid, b);
      BlocksSay(stream, suppress, sid, init);
      if sent != [] { SaysOne(sent[0], sid); assert sent == [sent[0]]; }
      SaysAppend(DispatchBlocks(stream, suppress, sid, init), sent, sid, 0, 0);
    }
  }

  lemma SaysNothing(sid: Option<string>)
    ensures Says([], sid, 0)
  {
  }

  lemma {:induction false} ResultsSay(suppress: bool, sid: Option<string>, os: seq<Outcome>)
    ensures Says(DispatchUser(suppress, sid, Results(os)), sid, 0)
  {
    hide Says;
    SaysNothing(sid);
    if os != [] {
      var init, o := os[..|os| - 1], os[|os| - 1];
      ResultsSay(suppress, sid, init);
      assert Results(os)[..|os| - 1] == Results(init);
      var sent := DispatchUserBlock(suppress, sid, GotResult(o));
      if sent != [] { SaysOne(sent[0], sid); }
      SaysAppend(DispatchUser(suppress, sid, Results(init)), sent, sid, 0, 0);
    }
  }

  lemma {:induction false} TicksSay(sid: Option<string>, events: seq<TaskEvent>)
    ensures Says(Ticks(sid, events), sid, |events|)
  {
    hide Says;
    if events == [] {
      SaysNothing(sid);
    } else {
      var init, e := events[..|events| - 1], events[|events| - 1];
      TicksSay(sid, init);
      SaysOne(TaskTick(sid, e), sid);
      SaysAppend(Ticks(sid, init), [TaskTick(sid, e)], sid, |init|, 1);
      assert Ticks(sid, events) == Ticks(sid, init) + [TaskTick(sid, e)];
    }
  }

  lemma {:induction false} PartialsSay(stream: bool, suppress: bool, sid: Option<string>, thinking: bool,
                                       ds: seq<string>)
    ensures Says(DispatchAll(stream, suppress, sid, Partials(thinking, ds)), sid, 0)
  {
    hide Says;
    SaysNothing(sid);
    if ds != [] {
      var init, d := ds[..|ds| - 1], ds[|ds| - 1];
      PartialsSay(stream, suppress, sid, thinking, init);
      assert Partials(thinking, ds)[..|ds| - 1] == Partials(thinking, init);
      var sent := Dispatch(stream, suppress, sid, Partial(thinking, d));
      if sent != [] { SaysOne(sent[0], sid); }
      SaysAppend(DispatchAll(stream, suppress, sid, Partials(thinking, init)), sent, sid, 0, 0);
    }
  }

  lemma OneSays(stream: bool, suppress: bool, sid: Option<string>, m: SdkMessage)
    ensures DispatchAll(stream, suppress, sid, [m]) == Dispatch(stream, suppress, sid, m)
  {
    assert [m][..0] == [];
  }

  lemma PieceSays(stream: bool, suppress: bool, sid: Option<string>, p: Piece)
    ensures Says(DispatchAll(stream, suppress, sid, SdkOfPiece(p)), sid, 0)
  {
    hide Says, DispatchBlocks, DispatchAll, Partials;
    var whole := SdkOfPiece(p)[|SdkOfPiece(p)| - 1];
    OneSays(stream, suppress, sid, whole);
    BlocksSay(stream, suppress, sid, whole.blocks);
    if !p.ToolPiece? {
      PartialsSay(stream, suppress, sid, p.ThinkingPiece?, p.deltas);
      DispatchAppend(stream, suppress, sid, Partials(p.ThinkingPiece?, p.deltas), [whole]);
      SaysAppend(DispatchAll(stream, suppress, sid, Partials(p.ThinkingPiece?, p.deltas)),
                 DispatchAll(stream, suppress, sid, [whole]), sid, 0, 0);
    }
  }

  lemma {:induction false} PiecesSay(stream: bool, suppress: bool, sid: Option<string>, ps: seq<Piece>)
    ensures Says(DispatchAll(stream, suppress, sid, SdkOfPieces(ps)), sid, 0)
  {
    hide Says, SdkOfPiece;
    SaysNothing(sid);
    if ps != [] {
      var init, p := ps[..|ps| - 1], ps[|ps| - 1];
      PiecesSay(stream, suppress, sid, init);
      PieceSays(stream, suppress, sid, p);
      DispatchAppend(stream, suppress, sid, SdkOfPieces(init), SdkOfPiece(p));
      SaysAppend(DispatchAll(stream, suppress, sid, SdkOfPieces(init)),
                 DispatchAll(stream, suppress, sid, SdkOfPiece(p)), sid, 0, 0);
    }
  }

  lemma ItemSays(stream: bool, suppress: bool, sid: Option<string>, item: Item)
    ensures Says(DispatchAll(stream, suppress, sid, SdkOfItem(item)), sid, TicksOfItem(item))
  {
    hide Says, DispatchAll, Results;
    match item
    case Said(_, pieces) => PiecesSay(stream, suppress, sid, pieces);
    case Got(_, outcomes) =>
      OneSays(stream, suppress, sid, UserGot(Results(outcomes)));
      ResultsSay(suppress, sid, outcomes);
    case Ticked(_, text) =>
      OneSays(stream, suppress, sid, UserGot([GotText(text.events)]));
      assert [GotText(text.events)][..0] == [];
      assert DispatchUser(suppress, sid, [GotText(text.events)]) == Ticks(sid, text.events);
      TicksSay(sid, text.events);
  }

  lemma {:induction false} ItemsSay(stream: bool, suppress: bool, sid: Option<string>, items: seq<Item>)
    ensures Says(DispatchAll(stream, suppress, sid, SdkOfItems(items)), sid, TicksOfItems(items))
  {
    hide Says, SdkOfItem, TicksOfItem;
    SaysNothing(sid);
    if items != [] {
      var init, item := items[..|items| - 1], items[|items| - 1];
      ItemsSay(stream, suppress, sid, init);
      ItemSays(stream, suppress, sid, item);
      DispatchAppend(stream, suppress, sid, SdkOfItems(init), SdkOfItem(item));
      SaysAppend(DispatchAll(stream, suppress, sid, SdkOfItems(init)),
                 DispatchAll(stream, suppress, sid, SdkOfItem(item)), sid, TicksOfItems(init), TicksOfItem(item));
    }
  }

  /** What a turn shows of the user's side: its echo, or the note of a change. */
  function ShownLines(t: Turn): seq<Line> {
    match t
    case Asked(_, prompt, _, _, _) => [Line(User, prompt)]
    case Hidden(_, _, _, _) => NOTHING
    case Changed(note) => [Line(System, note)]
    case Notified(_, _) => NOTHING
  }

  lemma SentSays(t: Turn, sid: Option<string>)
    ensures var es := SentOf(sid, t);
      && (forall e :: e in es ==> Relayed(e, sid))
      && NotesIn(es) == (if t.Changed? then ShownLines(t) else NOTHING) && TicksIn(es) == TicksOfItems(ItemsOf(t))
  {
    hide DispatchAll, SdkOfItems;
    var es := SentOf(sid, t);
    if t.Changed? {
      assert es[..0] == [] && NOTHING + NoteOf(es[0]) == NoteOf(es[0]);
      NoTicks();
    } else if t.Notified? {
      TicksSay(sid, t.text.events);
      OneItem(Ticked(t.uuid, t.text));
    } else {
      var last := Dispatch(t.stream, t.Hidden?, sid, Finished);
      DispatchAppend(t.stream, t.Hidden?, sid, SdkOfItems(t.items), [Finished]);
      OneSays(t.stream, t.Hidden?, sid, Finished);
      ItemsSay(t.stream, t.Hidden?, sid, t.items);
      SaysNothing(sid);
      if last != [] { SaysOne(TurnResult(sid), sid); }
      SaysAppend(DispatchAll(t.stream, t.Hidden?, sid, SdkOfItems(t.items)), last, sid, TicksOfItems(t.items), 0);
    }
  }

  lemma EchoAdds(l: Live, t: Turn, sid: Option<string>, ids: nat -> string)
    requires Sane(l, sid, ids)
    ensures Sane(Echo(l, t, ids), sid, ids)
    ensures Adds(l.chat.messages, Echo(l, t, ids).chat.messages, if t.Asked? then ShownLines(t) else NOTHING, 0)
  {
    hide Adds, Trailed, Words, TasksIn, TrailAfter;
    if t.Asked? {
      var trail :| Trailed(l.chat, trail);
      var l', newId := Echo(l, t, ids), ids(l.drawn);
      var blocks := (if t.prompt != "" then [Text(t.prompt)] else []) + [];
      NextIdIsNew(l, ids);
      StepKeepsTrail(l.chat, trail, Prompt(t.prompt, []), newId);
      forall m | m in l'.chat.messages ensures exists k: nat :: k < l'.drawn && m.id == ids(k) {
        if m !in l.chat.messages { assert m.id == ids(l.drawn); }
      }
      PromptWords(t.prompt, blocks);
      MessageAdds(l.chat.messages, Message(newId, User, blocks, true));
    } else {
      AddsNothing(l.chat.messages, l.chat.messages);
    }
  }

  lemma PromptWords(prompt: string, blocks: seq<Block>)
    requires blocks == if prompt != "" then [Text(prompt)] else []
    ensures Words(blocks) == prompt && TasksIn(blocks) == 0
  {
    if prompt != "" { OneBlockWords(Text(prompt)); }
  }

  function AllShownLines(turns: seq<Turn>): seq<Line> {
    if turns == [] then NOTHING else AllShownLines(turns[..|turns| - 1]) + ShownLines(turns[|turns| - 1])
  }

  lemma NothingOnScreen(sid: Option<string>, ids: nat -> string)
    requires Injective(ids)
    ensures Sane(OnScreen(sid, [], ids), sid, ids) && OnScreen(sid, [], ids).chat.messages == []
  {
    assert Trailed(OnScreen(sid, [], ids).chat, []);
  }

  lemma {:induction false} TurnsShow(turns: seq<Turn>, sid: Option<string>, ids: nat -> string)
    requires Injective(ids)
    ensures Sane(OnScreen(sid, turns, ids), sid, ids)
    ensures Adds([], OnScreen(sid, turns, ids).chat.messages, AllShownLines(turns), AllTicks(turns))
  {
    hide Adds, Sane, TellAll, Echo, SentOf, ShownLines, TicksOfItems, Relayed;
    if turns == [] {
      NothingOnScreen(sid, ids);
      AddsNothing([], []);
    } else {
      var init, t := turns[..|turns| - 1], turns[|turns| - 1];
      var before := OnScreen(sid, init, ids);
      var echoed := Echo(before, t, ids);
      TurnsShow(init, sid, ids);
      EchoAdds(before, t, sid, ids);
      SentSays(t, sid);
      EventsAdd(echoed, SentOf(sid, t), sid, ids);
      var echo := if t.Asked? then ShownLines(t) else NOTHING;
      AddsThenAdds(before.chat.messages, echoed.chat.messages, OnScreen(sid, turns, ids).chat.messages, echo, 0,
                   NotesIn(SentOf(sid, t)), TicksIn(SentOf(sid, t)));
      NoEcho(t);
      AddsThenAdds([], before.chat.messages, OnScreen(sid, turns, ids).chat.messages, AllShownLines(init),
                   AllTicks(init), ShownLines(t), TicksOfItems(ItemsOf(t)));
    }
  }

  lemma NoEcho(t: Turn)
    ensures (if t.Asked? then ShownLines(t) else NOTHING) + (if t.Changed? then ShownLines(t) else NOTHING) ==
            ShownLines(t)
  {
  }
}
