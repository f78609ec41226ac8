/** Reading a session back from its transcript (worker-claude/src/sessions/reader.py):
    entries are folded into chat messages, and the messages are served in pages.

    Regex cleaning is not modelled: a user text carries its visible remainder and the task
    events found in it. */
module Transcript {
  import opened PythonText
  import opened ToolResults
  import opened Wrappers

  // ----- chat messages -----

  datatype TaskEvent = TaskEvent(eventType: string, taskId: Option<string>, summary: Option<string>,
                                 description: Option<string>, status: Option<string>, toolUseId: Option<string>)

  datatype Block =
    | Text(text: string)
    | Thinking(text: string)
    | Image(mediaType: string, data: string)
    | Info(text: string)
    | Tool(id: string, name: string, input: string, result: Option<Content>, isError: Option<bool>)
    | ToolResult(id: string, content: Content, failed: bool)
    | Task(event: TaskEvent)

  datatype Role = User | Assistant | System

  datatype Message = Message(id: string, role: Role, blocks: seq<Block>, finished: bool)

  // ----- transcript entries -----

  datatype RawText = RawText(raw: string, visible: string, events: seq<TaskEvent>)

  datatype RawBlock =
    | RawTextBlock(text: RawText)
    | RawThinking(thinking: string)
    | RawToolUse(id: string, name: string, input: string)
    | RawToolResult(toolUseId: string, content: Content, isError: bool)
    | RawOther

  /** `content` of the entry's message: a string, a list, or something else; `NoMessage` if
      the entry has no message at all. */
  datatype Body = NoMessage | NoBlocks | Plain(text: RawText) | Blocks(blocks: seq<RawBlock>)

  datatype EntryType = UserEntry | AssistantEntry | OtherEntry

  datatype Entry = Entry(etype: EntryType, uuid: string, body: Body)

  // ----- one entry -----

  function Convert(b: RawBlock): Option<Block> {
    match b
    case RawTextBlock(t) => Some(Text(t.raw))
    case RawThinking(t) => Some(Thinking(t))
    case RawToolUse(id, name, input) => Some(Tool(id, name, input, None, None))
    case RawToolResult(id, content, isError) => Some(ToolResult(id, Truncate(content), isError))
    case RawOther => None
  }

  /** The blocks of an assistant entry. */
  function Converted(raw: seq<RawBlock>): seq<Block> {
    if raw == [] then []
    else (var b := Convert(raw[0]); if b.Some? then [b.value] else []) + Converted(raw[1..])
  }

  /** The blocks of a user entry: texts are cleaned, and dropped when nothing is left. */
  function Cleaned(raw: seq<RawBlock>): seq<Block> {
    if raw == [] then []
    else CleanedOne(raw[0]) + Cleaned(raw[1..])
  }

  function CleanedOne(b: RawBlock): seq<Block> {
    if b.RawTextBlock? then (if b.text.visible == "" then [] else [Text(b.text.visible)])
    else var c := Convert(b); if c.Some? then [c.value] else []
  }

  function TaskBlocks(raw: seq<RawBlock>): seq<Block> {
    if raw == [] then []
    else TaskBlocksOf(raw[0]) + TaskBlocks(raw[1..])
  }

  function TaskBlocksOf(b: RawBlock): seq<Block> {
    if b.RawTextBlock? then seq(|b.text.events|, i requires 0 <= i < |b.text.events| => Task(b.text.events[i])) else []
  }

  function RawBlocks(body: Body): seq<RawBlock> {
    match body
    case Plain(t) => [RawTextBlock(t)]
    case Blocks(bs) => bs
    case _ => []
  }

  predicate Visible(b: Block) {
    match b
    case Tool(_, _, _, _, _) => true
    case Task(_) => true
    case Image(_, _) => true
    case Text(t) => !Blank(t)
    case Thinking(t) => !Blank(t)
    case _ => false
  }

  predicate AnyVisible(blocks: seq<Block>) { exists b :: b in blocks && Visible(b) }

  // ----- attaching to earlier messages -----

  /** Index of the first tool block with this id, or the length. */
  function FirstTool(blocks: seq<Block>, id: string): (k: nat)
    ensures k <= |blocks|
    ensures k < |blocks| ==> blocks[k].Tool? && blocks[k].id == id
    ensures forall j :: 0 <= j < k ==> !(blocks[j].Tool? && blocks[j].id == id)
  {
    if blocks == [] || (blocks[0].Tool? && blocks[0].id == id) then 0 else 1 + FirstTool(blocks[1..], id)
  }

  /** The result goes to the first matching block of the last message that has one. */
  function AttachResult(ms: seq<Message>, r: Block): (out: seq<Message>)
    requires r.ToolResult?
    ensures |out| == |ms|
  {
    if ms == [] then []
    else
      var last := ms[|ms| - 1];
      var k := FirstTool(last.blocks, r.id);
      if k < |last.blocks| then
        ms[..|ms| - 1] + [last.(blocks := last.blocks[k := WithResult(last.blocks[k], r.content, r.failed)])]
      else AttachResult(ms[..|ms| - 1], r) + [last]
  }

  function WithResult(b: Block, content: Content, isError: bool): Block
    requires b.Tool?
  {
    b.(result := Some(content), isError := Some(isError))
  }

  function AttachResults(ms: seq<Message>, blocks: seq<Block>): (out: seq<Message>)
    ensures |out| == |ms|
    decreases blocks
  {
    if blocks == [] then ms
    else AttachResults(if blocks[0].ToolResult? then AttachResult(ms, blocks[0]) else ms, blocks[1..])
  }

  function WithoutResults(blocks: seq<Block>): seq<Block> {
    if blocks == [] then []
    else (if blocks[0].ToolResult? then [] else [blocks[0]]) + WithoutResults(blocks[1..])
  }

  /** Task events go to the last assistant message; without one, to a message of their own. */
  function AttachTasks(ms: seq<Message>, uuid: string, tasks: seq<Block>): seq<Message> {
    var k := LastAssistant(ms);
    if k < |ms| then ms[k := ms[k].(blocks := ms[k].blocks + tasks)]
    else ms + [Message(uuid + "-task", Assistant, tasks, true)]
  }

  /** Index of the last assistant message, or the length. */
  function LastAssistant(ms: seq<Message>): (k: nat)
    ensures k <= |ms|
    ensures k < |ms| ==> ms[k].role == Assistant && forall j :: k < j < |ms| ==> ms[j].role != Assistant
    ensures k == |ms| ==> forall j :: 0 <= j < |ms| ==> ms[j].role != Assistant
  {
    if ms == [] then 0
    else if ms[|ms| - 1].role == Assistant then |ms| - 1
    else
      var k := LastAssistant(ms[..|ms| - 1]);
      if k == |ms| - 1 then |ms| else k
  }

  function Append(ms: seq<Message>, role: Role, uuid: string, blocks: seq<Block>): seq<Message> {
    if role == Assistant && ms != [] && ms[|ms| - 1].role == Assistant then
      ms[..|ms| - 1] + [ms[|ms| - 1].(blocks := ms[|ms| - 1].blocks + blocks)]
    else ms + [Message(uuid, role, blocks, true)]
  }

  // ----- the fold -----

  function FoldUser(ms: seq<Message>, e: Entry): seq<Message> {
    var raw := RawBlocks(e.body);
    var tasks := TaskBlocks(raw);
    var ms1 := if tasks == [] then ms else AttachTasks(ms, e.uuid, tasks);
    var blocks := Cleaned(raw);
    var ms2 := AttachResults(ms1, blocks);
    var rest := WithoutResults(blocks);
    if rest == [] then ms2 else Append(ms2, User, e.uuid, rest)
  }

  function FoldAssistant(ms: seq<Message>, e: Entry): seq<Message> {
    var blocks := Converted(RawBlocks(e.body));
    if AnyVisible(blocks) then Append(ms, Assistant, e.uuid, blocks) else ms
  }

  function FoldEntry(ms: seq<Message>, e: Entry): seq<Message> {
    match e.etype
    case UserEntry => FoldUser(ms, e)
    case AssistantEntry => FoldAssistant(ms, e)
    case OtherEntry => ms
  }

  function Fold(entries: seq<Entry>): seq<Message> {
    if entries == [] then []
    else FoldEntry(Fold(entries[..|entries| - 1]), entries[|entries| - 1])
  }

  /** A block that a reader of the chat would see: a tool call, or words that are not all blank. */
  predicate HasContent(b: RawBlock) {
    match b
    case RawToolUse(_, _, _) => true
    case RawTextBlock(t) => !Blank(t.raw)
    case RawThinking(t) => !Blank(t)
    case _ => false
  }

  lemma VisibleIffContent(b: RawBlock)
    ensures HasContent(b) <==> Convert(b).Some? && Visible(Convert(b).value)
  {
    hide Blank, Truncate;
  }

  lemma {:induction false} VisibleFromRaw(raw: seq<RawBlock>)
    ensures AnyVisible(Converted(raw)) <==> exists n :: 0 <= n < |raw| && HasContent(raw[n])
  {
    hide Visible, HasContent, Convert;
    if raw != [] {
      VisibleFromRaw(raw[1..]);
      VisibleIffContent(raw[0]);
      var first := Convert(raw[0]);
      assert forall b :: b in Converted(raw) <==> first == Some(b) || b in Converted(raw[1..]);
      if HasContent(raw[0]) { assert first.value in Converted(raw); }
      if n :| 0 <= n < |raw| - 1 && HasContent(raw[1..][n]) { assert HasContent(raw[n + 1]); }
    }
  }

  /** An assistant entry leaves the page as it is exactly if there is nothing to see in it. */
  lemma StubIsSkippedIff(ms: seq<Message>, e: Entry)
    requires e.etype == AssistantEntry
    ensures FoldEntry(ms, e) == ms <==> forall n :: 0 <= n < |RawBlocks(e.body)| ==> !HasContent(RawBlocks(e.body)[n])
  {
    hide HasContent, Visible, Converted;
    VisibleFromRaw(RawBlocks(e.body));
    var blocks := Converted(RawBlocks(e.body));
    if AnyVisible(blocks) {
      assert |blocks| > 0;
      if ms != [] && ms[|ms| - 1].role == Assistant {
        assert Append(ms, Assistant, e.uuid, blocks)[|ms| - 1].blocks != ms[|ms| - 1].blocks;
      }
    }
  }

  // ----- growth: more entries never remove or reorder a message -----

  function Ids(ms: seq<Message>): (ids: seq<string>)
    ensures |ids| == |ms|
  {
    seq(|ms|, i requires 0 <= i < |ms| => ms[i].id)
  }

  lemma {:induction false} AttachResultKeepsIds(ms: seq<Message>, r: Block)
    requires r.ToolResult?
    ensures Ids(AttachResult(ms, r)) == Ids(ms)
  {
    if ms != [] && FirstTool(ms[|ms| - 1].blocks, r.id) == |ms[|ms| - 1].blocks| {
      AttachResultKeepsIds(ms[..|ms| - 1], r);
      assert Ids(AttachResult(ms, r)) == Ids(AttachResult(ms[..|ms| - 1], r)) + [ms[|ms| - 1].id];
      assert Ids(ms) == Ids(ms[..|ms| - 1]) + [ms[|ms| - 1].id];
    }
  }

  lemma {:induction false} AttachResultsKeepIds(ms: seq<Message>, blocks: seq<Block>)
    ensures Ids(AttachResults(ms, blocks)) == Ids(ms)
    decreases blocks
  {
    if blocks != [] {
      if blocks[0].ToolResult? { AttachResultKeepsIds(ms, blocks[0]); }
      AttachResultsKeepIds(if blocks[0].ToolResult? then AttachResult(ms, blocks[0]) else ms, blocks[1..]);
    }
  }

  lemma FoldEntryGrows(ms: seq<Message>, e: Entry)
    ensures Ids(ms) <= Ids(FoldEntry(ms, e))
  {
    if e.etype == UserEntry {
      var raw := RawBlocks(e.body);
      var tasks := TaskBlocks(raw);
      var ms1 := if tasks == [] then ms else AttachTasks(ms, e.uuid, tasks);
      assert Ids(ms) <= Ids(ms1);
      AttachResultsKeepIds(ms1, Cleaned(raw));
    }
  }

  lemma {:induction false} FoldGrows(entries: seq<Entry>, more: seq<Entry>)
    ensures Ids(Fold(entries)) <= Ids(Fold(entries + more))
  {
    hide FoldEntry, Ids;
    if more == [] {
      assert entries + more == entries;
    } else {
      var init := more[..|more| - 1];
      FoldGrows(entries, init);
      assert (entries + more)[..|entries + more| - 1] == entries + init;
      FoldEntryGrows(Fold(entries + init), more[|more| - 1]);
    }
  }

  // ----- what is shown of a tool result -----

  /** The entry holds the result that the block shows, as it is served. */
  ghost predicate ShownFrom(e: Entry, b: Block, n: int)
    requires b.Tool? && b.result.Some?
  {
    && e.etype == UserEntry && 0 <= n < |RawBlocks(e.body)|
    && var raw := RawBlocks(e.body)[n];
       raw.RawToolResult? && raw.toolUseId == b.id && Served(raw.content, b.result.value)
       && b.isError == Some(raw.isError)
  }

  ghost predicate FromTranscript(entries: seq<Entry>, b: Block) {
    b.Tool? && b.result.Some? ==> exists j, n :: 0 <= j < |entries| && ShownFrom(entries[j], b, n)
  }

  ghost predicate AllFromTranscript(entries: seq<Entry>, ms: seq<Message>) {
    forall i, k :: 0 <= i < |ms| && 0 <= k < |ms[i].blocks| ==> FromTranscript(entries, ms[i].blocks[k])
  }

  /** A result block stems from a raw result of the entry. */
  ghost predicate StemsFrom(e: Entry, r: Block)
    requires r.ToolResult?
  {
    exists n :: 0 <= n < |RawBlocks(e.body)| && ServesAt(RawBlocks(e.body), r, n)
  }

  ghost predicate ServesAt(raw: seq<RawBlock>, r: Block, n: int)
    requires r.ToolResult? && 0 <= n < |raw|
  {
    raw[n].RawToolResult? && raw[n].toolUseId == r.id && raw[n].isError == r.failed && Served(raw[n].content, r.content)
  }

  lemma {:induction false} CleanedStems(raw: seq<RawBlock>, b: Block)
    requires b in Cleaned(raw)
    ensures b.ToolResult? ==> exists n :: 0 <= n < |raw| && ServesAt(raw, b, n)
    ensures b.Tool? ==> b.result.None?
  {
    hide Served;
    if b in CleanedOne(raw[0]) {
      if b.ToolResult? {
        TruncateServes(raw[0].content);
        assert ServesAt(raw, b, 0);
      }
    } else {
      CleanedStems(raw[1..], b);
      if b.ToolResult? {
        var n :| 0 <= n < |raw| - 1 && ServesAt(raw[1..], b, n);
        assert ServesAt(raw, b, n + 1);
      }
    }
  }

  lemma {:induction false} ConvertedHasNoResults(raw: seq<RawBlock>, b: Block)
    requires b in Converted(raw)
    ensures b.Tool? ==> b.result.None?
  {
    if raw != [] && b in Converted(raw[1..]) { ConvertedHasNoResults(raw[1..], b); }
  }

  lemma {:induction false} AttachKeepsFrom(entries: seq<Entry>, ms: seq<Message>, r: Block, j: int)
    requires AllFromTranscript(entries, ms) && r.ToolResult? && 0 <= j < |entries|
    requires entries[j].etype == UserEntry && StemsFrom(entries[j], r)
    ensures AllFromTranscript(entries, AttachResult(ms, r))
  {
    hide Served;
    if ms != [] {
      var last := ms[|ms| - 1];
      var k := FirstTool(last.blocks, r.id);
      if k < |last.blocks| {
        var n :| 0 <= n < |RawBlocks(entries[j].body)| && ServesAt(RawBlocks(entries[j].body), r, n);
        assert ShownFrom(entries[j], WithResult(last.blocks[k], r.content, r.failed), n);
      } else {
        AttachKeepsFrom(entries, ms[..|ms| - 1], r, j);
      }
    }
  }

  lemma {:induction false} AttachAllKeepsFrom(entries: seq<Entry>, ms: seq<Message>, blocks: seq<Block>, j: int)
    requires AllFromTranscript(entries, ms) && 0 <= j < |entries| && entries[j].etype == UserEntry
    requires forall b :: b in blocks && b.ToolResult? ==> StemsFrom(entries[j], b)
    ensures AllFromTranscript(entries, AttachResults(ms, blocks))
    decreases blocks
  {
    hide AllFromTranscript, StemsFrom, AttachResult;
    if blocks != [] {
      if blocks[0].ToolResult? { AttachKeepsFrom(entries, ms, blocks[0], j); }
      AttachAllKeepsFrom(entries, if blocks[0].ToolResult? then AttachResult(ms, blocks[0]) else ms, blocks[1..], j);
    }
  }

  lemma MoreEntries(entries: seq<Entry>, e: Entry, ms: seq<Message>)
    requires AllFromTranscript(entries, ms)
    ensures AllFromTranscript(entries + [e], ms)
  {
    hide ShownFrom;
    forall i, k | 0 <= i < |ms| && 0 <= k < |ms[i].blocks| ensures FromTranscript(entries + [e], ms[i].blocks[k]) {
      var b := ms[i].blocks[k];
      if b.Tool? && b.result.Some? {
        var j, n :| 0 <= j < |entries| && ShownFrom(entries[j], b, n);
        assert ShownFrom((entries + [e])[j], b, n);
      }
    }
  }

  lemma AppendKeepsFrom(entries: seq<Entry>, ms: seq<Message>, role: Role, uuid: string, blocks: seq<Block>)
    requires AllFromTranscript(entries, ms) && forall b :: b in blocks && b.Tool? ==> b.result.None?
    ensures AllFromTranscript(entries, Append(ms, role, uuid, blocks))
  {
    hide FromTranscript;
    forall b | b in blocks ensures FromTranscript(entries, b) { NoResultNeeded(entries, b); }
  }

  lemma NoResultNeeded(entries: seq<Entry>, b: Block)
    requires b.Tool? ==> b.result.None?
    ensures FromTranscript(entries, b)
  {
  }

  lemma {:induction false} TaskBlocksAreTasks(raw: seq<RawBlock>)
    ensures forall b :: b in TaskBlocks(raw) ==> b.Task?
  {
    if raw != [] { TaskBlocksAreTasks(raw[1..]); }
  }

  lemma TasksKeepFrom(entries: seq<Entry>, ms: seq<Message>, uuid: string, tasks: seq<Block>)
    requires AllFromTranscript(entries, ms) && forall b :: b in tasks ==> b.Task?
    ensures AllFromTranscript(entries, AttachTasks(ms, uuid, tasks))
  {
    hide FromTranscript;
    forall b | b in tasks ensures FromTranscript(entries, b) { NoResultNeeded(entries, b); }
  }

  lemma {:induction false} WithoutIsPart(blocks: seq<Block>)
    ensures forall b :: b in WithoutResults(blocks) ==> b in blocks
  {
    if blocks != [] { WithoutIsPart(blocks[1..]); }
  }

  lemma EntryKeepsFrom(entries: seq<Entry>, ms: seq<Message>, e: Entry)
    requires AllFromTranscript(entries, ms)
    ensures AllFromTranscript(entries + [e], FoldEntry(ms, e))
  {
    hide AllFromTranscript, Cleaned, TaskBlocks, Converted, AttachTasks, AttachResults, WithoutResults, Append, Visible,
         StemsFrom;
    var all, raw := entries + [e], RawBlocks(e.body);
    MoreEntries(entries, e, ms);
    match e.etype
    case UserEntry =>
      var ms1 := if TaskBlocks(raw) == [] then ms else AttachTasks(ms, e.uuid, TaskBlocks(raw));
      TaskBlocksAreTasks(raw);
      TasksKeepFrom(all, ms, e.uuid, TaskBlocks(raw));
      forall b | b in Cleaned(raw) ensures (b.ToolResult? ==> StemsFrom(e, b)) && (b.Tool? ==> b.result.None?) {
        CleanedStems(raw, b);
        if b.ToolResult? { Stems(e, b); }
      }
      AttachAllKeepsFrom(all, ms1, Cleaned(raw), |entries|);
      WithoutIsPart(Cleaned(raw));
      AppendKeepsFrom(all, AttachResults(ms1, Cleaned(raw)), User, e.uuid, WithoutResults(Cleaned(raw)));
    case AssistantEntry =>
      forall b | b in Converted(raw) ensures b.Tool? ==> b.result.None? { ConvertedHasNoResults(raw, b); }
      AppendKeepsFrom(all, ms, Assistant, e.uuid, Converted(raw));
    case OtherEntry =>
  }

  lemma Stems(e: Entry, r: Block)
    requires r.ToolResult? && exists n :: 0 <= n < |RawBlocks(e.body)| && ServesAt(RawBlocks(e.body), r, n)
    ensures StemsFrom(e, r)
  {
  }

  /** Whatever result a tool shows, some user entry of the transcript holds it for that tool:
      whole up to the limit, and cut beyond it. */
  lemma {:induction false} ResultsComeFromTranscript(entries: seq<Entry>)
    ensures AllFromTranscript(entries, Fold(entries))
  {
    hide FoldEntry;
    if entries != [] {
      var init, e := entries[..|entries| - 1], entries[|entries| - 1];
      ResultsComeFromTranscript(init);
      EntryKeepsFrom(init, Fold(init), e);
      assert init + [e] == entries;
    }
  }

  lemma {:induction false} AttachesAt(ms: seq<Message>, r: Block, i: nat, k: nat)
    requires r.ToolResult? && i < |ms| && k == FirstTool(ms[i].blocks, r.id) < |ms[i].blocks|
    requires forall j :: i < j < |ms| ==> FirstTool(ms[j].blocks, r.id) == |ms[j].blocks|
    ensures AttachResult(ms, r) ==
            ms[i := ms[i].(blocks := ms[i].blocks[k := WithResult(ms[i].blocks[k], r.content, r.failed)])]
  {
    if i < |ms| - 1 { AttachesAt(ms[..|ms| - 1], r, i, k); }
  }

  /** A result goes to the last message that has the tool, and there to its first block; it
      replaces what the block showed before, and nothing else changes. */
  lemma ResultIsShown(ms: seq<Message>, uuid: string, id: string, content: Content, isError: bool, i: nat, k: nat)
    requires i < |ms| && k < |ms[i].blocks| && ms[i].blocks[k].Tool? && ms[i].blocks[k].id == id
    requires forall q :: 0 <= q < k ==> !(ms[i].blocks[q].Tool? && ms[i].blocks[q].id == id)
    requires forall j, q :: i < j < |ms| && 0 <= q < |ms[j].blocks| ==>
               !(ms[j].blocks[q].Tool? && ms[j].blocks[q].id == id)
    ensures var e := Entry(UserEntry, uuid, Blocks([RawToolResult(id, content, isError)]));
            var b := ms[i].blocks[k];
      exists served :: Served(content, served) &&
        FoldEntry(ms, e) ==
          ms[i := ms[i].(blocks := ms[i].blocks[k := Tool(id, b.name, b.input, Some(served), Some(isError))])]
  {
    hide Served, Truncate;
    var raw := [RawToolResult(id, content, isError)];
    var r := ToolResult(id, Truncate(content), isError);
    TruncateServes(content);
    assert raw[1..] == [] && [r][1..] == [];
    assert Cleaned(raw) == [r] by { assert CleanedOne(raw[0]) == [r]; }
    assert TaskBlocks(raw) == [] by { assert TaskBlocksOf(raw[0]) == []; }
    AttachesAt(ms, r, i, k);
    assert AttachResults(ms, [r]) == AttachResult(ms, r);
    assert WithoutResults([r]) == [];
  }

  // ----- what one entry adds -----

  /** Index of the last assistant message, or the length if there is none. */
  ghost predicate IsLastAssistant(ms: seq<Message>, i: nat) {
    && i <= |ms|
    && (i < |ms| ==> ms[i].role == Assistant)
    && forall j :: (if i < |ms| then i else -1) < j < |ms| ==> ms[j].role != Assistant
  }

  /** A user text: its task events go behind the last assistant message's blocks, or to a message
      of their own if there is none; what is left after cleaning is a user message behind it. */
  lemma UserTextReads(ms: seq<Message>, uuid: string, text: RawText, i: nat)
    requires IsLastAssistant(ms, i)
    ensures var tasks := seq(|text.events|, n requires 0 <= n < |text.events| => Task(text.events[n]));
            var carried := if i < |ms| then ms[i := ms[i].(blocks := ms[i].blocks + tasks)]
                           else ms + [Message(uuid + "-task", Assistant, tasks, true)];
            var said := [Message(uuid, User, [Text(text.visible)], true)];
      FoldEntry(ms, Entry(UserEntry, uuid, Plain(text))) ==
        (if tasks == [] then ms else carried) + (if text.visible == "" then [] else said)
  {
    var raw := [RawTextBlock(text)];
    var tasks := seq(|text.events|, n requires 0 <= n < |text.events| => Task(text.events[n]));
    assert raw[1..] == [];
    assert TaskBlocks(raw) == tasks by { assert TaskBlocksOf(raw[0]) == tasks; }
    assert Cleaned(raw) == CleanedOne(raw[0]);
    assert LastAssistant(ms) == i;
    if text.visible == "" {
    } else {
      var blocks := [Text(text.visible)];
      assert blocks[1..] == [];
      assert WithoutResults(blocks) == blocks;
      var ms1 := if tasks == [] then ms else AttachTasks(ms, uuid, tasks);
      assert AttachResults(ms1, blocks) == AttachResults(ms1, blocks[1..]);
    }
  }

  /** A block of the agent with something to see joins the assistant message at the end, or
      starts one; consecutive entries of the agent are one message. */
  lemma AssistantReads(ms: seq<Message>, uuid: string, b: RawBlock)
    requires HasContent(b)
    ensures var shown := match b
              case RawToolUse(id, name, input) => Tool(id, name, input, None, None)
              case RawThinking(t) => Thinking(t)
              case RawTextBlock(t) => Text(t.raw)
              case _ => Text("");
            var n := |ms| - 1;
      FoldEntry(ms, Entry(AssistantEntry, uuid, Blocks([b]))) ==
        if ms != [] && ms[n].role == Assistant then ms[n := ms[n].(blocks := ms[n].blocks + [shown])]
        else ms + [Message(uuid, Assistant, [shown], true)]
  {
    hide Blank;
    var blocks := Converted([b]);
    assert [b][1..] == [] && Converted([]) == [];
    assert blocks == [Convert(b).value] + Converted([b][1..]) == [Convert(b).value];
    assert blocks[0] in blocks && Visible(blocks[0]);
    if ms != [] && ms[|ms| - 1].role == Assistant {
      var joined := ms[|ms| - 1].(blocks := ms[|ms| - 1].blocks + blocks);
      assert ms[..|ms| - 1] + [joined] == ms[|ms| - 1 := joined];
    }
  }

  // ----- pages -----

  datatype Page = Page(messages: seq<Message>, hasMore: bool, oldest: Option<string>)

  /** Index of the first message with this id, or the length. */
  function Find(ms: seq<Message>, id: string): (k: nat)
    ensures k <= |ms|
    ensures k < |ms| ==> ms[k].id == id
    ensures forall j :: 0 <= j < k ==> ms[j].id != id
  {
    if ms == [] || ms[0].id == id then 0 else 1 + Find(ms[1..], id)
  }

  function PageOf(ms: seq<Message>, limit: int, before: Option<string>): Page {
    var eligible :=
      if before.Some? && before.value != "" then ms[..Find(ms, before.value)] else ms;
    var shown := if 0 < limit < |eligible| then eligible[|eligible| - limit..] else eligible;
    Page(shown, 0 < limit < |eligible|, if shown == [] then None else Some(shown[0].id))
  }

  /** The messages end at the first one with the given id, or all count if there is none or no
      id is given. */
  ghost predicate EndsBefore(ms: seq<Message>, before: Option<string>, hi: nat) {
    && hi <= |ms|
    && (hi < |ms| ==> before == Some(ms[hi].id) && ms[hi].id != "")
    && (before.Some? && before.value != "" ==> forall j :: 0 <= j < hi ==> ms[j].id != before.value)
  }

  /** A page is what comes right before that end, as many messages as the limit allows, whole
      and in order; a limit of zero or less allows all. */
  lemma PageIsStretch(ms: seq<Message>, limit: int, before: Option<string>, hi: nat)
    requires EndsBefore(ms, before, hi)
    ensures var page := PageOf(ms, limit, before); var lo := if limit <= 0 || limit >= hi then 0 else hi - limit;
      && page.messages == ms[lo..hi] && (page.hasMore <==> lo > 0)
      && page.oldest == if lo < hi then Some(ms[lo].id) else None
  {
    var lo := if limit <= 0 || limit >= hi then 0 else hi - limit;
    if before.Some? && before.value != "" {
      assert Find(ms, before.value) == hi;
    } else {
      assert ms[..hi] == ms;
    }
    assert ms[..hi][lo..] == ms[lo..hi];
  }

  predicate Distinct(ids: seq<string>) { forall j, k :: 0 <= j < k < |ids| ==> ids[j] != ids[k] }

  /** The ids the client holds after a first page and `fetches` older ones, the transcript
      having grown to `files[k]` by the k-th fetch. */
  function Shown(files: seq<seq<Entry>>, limit: int): Page
    requires files != []
  {
    if |files| == 1 then PageOf(Fold(files[0]), limit, None)
    else
      var held := Shown(files[..|files| - 1], limit);
      if !held.hasMore then held
      else
        var older := PageOf(Fold(files[|files| - 1]), limit, held.oldest);
        Page(older.messages + held.messages, older.hasMore, older.oldest)
  }

  /** Each file extends the one before. */
  ghost predicate Growing(files: seq<seq<Entry>>) {
    forall k :: 0 <= k && k + 1 < |files| ==> files[k] <= files[k + 1]
  }

  lemma {:induction false} GrowingFromFirst(files: seq<seq<Entry>>, k: nat)
    requires Growing(files) && k < |files|
    ensures files[0] <= files[k]
  {
    if k > 0 { GrowingFromFirst(files, k - 1); }
  }

  /** How many of the first file's messages are still unseen after these fetches. */
  function Unseen(total: nat, limit: nat, fetches: nat): nat {
    if fetches == 0 then total
    else
      var before := Unseen(total, limit, fetches - 1);
      if limit >= before then 0 else before - limit
  }

  /** The client holds the tail of the first page's history from `from` on. */
  ghost predicate HoldsFrom(held: Page, first: seq<string>, from: nat)
    requires from <= |first|
  {
    && Ids(held.messages) == first[from..]
    && (held.hasMore <==> from > 0)
    && held.oldest == (if from < |first| then Some(first[from]) else None)
  }

  /** Paging back while the file grows tiles the history of the first page: no gap, no
      repeat, and `has_more` exactly while something older exists. */
  lemma {:induction false} PagingTiles(files: seq<seq<Entry>>, limit: nat)
    requires files != [] && limit > 0 && Growing(files)
    requires Distinct(Ids(Fold(files[|files| - 1]))) && "" !in Ids(Fold(files[|files| - 1]))
    ensures var first := Ids(Fold(files[0]));
      && Unseen(|first|, limit, |files|) <= |first|
      && (first != [] ==> Unseen(|first|, limit, |files|) < |first|)
      && HoldsFrom(Shown(files, limit), first, Unseen(|first|, limit, |files|))
  {
    hide HoldsFrom, Fold, PageOf, Distinct;
    var first := Ids(Fold(files[0]));
    if |files| == 1 {
      FirstPage(Fold(files[0]), limit);
      assert Unseen(|first|, limit, 0) == |first|;
    } else {
      var init, last := files[..|files| - 1], files[|files| - 1];
      GrowingFromFirst(files, |files| - 1);
      FoldExtends(files[|files| - 2], last);
      FoldExtends(files[0], last);
      DistinctOfPrefix(Ids(Fold(files[|files| - 2])), Ids(Fold(last)));
      PagingTiles(init, limit);
      assert init[0] == files[0];
      NextPage(Shown(init, limit), Fold(last), first, limit, Unseen(|first|, limit, |init|));
    }
  }

  lemma DistinctOfPrefix(ids: seq<string>, longer: seq<string>)
    requires ids <= longer && Distinct(longer) && "" !in longer
    ensures Distinct(ids) && "" !in ids
  {
  }

  lemma FirstPage(ms: seq<Message>, limit: nat)
    requires limit > 0
    ensures HoldsFrom(PageOf(ms, limit, None), Ids(ms), if limit >= |ms| then 0 else |ms| - limit)
  {
  }

  lemma NextPage(held: Page, ms: seq<Message>, first: seq<string>, limit: nat, from: nat)
    requires limit > 0 && first <= Ids(ms) && Distinct(Ids(ms)) && "" !in Ids(ms)
    requires from <= |first| && (first != [] ==> from < |first|) && HoldsFrom(held, first, from)
    ensures var to := if limit >= from then 0 else from - limit;
      HoldsFrom(if !held.hasMore then held
                else var older := PageOf(ms, limit, held.oldest);
                     Page(older.messages + held.messages, older.hasMore, older.oldest), first, to)
  {
    if held.hasMore {
      OlderPage(ms, limit, from);
      assert first[from] == Ids(ms)[from] == ms[from].id;
      var older := PageOf(ms, limit, held.oldest);
      assert Ids(older.messages + held.messages) == Ids(older.messages) + Ids(held.messages);
    }
  }

  lemma FoldExtends(entries: seq<Entry>, longer: seq<Entry>)
    requires entries <= longer
    ensures Ids(Fold(entries)) <= Ids(Fold(longer))
  {
    FoldGrows(entries, longer[|entries|..]);
    assert entries + longer[|entries|..] == longer;
  }

  /** The page before the message at `from`. */
  lemma OlderPage(ms: seq<Message>, limit: nat, from: nat)
    requires limit > 0 && 0 < from < |ms| && Distinct(Ids(ms)) && "" !in Ids(ms)
    ensures var page := PageOf(ms, limit, Some(ms[from].id)); var to := if limit >= from then 0 else from - limit;
      && Ids(page.messages) == Ids(ms)[to..from]
      && (page.hasMore <==> to > 0)
      && page.oldest == Some(Ids(ms)[to])
  {
    assert Ids(ms)[from] == ms[from].id;
    assert Find(ms, ms[from].id) == from by {
      var k := Find(ms, ms[from].id);
      assert k < |ms| && Ids(ms)[k] == ms[k].id;
    }
  }

  // ----- the program -----

  /** The innermost loops: search the messages backwards, each message's blocks forwards. */
  method AttachToPrior(messages: seq<Message>, r: Block) returns (out: seq<Message>)
    requires r.ToolResult?
    ensures out == AttachResult(messages, r)
  {
    hide WithResult;
    var i := |messages|;
    assert messages[..i] == messages;
    while i > 0
      invariant 0 <= i <= |messages|
      invariant AttachResult(messages, r) == AttachResult(messages[..i], r) + messages[i..]
    {
      var blocks := messages[i - 1].blocks;
      var j := 0;
      while j < |blocks| && !(blocks[j].Tool? && blocks[j].id == r.id)
        invariant 0 <= j <= |blocks|
        invariant forall k :: 0 <= k < j ==> !(blocks[k].Tool? && blocks[k].id == r.id)
      {
        j := j + 1;
      }
      assert messages[..i][..i - 1] == messages[..i - 1];
      assert FirstTool(blocks, r.id) == j;
      if j < |blocks| {
        out := messages[i - 1 := messages[i - 1].(blocks := blocks[j := WithResult(blocks[j], r.content, r.failed)])];
        assert out == AttachResult(messages[..i], r) + messages[i..];
        return;
      }
      assert [messages[i - 1]] + messages[i..] == messages[i - 1..];
      i := i - 1;
    }
    out := messages;
  }

  method AttachTaskBlocks(messages: seq<Message>, uuid: string, tasks: seq<Block>) returns (out: seq<Message>)
    ensures out == AttachTasks(messages, uuid, tasks)
  {
    var i := |messages|;
    while i > 0
      invariant 0 <= i <= |messages|
      invariant forall j :: i <= j < |messages| ==> messages[j].role != Assistant
    {
      i := i - 1;
      if messages[i].role == Assistant {
        return messages[i := messages[i].(blocks := messages[i].blocks + tasks)];
      }
    }
    out := messages + [Message(uuid + "-task", Assistant, tasks, true)];
  }

  lemma CleanStep(raw: seq<RawBlock>, i: nat)
    requires i < |raw|
    ensures Cleaned(raw[i..]) == CleanedOne(raw[i]) + Cleaned(raw[i + 1..])
    ensures TaskBlocks(raw[i..]) == TaskBlocksOf(raw[i]) + TaskBlocks(raw[i + 1..])
  {
    assert raw[i..][1..] == raw[i + 1..];
  }

  /** Cleaning the blocks of a user entry and collecting its task events. */
  method CleanUser(raw: seq<RawBlock>) returns (blocks: seq<Block>, pending: seq<Block>)
    ensures blocks == Cleaned(raw) && pending == TaskBlocks(raw)
  {
    hide Cleaned, CleanedOne, TaskBlocks, TaskBlocksOf;
    blocks, pending := [], [];
    assert raw[0..] == raw;
    for i := 0 to |raw|
      invariant blocks + Cleaned(raw[i..]) == Cleaned(raw)
      invariant pending + TaskBlocks(raw[i..]) == TaskBlocks(raw)
    {
      CleanStep(raw, i);
      assert blocks + CleanedOne(raw[i]) + Cleaned(raw[i + 1..]) == blocks + Cleaned(raw[i..]);
      assert pending + TaskBlocksOf(raw[i]) + TaskBlocks(raw[i + 1..]) == pending + TaskBlocks(raw[i..]);
      blocks := blocks + CleanedOne(raw[i]);
      pending := pending + TaskBlocksOf(raw[i]);
    }
    assert raw[|raw|..] == [];
    NothingToClean();
  }

  lemma NothingToClean()
    ensures Cleaned([]) == [] && TaskBlocks([]) == []
  {
  }

  method AttachAll(messages: seq<Message>, blocks: seq<Block>) returns (out: seq<Message>)
    ensures out == AttachResults(messages, blocks)
  {
    out := messages;
    for i := 0 to |blocks|
      invariant AttachResults(out, blocks[i..]) == AttachResults(messages, blocks)
    {
      assert blocks[i..][1..] == blocks[i + 1..];
      if blocks[i].ToolResult? {
        out := AttachToPrior(out, blocks[i]);
      }
    }
  }

  method ReadUser(messages: seq<Message>, entry: Entry) returns (out: seq<Message>)
    requires entry.etype == UserEntry
    ensures out == FoldEntry(messages, entry)
  {
    out := messages;
    var blocks, pending := CleanUser(RawBlocks(entry.body));
    if pending != [] {
      out := AttachTaskBlocks(out, entry.uuid, pending);
    }
    if blocks == [] { return; }
    out := AttachAll(out, blocks);
    blocks := WithoutResults(blocks);
    if blocks == [] { return; }
    out := out + [Message(entry.uuid, User, blocks, true)];
  }

  method ReadAssistant(messages: seq<Message>, entry: Entry) returns (out: seq<Message>)
    requires entry.etype == AssistantEntry
    ensures out == FoldEntry(messages, entry)
  {
    out := messages;
    var blocks := Converted(RawBlocks(entry.body));
    if !AnyVisible(blocks) { return; }
    if out != [] && out[|out| - 1].role == Assistant {
      out := out[|out| - 1 := out[|out| - 1].(blocks := out[|out| - 1].blocks + blocks)];
    } else {
      out := out + [Message(entry.uuid, Assistant, blocks, true)];
    }
  }

  method ReadAll(entries: seq<Entry>) returns (messages: seq<Message>)
    ensures messages == Fold(entries)
  {
    messages := [];
    for n := 0 to |entries|
      invariant messages == Fold(entries[..n])
    {
      assert entries[..n + 1][..n] == entries[..n];
      match entries[n].etype {
        case UserEntry => messages := ReadUser(messages, entries[n]);
        case AssistantEntry => messages := ReadAssistant(messages, entries[n]);
        case OtherEntry =>
      }
    }
    assert entries[..|entries|] == entries;
  }

  method Before(messages: seq<Message>, uuid: string) returns (eligible: seq<Message>)
    ensures eligible == messages[..Find(messages, uuid)]
  {
    var i := 0;
    while i < |messages| && messages[i].id != uuid
      invariant 0 <= i <= |messages|
      invariant forall j :: 0 <= j < i ==> messages[j].id != uuid
    {
      i := i + 1;
    }
    assert i == Find(messages, uuid);
    return messages[..i];
  }

  method GetSessionMessages(entries: seq<Entry>, limit: int, before: Option<string>) returns (page: Page)
    ensures page == PageOf(Fold(entries), limit, before)
    ensures AllFromTranscript(entries, page.messages)
  {
    hide Fold, Find, FromTranscript;
    ResultsComeFromTranscript(entries);
    var messages := ReadAll(entries);
    if before.Some? && before.value != "" {
      messages := Before(messages, before.value);
    }
    var hasMore := false;
    if limit > 0 && |messages| > limit {
      hasMore := true;
      messages := messages[|messages| - limit..];
    }
    page := Page(messages, hasMore, if messages != [] then Some(messages[0].id) else None);
  }
}
