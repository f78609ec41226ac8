/** The live chat reducer (frontend/src/stores/chat.ts): what the store shows while a session
    streams.  `Chat` is the state, `Do` one store action; the class `Store` performs the
    actions by replacing fields and is proved to do what `Do` says. */
module ChatStore {
  import opened ToolResults
  import opened Transcript
  import opened Wrappers

  datatype Status = Idle | Streaming | Failed

  datatype Chat = Chat(
    messages: seq<Message>,
    status: Status,
    current: Option<string>,
    active: Option<string>,
    hasMore: bool,
    oldest: Option<string>,
    loadingOlder: bool,
    permissions: seq<string>,
    userInputs: seq<UserInput>)

  datatype UserInput = UserInput(toolUseId: string, questions: seq<string>)

  const INITIAL := Chat([], Idle, None, None, false, None, false, [], [])

  /** Server messages.  `sid` is the optional session id of a session-scoped one; `note` is
      the text of the info bubble that a model or effort change produces. */
  datatype Event =
    | SessionStarted(session: string, isBusy: bool)
    | PermissionRequest(toolUseId: string)
    | UserInputRequest(input: UserInput)
    | LockRevoked
    | TextDelta(sid: Option<string>, text: string)
    | ThinkingDelta(sid: Option<string>, text: string)
    | ToolCall(sid: Option<string>, id: string, name: string, args: string)
    | ToolDone(sid: Option<string>, id: string, content: Content, isError: bool)
    | TaskTick(sid: Option<string>, task: TaskEvent)
    | TurnResult(sid: Option<string>)
    | SystemNote(sid: Option<string>, note: Option<string>)
    | Error(code: string)
    | Other

  datatype Action =
    | Prompt(text: string, images: seq<Block>)
    | Receive(event: Event)
    | SetHistory(page: Page)
    | PrependHistory(page: Page)
    | SetLoading(loading: bool)
    | Reset

  // ----- growing a bubble -----

  predicate SameTextKind(b: Block, c: Block) {
    (b.Text? && c.Text?) || (b.Thinking? && c.Thinking?)
  }

  function Merge(b: Block, c: Block): Block
    requires SameTextKind(b, c)
  {
    if b.Text? then Text(b.text + c.text) else Thinking(b.text + c.text)
  }

  function AddBlock(blocks: seq<Block>, b: Block): seq<Block> {
    if blocks != [] && SameTextKind(blocks[|blocks| - 1], b)
    then blocks[..|blocks| - 1] + [Merge(blocks[|blocks| - 1], b)]
    else blocks + [b]
  }

  function AddTo(ms: seq<Message>, id: string, b: Block): (out: seq<Message>)
    ensures |out| == |ms|
  {
    seq(|ms|, i requires 0 <= i < |ms| =>
      if ms[i].id == id then ms[i].(blocks := AddBlock(ms[i].blocks, b)) else ms[i])
  }

  function SetResultIn(blocks: seq<Block>, id: string, content: Content, isError: bool): (out: seq<Block>)
    ensures |out| == |blocks|
  {
    seq(|blocks|, i requires 0 <= i < |blocks| => ResultOn(blocks[i], id, content, isError))
  }

  function ResultOn(b: Block, id: string, content: Content, isError: bool): Block {
    if b.Tool? && b.id == id then WithResult(b, content, isError) else b
  }

  function SetResult(ms: seq<Message>, id: string, content: Content, isError: bool): (out: seq<Message>)
    ensures |out| == |ms|
  {
    seq(|ms|, i requires 0 <= i < |ms| => ms[i].(blocks := SetResultIn(ms[i].blocks, id, content, isError)))
  }

  function FinishAll(ms: seq<Message>): (out: seq<Message>)
    ensures |out| == |ms|
  {
    seq(|ms|, i requires 0 <= i < |ms| => ms[i].(finished := true))
  }

  function Finish(ms: seq<Message>, id: Option<string>): (out: seq<Message>)
    ensures |out| == |ms|
  {
    seq(|ms|, i requires 0 <= i < |ms| => if Some(ms[i].id) == id then ms[i].(finished := true) else ms[i])
  }

  // ----- actions -----

  /** The session id of a session-scoped message, when it has one. */
  function Scope(e: Event): Option<string> {
    match e
    case TextDelta(sid, _) => sid
    case ThinkingDelta(sid, _) => sid
    case ToolCall(sid, _, _, _) => sid
    case ToolDone(sid, _, _, _) => sid
    case TaskTick(sid, _) => sid
    case TurnResult(sid) => sid
    case SystemNote(sid, _) => sid
    case _ => None
  }

  /** A background session's output is not for this chat. */
  predicate Dropped(chat: Chat, e: Event) { Scope(e).Some? && Scope(e) != chat.active }

  /** The block that a streamed message adds to the live bubble. */
  function StreamedBlock(e: Event): Option<Block> {
    match e
    case TextDelta(_, text) => Some(Text(text))
    case ThinkingDelta(_, text) => Some(Thinking(text))
    case ToolCall(_, id, name, args) => Some(Tool(id, name, args, None, None))
    case TaskTick(_, task) => Some(Task(task))
    case _ => None
  }

  function Ensured(chat: Chat, newId: string): Chat {
    if chat.current.Some? then chat
    else chat.(messages := chat.messages + [Message(newId, Assistant, [], false)], current := Some(newId))
  }

  function Stream(chat: Chat, b: Block, newId: string): Chat {
    var c := Ensured(chat, newId);
    c.(messages := AddTo(c.messages, c.current.value, b))
  }

  function Started(chat: Chat, session: string, isBusy: bool): Chat {
    var c := chat.(active := Some(session), permissions := [], userInputs := []);
    if isBusy && chat.status != Streaming then c.(status := Streaming)
    else if !isBusy && chat.status == Streaming then
      c.(status := Idle, current := None, messages := FinishAll(chat.messages))
    else c
  }

  function IndexOf(inputs: seq<UserInput>, id: string): (k: nat)
    ensures k <= |inputs|
  {
    if inputs == [] || inputs[0].toolUseId == id then 0 else 1 + IndexOf(inputs[1..], id)
  }

  function Handle(chat: Chat, e: Event, newId: string): Chat {
    if Dropped(chat, e) then chat
    else match e
      case SessionStarted(session, isBusy) => Started(chat, session, isBusy)
      case PermissionRequest(id) => chat.(permissions := chat.permissions + [id])
      case UserInputRequest(input) =>
        var k := IndexOf(chat.userInputs, input.toolUseId);
        chat.(userInputs := if k < |chat.userInputs| then chat.userInputs[k := input] else chat.userInputs + [input])
      case LockRevoked => chat.(status := Idle)
      case ToolDone(_, id, content, isError) => chat.(messages := SetResult(chat.messages, id, content, isError))
      case TurnResult(_) =>
        chat.(messages := Finish(chat.messages, chat.current), status := Idle, current := None)
      case SystemNote(_, note) =>
        if note.None? then chat
        else chat.(messages := chat.messages + [Message(newId, System, [Info(note.value)], true)])
      case Error(code) =>
        if code != "busy" then chat.(status := Failed)
        else if chat.messages != [] && chat.messages[|chat.messages| - 1].role == User then
          chat.(messages := chat.messages[..|chat.messages| - 1], status := Streaming)
        else chat.(status := Streaming)
      case Other => chat
      case _ => Stream(chat, StreamedBlock(e).value, newId)
  }

  function Prompted(chat: Chat, text: string, images: seq<Block>, newId: string): Chat {
    var blocks := (if text != "" then [Text(text)] else []) + images;
    chat.(messages := chat.messages + [Message(newId, User, blocks, true)], status := Streaming)
  }

  /** A page that could only lose streamed content is ignored. */
  predicate Stale(chat: Chat, page: Page) {
    chat.status == Streaming && |chat.messages| > 0 && |page.messages| <= |chat.messages|
  }

  function Loaded(chat: Chat, page: Page): Chat {
    if Stale(chat, page) then chat
    else chat.(messages := page.messages, status := if chat.status == Streaming then Streaming else Idle,
               current := None, hasMore := page.hasMore, oldest := page.oldest, loadingOlder := false)
  }

  function Prepended(chat: Chat, page: Page): Chat {
    chat.(messages := page.messages + chat.messages, hasMore := page.hasMore, oldest := page.oldest,
        loadingOlder := false)
  }

  /** One store action; `newId` is the id that `newId()` would return. */
  function Do(chat: Chat, a: Action, newId: string): Chat {
    match a
    case Prompt(text, images) => Prompted(chat, text, images, newId)
    case Receive(event) => Handle(chat, event, newId)
    case SetHistory(page) => Loaded(chat, page)
    case PrependHistory(page) => Prepended(chat, page)
    case SetLoading(loading) => chat.(loadingOlder := loading)
    case Reset => INITIAL
  }

  // ----- the live bubble is the only unfinished message -----

  ghost predicate OnlyCurrentUnfinished(chat: Chat) {
    && (forall k :: 0 <= k < |chat.messages| && !chat.messages[k].finished ==>
        chat.current == Some(chat.messages[k].id))
    && (chat.current.Some? ==> exists k :: NamesAssistant(chat, k))
  }

  ghost predicate NamesAssistant(chat: Chat, k: int) {
    && 0 <= k < |chat.messages|
    && chat.messages[k].role == Assistant && !chat.messages[k].finished && chat.current == Some(chat.messages[k].id)
  }

  predicate FinishedPage(a: Action) {
    a.SetHistory? || a.PrependHistory? ==> forall m :: m in a.page.messages ==> m.finished
  }

  lemma StreamKeepsUnfinished(chat: Chat, b: Block, newId: string)
    requires OnlyCurrentUnfinished(chat)
    ensures OnlyCurrentUnfinished(Stream(chat, b, newId))
  {
    var c := Ensured(chat, newId);
    var k: int;
    if chat.current.Some? { k :| NamesAssistant(chat, k); } else { k := |chat.messages|; }
    assert NamesAssistant(c, k);
    assert NamesAssistant(Stream(chat, b, newId), k);
  }

  /** A change that keeps `current` and, `shift` further on, every message's id, role and
      unfinished ones. */
  lemma ShiftKeepsUnfinished(chat: Chat, next: Chat, shift: nat)
    requires OnlyCurrentUnfinished(chat)
    requires next.current == chat.current
    requires forall k :: 0 <= k < |chat.messages| && NamesAssistant(chat, k) ==> NamesAssistant(next, k + shift)
    requires forall k :: 0 <= k < |next.messages| && !next.messages[k].finished ==>
               exists j :: 0 <= j < |chat.messages| && !chat.messages[j].finished &&
                   chat.messages[j].id == next.messages[k].id
    ensures OnlyCurrentUnfinished(next)
  {
    if chat.current.Some? {
      var k :| NamesAssistant(chat, k);
      assert NamesAssistant(next, k + shift);
    }
  }

  /** An event that streams nothing either closes the live bubble, or leaves every message's
      head and streamed blocks alone but for a note added or a prompt rolled back at the end. */
  ghost predicate Calm(chat: Chat, next: Chat, newId: string) {
    if next.current.None? then forall m :: m in next.messages ==> m.finished
    else
      && next.current == chat.current
      && (|| SameStream(chat.messages, next.messages)
          || (exists m: Message :: m.finished && m.id == newId && next.messages == chat.messages + [m])
          || (chat.messages != [] && chat.messages[|chat.messages| - 1].role == User
              && next.messages == chat.messages[..|chat.messages| - 1]))
  }

  ghost predicate SameStream(ms: seq<Message>, next: seq<Message>) {
    && |ms| == |next|
    && forall k :: 0 <= k < |ms| ==>
         && next[k].id == ms[k].id && next[k].role == ms[k].role && next[k].finished == ms[k].finished
         && AllBare(next[k].blocks) == AllBare(ms[k].blocks)
  }

  lemma HandleIsCalm(chat: Chat, e: Event, newId: string)
    requires Dropped(chat, e) || StreamedBlock(e).None?
    requires OnlyCurrentUnfinished(chat)
    ensures Calm(chat, Handle(chat, e, newId), newId)
  {
    hide SetResult, AllBare;
    var next := Handle(chat, e, newId);
    StaysTheSame(chat.messages);
    if Dropped(chat, e) {
    } else if e.SystemNote? && e.note.Some? {
      assert Message(newId, System, [Info(e.note.value)], true).finished;
    } else if e.ToolDone? {
      ResultStreamsNothing(chat.messages, e.id, e.content, e.isError);
    }
  }

  lemma StaysTheSame(ms: seq<Message>)
    ensures SameStream(ms, ms)
  {
  }

  lemma ResultStreamsNothing(ms: seq<Message>, id: string, content: Content, isError: bool)
    ensures SameStream(ms, SetResult(ms, id, content, isError))
  {
    var next := SetResult(ms, id, content, isError);
    forall k | 0 <= k < |ms| ensures AllBare(next[k].blocks) == AllBare(ms[k].blocks) {}
  }

  lemma CalmKeepsUnfinished(chat: Chat, next: Chat, newId: string)
    requires OnlyCurrentUnfinished(chat) && Calm(chat, next, newId)
    ensures OnlyCurrentUnfinished(next)
  {
    if next.current.Some? {
      var k :| NamesAssistant(chat, k);
      assert NamesAssistant(next, k);
    } else {
      assert forall k :: 0 <= k < |next.messages| ==> next.messages[k] in next.messages;
    }
  }

  lemma HandleKeepsUnfinished(chat: Chat, e: Event, newId: string)
    requires OnlyCurrentUnfinished(chat)
    ensures OnlyCurrentUnfinished(Handle(chat, e, newId))
  {
    hide Handle, Calm;
    if !Dropped(chat, e) && StreamedBlock(e).Some? {
      HandleStreams(chat, e, newId);
      StreamKeepsUnfinished(chat, StreamedBlock(e).value, newId);
    } else {
      HandleIsCalm(chat, e, newId);
      CalmKeepsUnfinished(chat, Handle(chat, e, newId), newId);
    }
  }

  lemma HandleStreams(chat: Chat, e: Event, newId: string)
    requires !Dropped(chat, e) && StreamedBlock(e).Some?
    ensures Handle(chat, e, newId) == Stream(chat, StreamedBlock(e).value, newId)
    ensures Bare(StreamedBlock(e).value) == StreamedBlock(e).value
  {
  }

  /** Any action keeps it, provided history pages hold finished messages. */
  lemma UnfinishedStaysCurrent(chat: Chat, a: Action, newId: string)
    requires OnlyCurrentUnfinished(chat) && FinishedPage(a)
    ensures OnlyCurrentUnfinished(Do(chat, a, newId))
  {
    match a
    case Receive(event) => HandleKeepsUnfinished(chat, event, newId);
    case Prompt(text, images) => ShiftKeepsUnfinished(chat, Do(chat, a, newId), 0);
    case PrependHistory(page) => ShiftKeepsUnfinished(chat, Do(chat, a, newId), |page.messages|);
    case SetHistory(page) =>
    case SetLoading(_) => ShiftKeepsUnfinished(chat, Do(chat, a, newId), 0);
    case Reset =>
  }

  // ----- what the live bubble contains -----

  /** All blocks streamed into a bubble, coalesced as they arrive. */
  function Coalesce(log: seq<Block>): seq<Block> {
    if log == [] then [] else AddBlock(Coalesce(log[..|log| - 1]), log[|log| - 1])
  }

  lemma CoalesceSnoc(blocks: seq<Block>, b: Block)
    ensures Coalesce(blocks + [b]) == AddBlock(Coalesce(blocks), b)
  {
    assert (blocks + [b])[..|blocks + [b]| - 1] == blocks;
  }

  /** The maximal runs of same-kind texts, and the other blocks on their own. */
  function Runs(log: seq<Block>): (runs: seq<seq<Block>>)
    ensures forall k :: 0 <= k < |runs| ==> runs[k] != []
  {
    if log == [] then [] else AddRun(Runs(log[..|log| - 1]), log[|log| - 1])
  }

  function Concat(runs: seq<seq<Block>>): seq<Block> {
    if runs == [] then [] else Concat(runs[..|runs| - 1]) + runs[|runs| - 1]
  }

  /** A run as one block: its texts in order, one after the other. */
  function Joined(run: seq<Block>): Block
    requires run != []
  {
    if |run| == 1 || !SameTextKind(run[0], run[|run| - 1]) then run[0]
    else if run[0].Text? then Text(Texts(run)) else Thinking(Texts(run))
  }

  function Texts(run: seq<Block>): string {
    if run == [] then ""
    else
      var last := run[|run| - 1];
      Texts(run[..|run| - 1]) + (if last.Text? || last.Thinking? then last.text else "")
  }

  ghost predicate Uniform(run: seq<Block>) {
    |run| > 1 ==> forall k :: 0 <= k < |run| ==> SameTextKind(run[0], run[k])
  }

  ghost predicate NoTwins(blocks: seq<Block>) {
    forall k :: 0 <= k && k + 1 < |blocks| ==> !SameTextKind(blocks[k], blocks[k + 1])
  }

  lemma JoinedSnoc(run: seq<Block>, b: Block)
    requires run != [] && Uniform(run) && SameTextKind(run[0], b)
    ensures Uniform(run + [b]) && SameTextKind(Joined(run), b) && Joined(run + [b]) == Merge(Joined(run), b)
  {
    assert (run + [b])[..|run + [b]| - 1] == run;
    if |run| == 1 {
      assert Texts(run) == Texts(run[..0]) + run[0].text;
    }
  }

  /** `blocks` are the joined `runs`. */
  ghost predicate Join(runs: seq<seq<Block>>, blocks: seq<Block>) {
    && |blocks| == |runs|
    && forall k :: 0 <= k < |runs| ==> runs[k] != [] && Uniform(runs[k]) && blocks[k] == Joined(runs[k])
  }

  function AddRun(runs: seq<seq<Block>>, b: Block): seq<seq<Block>>
    requires forall k :: 0 <= k < |runs| ==> runs[k] != []
    ensures forall k :: 0 <= k < |AddRun(runs, b)| ==> AddRun(runs, b)[k] != []
  {
    if runs != [] && SameTextKind(runs[|runs| - 1][0], b)
    then runs[..|runs| - 1] + [runs[|runs| - 1] + [b]]
    else runs + [[b]]
  }

  /** The runs are the streamed blocks in order, block k is the in-order concatenation of
      run k, and no two neighbours could be merged further. */
  ghost predicate Grouped(log: seq<Block>, runs: seq<seq<Block>>, blocks: seq<Block>) {
    Concat(runs) == log && Join(runs, blocks) && NoTwins(blocks)
  }

  lemma AddRunConcat(log: seq<Block>, runs: seq<seq<Block>>, b: Block)
    requires Concat(runs) == log && forall k :: 0 <= k < |runs| ==> runs[k] != []
    ensures Concat(AddRun(runs, b)) == log + [b]
  {
    var next := AddRun(runs, b);
    if runs != [] && SameTextKind(runs[|runs| - 1][0], b) {
      assert next[..|next| - 1] == runs[..|runs| - 1];
      assert log + [b] == Concat(runs[..|runs| - 1]) + (runs[|runs| - 1] + [b]);
    } else {
      assert next[..|next| - 1] == runs;
    }
  }

  lemma AddRunGroups(log: seq<Block>, runs: seq<seq<Block>>, blocks: seq<Block>, b: Block)
    requires Grouped(log, runs, blocks)
    ensures Grouped(log + [b], AddRun(runs, b), AddBlock(blocks, b))
  {
    hide Concat;
    AddRunConcat(log, runs, b);
    if runs != [] {
      var last := runs[|runs| - 1];
      assert SameTextKind(last[0], b) <==> SameTextKind(Joined(last), b);
      if SameTextKind(last[0], b) { JoinedSnoc(last, b); }
    }
  }

  lemma {:induction false} CoalesceJoinsRuns(log: seq<Block>)
    ensures Grouped(log, Runs(log), Coalesce(log))
  {
    hide Grouped, AddRun, AddBlock;
    if log != [] {
      var init, b := log[..|log| - 1], log[|log| - 1];
      CoalesceJoinsRuns(init);
      AddRunGroups(init, Runs(init), Coalesce(init), b);
      assert log == init + [b];
    } else {
      NothingGrouped();
    }
  }

  lemma NothingGrouped()
    ensures Grouped([], [], [])
  {
  }

  /** Tool blocks without the results that came in later. */
  function Bare(b: Block): Block { if b.Tool? then b.(result := None, isError := None) else b }

  function AllBare(blocks: seq<Block>): (out: seq<Block>)
    ensures |out| == |blocks|
  {
    seq(|blocks|, i requires 0 <= i < |blocks| => Bare(blocks[i]))
  }

  /** What was streamed into the current bubble so far. */
  function LogAfter(chat: Chat, log: seq<Block>, a: Action, newId: string): seq<Block> {
    if Do(chat, a, newId).current.None? then []
    else if a.Receive? && !Dropped(chat, a.event) && StreamedBlock(a.event).Some? then
      (if chat.current.None? then [] else log) + [StreamedBlock(a.event).value]
    else log
  }

  /** The current id names one message, an assistant's, and apart from tool results its
      blocks are the coalesced log. */
  ghost predicate BubbleIsLog(chat: Chat, log: seq<Block>) {
    chat.current.Some? ==> exists k :: IsBubble(chat, log, k)
  }

  ghost predicate IsBubble(chat: Chat, log: seq<Block>, k: int) {
    && NamesAssistant(chat, k)
    && AllBare(chat.messages[k].blocks) == Coalesce(log)
    && forall j :: 0 <= j < |chat.messages| && j != k ==> Some(chat.messages[j].id) != chat.current
  }

  /** New ids, and ids of older pages, are not in use. */
  ghost predicate FreshIds(chat: Chat, a: Action, newId: string) {
    && (forall m :: m in chat.messages ==> m.id != newId)
    && (a.PrependHistory? && chat.current.Some? ==> forall m :: m in a.page.messages ==> m.id != chat.current.value)
  }

  lemma BareCommutes(blocks: seq<Block>, b: Block)
    requires Bare(b) == b
    ensures AllBare(AddBlock(blocks, b)) == AddBlock(AllBare(blocks), b)
  {
  }

  lemma EnsuredIsBubble(chat: Chat, log: seq<Block>, newId: string) returns (k: int)
    requires BubbleIsLog(chat, log)
    requires forall m :: m in chat.messages ==> m.id != newId
    ensures IsBubble(Ensured(chat, newId), if chat.current.None? then [] else log, k)
  {
    if chat.current.Some? {
      k :| IsBubble(chat, log, k);
    } else {
      k := |chat.messages|;
    }
  }

  lemma AddToBubble(chat: Chat, log: seq<Block>, b: Block, k: int)
    requires IsBubble(chat, log, k) && Bare(b) == b
    ensures IsBubble(chat.(messages := AddTo(chat.messages, chat.current.value, b)), log + [b], k)
  {
    hide AddBlock, AllBare, Bare, Coalesce;
    BareCommutes(chat.messages[k].blocks, b);
    CoalesceSnoc(log, b);
  }

  lemma StreamExtendsBubble(chat: Chat, log: seq<Block>, b: Block, newId: string)
    requires BubbleIsLog(chat, log) && Bare(b) == b
    requires forall m :: m in chat.messages ==> m.id != newId
    ensures BubbleIsLog(Stream(chat, b, newId), (if chat.current.None? then [] else log) + [b])
  {
    var k := EnsuredIsBubble(chat, log, newId);
    AddToBubble(Ensured(chat, newId), if chat.current.None? then [] else log, b, k);
  }

  lemma ShiftKeepsBubble(chat: Chat, next: Chat, log: seq<Block>, shift: nat)
    requires BubbleIsLog(chat, log) && next.current == chat.current
    requires forall k :: IsBubble(chat, log, k) ==> IsBubble(next, log, k + shift)
    ensures BubbleIsLog(next, log)
  {
    if chat.current.Some? {
      var k :| IsBubble(chat, log, k);
      assert IsBubble(next, log, k + shift);
    }
  }

  lemma CalmKeepsBubble(chat: Chat, next: Chat, log: seq<Block>, newId: string)
    requires BubbleIsLog(chat, log) && Calm(chat, next, newId) && next.current.Some?
    requires forall m :: m in chat.messages ==> m.id != newId
    ensures BubbleIsLog(next, log)
  {
    var k :| IsBubble(chat, log, k);
    assert chat.messages[k] in chat.messages;
    assert IsBubble(next, log, k);
  }

  lemma HandleFollowsLog(chat: Chat, log: seq<Block>, e: Event, newId: string)
    requires OnlyCurrentUnfinished(chat) && BubbleIsLog(chat, log) && FreshIds(chat, Receive(e), newId)
    ensures BubbleIsLog(Handle(chat, e, newId), LogAfter(chat, log, Receive(e), newId))
  {
    hide Handle, Calm, Coalesce, BubbleIsLog;
    if !Dropped(chat, e) && StreamedBlock(e).Some? {
      HandleStreams(chat, e, newId);
      StreamExtendsBubble(chat, log, StreamedBlock(e).value, newId);
    } else if Handle(chat, e, newId).current.Some? {
      HandleIsCalm(chat, e, newId);
      CalmKeepsBubble(chat, Handle(chat, e, newId), log, newId);
    } else {
      NoBubble(Handle(chat, e, newId), []);
    }
  }

  lemma NoBubble(chat: Chat, log: seq<Block>)
    requires chat.current.None?
    ensures BubbleIsLog(chat, log)
  {
  }

  /** Every action keeps it. */
  lemma BubbleFollowsLog(chat: Chat, log: seq<Block>, a: Action, newId: string)
    requires OnlyCurrentUnfinished(chat) && BubbleIsLog(chat, log) && FreshIds(chat, a, newId)
    ensures BubbleIsLog(Do(chat, a, newId), LogAfter(chat, log, a, newId))
  {
    var next := Do(chat, a, newId);
    if a.Receive? {
      HandleFollowsLog(chat, log, a.event, newId);
    } else if next.current.Some? {
      match a
      case Prompt(_, _) => ShiftKeepsBubble(chat, next, log, 0);
      case PrependHistory(page) => ShiftKeepsBubble(chat, next, log, |page.messages|);
      case SetHistory(_) => assert next == chat;
      case SetLoading(_) => ShiftKeepsBubble(chat, next, log, 0);
      case Reset => assert false;
    }
  }

  // ----- over whole runs -----

  datatype Stamped = Stamped(action: Action, newId: string)

  function Final(run: seq<Stamped>): Chat {
    if run == [] then INITIAL else Do(Final(run[..|run| - 1]), run[|run| - 1].action, run[|run| - 1].newId)
  }

  function FinalLog(run: seq<Stamped>): seq<Block> {
    if run == [] then []
    else LogAfter(Final(run[..|run| - 1]), FinalLog(run[..|run| - 1]), run[|run| - 1].action, run[|run| - 1].newId)
  }

  ghost predicate IsRun(run: seq<Stamped>) {
    forall k :: 0 <= k < |run| ==>
      FinishedPage(run[k].action) && FreshIds(Final(run[..k]), run[k].action, run[k].newId)
  }

  lemma {:induction false} RunsKeepTheBubble(run: seq<Stamped>)
    requires IsRun(run)
    ensures OnlyCurrentUnfinished(Final(run)) && BubbleIsLog(Final(run), FinalLog(run))
  {
    if run != [] {
      var init, last := run[..|run| - 1], run[|run| - 1];
      assert forall k :: 0 <= k < |init| ==> init[..k] == run[..k];
      RunsKeepTheBubble(init);
      UnfinishedStaysCurrent(Final(init), last.action, last.newId);
      BubbleFollowsLog(Final(init), FinalLog(init), last.action, last.newId);
    }
  }

  /** So the live bubble groups the streamed blocks: no two neighbours are both text or both
      thinking, and each text is the concatenation of its deltas in order. */
  lemma BubbleGroupsDeltas(run: seq<Stamped>, k: int)
    requires IsRun(run) && IsBubble(Final(run), FinalLog(run), k)
    ensures Grouped(FinalLog(run), Runs(FinalLog(run)), AllBare(Final(run).messages[k].blocks))
  {
    CoalesceJoinsRuns(FinalLog(run));
  }

  // ----- where streamed blocks land -----

  /** If a bubble is open, it is the last message, and no other one has its id. */
  ghost predicate LastIsCurrent(chat: Chat) {
    chat.current.Some? ==>
      && chat.messages != []
      && chat.current == Some(chat.messages[|chat.messages| - 1].id)
      && forall k :: 0 <= k < |chat.messages| - 1 ==> chat.current != Some(chat.messages[k].id)
  }

  /** The roles of the messages that came after the open bubble. */
  function TrailAfter(chat: Chat, trail: seq<Role>, a: Action, newId: string): seq<Role> {
    if chat.current.None? || Do(chat, a, newId).current.None? then []
    else match a
      case Prompt(_, _) => trail + [User]
      case Receive(e) =>
        if Dropped(chat, e) then trail
        else if e.SystemNote? && e.note.Some? then trail + [System]
        else if e == Error("busy") && trail != [] && trail[|trail| - 1] == User then trail[..|trail| - 1]
        else trail
      case _ => trail
  }

  function Trail(run: seq<Stamped>): seq<Role> {
    if run == [] then []
    else TrailAfter(Final(run[..|run| - 1]), Trail(run[..|run| - 1]), run[|run| - 1].action, run[|run| - 1].newId)
  }

  /** The open bubble is message k, those roles follow it, and no other message has its id. */
  ghost predicate TrailedFrom(chat: Chat, trail: seq<Role>, k: int) {
    && NamesAssistant(chat, k)
    && |chat.messages| == k + 1 + |trail|
    && (forall j :: 0 <= j < |trail| ==> chat.messages[k + 1 + j].role == trail[j])
    && (forall j :: 0 <= j < |chat.messages| && j != k ==> Some(chat.messages[j].id) != chat.current)
  }

  ghost predicate Trailed(chat: Chat, trail: seq<Role>) {
    if chat.current.None? then trail == [] else exists k :: TrailedFrom(chat, trail, k)
  }

  lemma ShiftKeepsTrail(chat: Chat, next: Chat, trail: seq<Role>, next': seq<Role>, shift: nat)
    requires Trailed(chat, trail) && chat.current.Some? && next.current == chat.current
    requires forall k :: TrailedFrom(chat, trail, k) ==> TrailedFrom(next, next', k + shift)
    ensures Trailed(next, next')
  {
    var k :| TrailedFrom(chat, trail, k);
    assert TrailedFrom(next, next', k + shift);
  }

  lemma StreamKeepsTrail(chat: Chat, trail: seq<Role>, b: Block, newId: string)
    requires Trailed(chat, trail) && forall m :: m in chat.messages ==> m.id != newId
    ensures Trailed(Stream(chat, b, newId), if chat.current.None? then [] else trail)
  {
    hide AddBlock, AddTo;
    EnsuredKeepsTrail(chat, trail, newId);
    GrowthKeepsTrail(Ensured(chat, newId), if chat.current.None? then [] else trail, b);
  }

  lemma EnsuredKeepsTrail(chat: Chat, trail: seq<Role>, newId: string)
    requires Trailed(chat, trail) && forall m :: m in chat.messages ==> m.id != newId
    ensures Trailed(Ensured(chat, newId), if chat.current.None? then [] else trail)
  {
    if chat.current.None? {
      assert forall j :: 0 <= j < |chat.messages| ==> chat.messages[j] in chat.messages;
      assert TrailedFrom(Ensured(chat, newId), [], |chat.messages|);
    }
  }

  lemma GrowthKeepsTrail(chat: Chat, trail: seq<Role>, b: Block)
    requires Trailed(chat, trail) && chat.current.Some?
    ensures Trailed(chat.(messages := AddTo(chat.messages, chat.current.value, b)), trail)
  {
    hide AddBlock;
    ShiftKeepsTrail(chat, chat.(messages := AddTo(chat.messages, chat.current.value, b)), trail, trail, 0);
  }

  lemma MessageTrails(chat: Chat, trail: seq<Role>, m: Message)
    requires Trailed(chat, trail) && chat.current.Some? && Some(m.id) != chat.current
    ensures Trailed(chat.(messages := chat.messages + [m]), trail + [m.role])
  {
    ShiftKeepsTrail(chat, chat.(messages := chat.messages + [m]), trail, trail + [m.role], 0);
  }

  lemma CurrentIsUsed(chat: Chat, trail: seq<Role>, newId: string)
    requires Trailed(chat, trail) && chat.current.Some? && forall m :: m in chat.messages ==> m.id != newId
    ensures chat.current != Some(newId)
  {
    var k :| TrailedFrom(chat, trail, k);
    assert chat.messages[k] in chat.messages;
  }

  lemma RollbackTrails(chat: Chat, trail: seq<Role>)
    requires Trailed(chat, trail) && chat.current.Some? && chat.messages != []
    ensures chat.messages[|chat.messages| - 1].role == User <==> trail != [] && trail[|trail| - 1] == User
    ensures trail != [] && trail[|trail| - 1] == User ==>
              Trailed(chat.(messages := chat.messages[..|chat.messages| - 1]), trail[..|trail| - 1])
  {
    var k :| TrailedFrom(chat, trail, k);
    if trail != [] {
      assert chat.messages[k + 1 + (|trail| - 1)].role == trail[|trail| - 1];
      ShiftKeepsTrail(chat, chat.(messages := chat.messages[..|chat.messages| - 1]), trail, trail[..|trail| - 1], 0);
    }
  }

  lemma ResultKeepsTrail(chat: Chat, trail: seq<Role>, e: Event)
    requires Trailed(chat, trail) && e.ToolDone?
    ensures Trailed(chat.(messages := SetResult(chat.messages, e.id, e.content, e.isError)), trail)
  {
    hide SetResultIn;
    var next := chat.(messages := SetResult(chat.messages, e.id, e.content, e.isError));
    if chat.current.Some? { ShiftKeepsTrail(chat, next, trail, trail, 0); }
  }

  lemma HandleKeepsTrail(chat: Chat, trail: seq<Role>, e: Event, newId: string)
    requires Trailed(chat, trail) && forall m :: m in chat.messages ==> m.id != newId
    ensures Trailed(Handle(chat, e, newId), TrailAfter(chat, trail, Receive(e), newId))
  {
    hide SetResult, Stream, Trailed, FinishAll, Finish, IndexOf;
    NoTrail(chat, trail);
    NoTrail(Handle(chat, e, newId), []);
    if Dropped(chat, e) {
    } else if StreamedBlock(e).Some? {
      HandleStreams(chat, e, newId);
      StreamKeepsTrail(chat, trail, StreamedBlock(e).value, newId);
    } else if chat.current.Some? {
      SameTrail(chat, Handle(chat, e, newId), trail);
      match e
      case ToolDone(_, _, _, _) => ResultKeepsTrail(chat, trail, e);
      case SystemNote(_, note) => if note.Some? { NoteTrails(chat, trail, note.value, newId); }
      case Error(code) => BusyTrails(chat, trail, Handle(chat, e, newId));
      case _ =>
    }
  }

  lemma NoteTrails(chat: Chat, trail: seq<Role>, note: string, newId: string)
    requires Trailed(chat, trail) && chat.current.Some? && forall m :: m in chat.messages ==> m.id != newId
    ensures Trailed(chat.(messages := chat.messages + [Message(newId, System, [Info(note)], true)]), trail + [System])
  {
    CurrentIsUsed(chat, trail, newId);
    MessageTrails(chat, trail, Message(newId, System, [Info(note)], true));
  }

  lemma BusyTrails(chat: Chat, trail: seq<Role>, next: Chat)
    requires Trailed(chat, trail) && chat.current.Some? && next.current == chat.current
    requires chat.messages != [] && chat.messages[|chat.messages| - 1].role == User ==>
               next.messages == chat.messages || next.messages == chat.messages[..|chat.messages| - 1]
    ensures trail != [] && trail[|trail| - 1] == User && next.messages == chat.messages[..|chat.messages| - 1] ==>
              Trailed(next, trail[..|trail| - 1])
    ensures chat.messages != [] &&
            (chat.messages[|chat.messages| - 1].role == User <==> trail != [] && trail[|trail| - 1] == User)
  {
    var k :| TrailedFrom(chat, trail, k);
    RollbackTrails(chat, trail);
    if trail != [] && trail[|trail| - 1] == User && next.messages == chat.messages[..|chat.messages| - 1] {
      SameTrail(chat.(messages := next.messages), next, trail[..|trail| - 1]);
    }
  }

  lemma NoTrail(chat: Chat, trail: seq<Role>)
    ensures chat.current.None? ==> (Trailed(chat, trail) <==> trail == [])
  {
  }

  lemma SameTrail(chat: Chat, next: Chat, trail: seq<Role>)
    ensures Trailed(chat, trail) && next.messages == chat.messages && next.current == chat.current ==>
              Trailed(next, trail)
  {
    if Trailed(chat, trail) && next.messages == chat.messages && next.current == chat.current && chat.current.Some? {
      ShiftKeepsTrail(chat, next, trail, trail, 0);
    }
  }

  lemma StepKeepsTrail(chat: Chat, trail: seq<Role>, a: Action, newId: string)
    requires Trailed(chat, trail) && FreshIds(chat, a, newId)
    ensures Trailed(Do(chat, a, newId), TrailAfter(chat, trail, a, newId))
  {
    hide Handle, Trailed;
    var next := Do(chat, a, newId);
    NoTrail(chat, trail);
    NoTrail(next, []);
    if a.Receive? {
      HandleKeepsTrail(chat, trail, a.event, newId);
    } else if chat.current.Some? && next.current.Some? {
      match a
      case Prompt(text, images) =>
        CurrentIsUsed(chat, trail, newId);
        MessageTrails(chat, trail, next.messages[|chat.messages|]);
        SameTrail(chat.(messages := next.messages), next, trail + [User]);
      case PrependHistory(page) => PageKeepsTrail(chat, trail, page);
      case SetHistory(_) => assert next == chat;
      case SetLoading(_) => SameTrail(chat, next, trail);
      case Reset => assert false;
    }
  }

  lemma PageKeepsTrail(chat: Chat, trail: seq<Role>, page: Page)
    requires Trailed(chat, trail) && chat.current.Some?
    requires forall m :: m in page.messages ==> m.id != chat.current.value
    ensures Trailed(Prepended(chat, page), trail)
  {
    ShiftKeepsTrail(chat, Prepended(chat, page), trail, trail, |page.messages|);
  }

  lemma {:induction false} RunsKeepTheTrail(run: seq<Stamped>)
    requires IsRun(run)
    ensures Trailed(Final(run), Trail(run))
  {
    if run != [] {
      var init, last := run[..|run| - 1], run[|run| - 1];
      assert forall k :: 0 <= k < |init| ==> init[..k] == run[..k];
      RunsKeepTheTrail(init);
      StepKeepsTrail(Final(init), Trail(init), last.action, last.newId);
    }
  }

  lemma LastIffNoTrail(chat: Chat, trail: seq<Role>)
    requires Trailed(chat, trail)
    ensures LastIsCurrent(chat) <==> trail == []
  {
    if chat.current.Some? {
      var k :| TrailedFrom(chat, trail, k);
    }
  }

  /** Over any run: a streamed block lands in the last message exactly if nothing stands behind
      the open bubble, that is, no note came while it was open and every prompt that did was
      rolled back as refused. */
  lemma StreamLandsLastIff(run: seq<Stamped>, e: Event, newId: string)
    requires IsRun(run) && FreshIds(Final(run), Receive(e), newId)
    requires !Dropped(Final(run), e) && StreamedBlock(e).Some?
    ensures LastIsCurrent(Handle(Final(run), e, newId)) <==> Trail(run) == []
  {
    hide Final, Trail, IsRun, LastIsCurrent;
    RunsKeepTheTrail(run);
    HandleStreams(Final(run), e, newId);
    StreamKeepsTrail(Final(run), Trail(run), StreamedBlock(e).value, newId);
    LastIffNoTrail(Handle(Final(run), e, newId), if Final(run).current.None? then [] else Trail(run));
  }

  /** It can happen: a task event outside a turn opens a bubble, and the answer to the next
      prompt is streamed into it, above the prompt. */
  lemma ReplyAbovePrompt(task: TaskEvent, prompt: string, reply: string)
    requires prompt != ""
    ensures var run := [Stamped(Receive(TaskTick(None, task)), "a")] + [Stamped(Prompt(prompt, []), "b")]
                       + [Stamped(Receive(TextDelta(None, reply)), "c")];
      && IsRun(run)
      && Final(run).messages ==
           [Message("a", Assistant, [Task(task), Text(reply)], false), Message("b", User, [Text(prompt)], true)]
  {
    hide Handle;
    var ticked, asked := Stamped(Receive(TaskTick(None, task)), "a"), Stamped(Prompt(prompt, []), "b");
    var told := Stamped(Receive(TextDelta(None, reply)), "c");
    var bubble, question := Message("a", Assistant, [Task(task)], false), Message("b", User, [Text(prompt)], true);
    var open := INITIAL.(messages := [bubble], current := Some("a"));
    var waiting := open.(messages := [bubble, question], status := Streaming);
    assert [] + [ticked] == [ticked] && [Text(prompt)] + [] == [Text(prompt)];
    TickOpens(task);
    RunExtends([], ticked);
    assert Final([ticked]) == open;
    RunExtends([ticked], asked);
    assert Final([ticked] + [asked]) == waiting;
    DeltaGoesUp(waiting, task, question, reply);
    RunExtends([ticked] + [asked], told);
  }

  lemma TickOpens(task: TaskEvent)
    ensures Handle(INITIAL, TaskTick(None, task), "a") ==
            INITIAL.(messages := [Message("a", Assistant, [Task(task)], false)], current := Some("a"))
  {
    assert AddBlock([], Task(task)) == [Task(task)];
    assert AddTo([Message("a", Assistant, [], false)], "a", Task(task)) ==
           [Message("a", Assistant, [Task(task)], false)];
  }

  lemma DeltaGoesUp(chat: Chat, task: TaskEvent, question: Message, reply: string)
    requires chat.messages == [Message("a", Assistant, [Task(task)], false), question]
    requires chat.current == Some("a") && question.id != "a"
    ensures Handle(chat, TextDelta(None, reply), "c").messages ==
            [Message("a", Assistant, [Task(task), Text(reply)], false), question]
  {
    assert AddBlock([Task(task)], Text(reply)) == [Task(task), Text(reply)];
  }

  lemma RunExtends(run: seq<Stamped>, next: Stamped)
    requires IsRun(run) && FinishedPage(next.action) && FreshIds(Final(run), next.action, next.newId)
    ensures IsRun(run + [next]) && Final(run + [next]) == Do(Final(run), next.action, next.newId)
  {
    hide Do, FreshIds;
    var all := run + [next];
    assert all[..|run|] == run;
    assert forall k :: 0 <= k < |run| ==> all[..k] == run[..k] && all[k] == run[k];
  }

  // ----- status, pages and lists over runs -----

  /** The session that was started or joined last since the store was reset. */
  function ActiveAfter(run: seq<Stamped>): Option<string> {
    if run == [] then None
    else match run[|run| - 1].action
      case Reset => None
      case Receive(SessionStarted(session, _)) => Some(session)
      case _ => ActiveAfter(run[..|run| - 1])
  }

  /** The message is not about another session than the one shown. */
  predicate InScope(active: Option<string>, e: Event) { Scope(e) == None || Scope(e) == active }

  /** A prompt, or word that a turn is under way. */
  predicate StartsStreaming(active: Option<string>, a: Action) {
    match a
    case Prompt(_, _) => true
    case Receive(SessionStarted(_, isBusy)) => isBusy
    case Receive(Error(code)) => code == "busy"
    case _ => false
  }

  /** A result of the session shown, word that it is idle, a takeover, an error, or a reset. */
  predicate EndsStreaming(active: Option<string>, a: Action) {
    match a
    case Reset => true
    case Receive(SessionStarted(_, isBusy)) => !isBusy
    case Receive(Error(code)) => code != "busy"
    case Receive(LockRevoked) => true
    case Receive(TurnResult(sid)) => InScope(active, TurnResult(sid))
    case _ => false
  }

  predicate Fails(active: Option<string>, a: Action) { a.Receive? && a.event.Error? && a.event.code != "busy" }

  /** What takes the error away: everything that starts or ends streaming but word of being
      idle, and a page of history. */
  predicate Recovers(active: Option<string>, a: Action) {
    || a.SetHistory? || StartsStreaming(active, a)
    || (EndsStreaming(active, a) && !(a.Receive? && (a.event.Error? || a.event.SessionStarted?)))
  }

  ghost predicate HoldsAt(run: seq<Stamped>, k: int, p: (Option<string>, Action) -> bool)
    requires 0 <= k < |run|
  {
    p(ActiveAfter(run[..k]), run[k].action)
  }

  /** Some action was a cause, and none undid it since. */
  ghost predicate Since(run: seq<Stamped>, cause: (Option<string>, Action) -> bool,
                        undo: (Option<string>, Action) -> bool) {
    exists k :: 0 <= k < |run| && HoldsAt(run, k, cause) && NoneSince(run, k, undo)
  }

  ghost predicate NoneSince(run: seq<Stamped>, k: int, p: (Option<string>, Action) -> bool) {
    forall j :: 0 <= j && k < j < |run| ==> !HoldsAt(run, j, p)
  }

  lemma SinceByStep(run: seq<Stamped>, cause: (Option<string>, Action) -> bool,
                    undo: (Option<string>, Action) -> bool)
    requires run != []
    ensures var init, a := run[..|run| - 1], run[|run| - 1].action;
      Since(run, cause, undo) <==>
        cause(ActiveAfter(init), a) || (Since(init, cause, undo) && !undo(ActiveAfter(init), a))
  {
    hide ActiveAfter;
    var n := |run| - 1;
    var init := run[..n];
    assert forall k :: 0 <= k < n ==> init[..k] == run[..k] && init[k] == run[k];
    assert forall k :: 0 <= k < n ==> (HoldsAt(init, k, cause) <==> HoldsAt(run, k, cause));
    assert forall k :: 0 <= k < n ==> (HoldsAt(init, k, undo) <==> HoldsAt(run, k, undo));
    if Since(init, cause, undo) && !HoldsAt(run, n, undo) {
      var k :| 0 <= k < n && HoldsAt(init, k, cause) && NoneSince(init, k, undo);
      assert HoldsAt(run, k, cause) && NoneSince(run, k, undo);
    }
    if HoldsAt(run, n, cause) { assert NoneSince(run, n, undo); }
    if Since(run, cause, undo) {
      var k :| 0 <= k < |run| && HoldsAt(run, k, cause) && NoneSince(run, k, undo);
      if k < n { assert HoldsAt(init, k, cause) && NoneSince(init, k, undo) && !HoldsAt(run, n, undo); }
    }
  }

  lemma StatusByEvent(chat: Chat, e: Event, newId: string)
    ensures var a := Receive(e);
      && (Handle(chat, e, newId).status == Streaming <==>
            StartsStreaming(chat.active, a) || (chat.status == Streaming && !EndsStreaming(chat.active, a)))
      && (Handle(chat, e, newId).status == Failed <==>
            Fails(chat.active, a) || (chat.status == Failed && !Recovers(chat.active, a)))
      && Handle(chat, e, newId).active == (if e.SessionStarted? then Some(e.session) else chat.active)
  {
    hide AddTo, SetResult, Finish, FinishAll, IndexOf;
  }

  lemma StatusByStep(chat: Chat, a: Action, newId: string)
    ensures var next := Do(chat, a, newId);
      && (next.status == Streaming <==>
            StartsStreaming(chat.active, a) || (chat.status == Streaming && !EndsStreaming(chat.active, a)))
      && (next.status == Failed <==>
            Fails(chat.active, a) || (chat.status == Failed && !Recovers(chat.active, a)))
      && next.active == (if a.Reset? then None
                         else if a.Receive? && a.event.SessionStarted? then Some(a.event.session)
                         else chat.active)
  {
    hide Handle;
    if a.Receive? { StatusByEvent(chat, a.event, newId); }
  }

  lemma {:induction false} ActiveIsLastStarted(run: seq<Stamped>)
    ensures Final(run).active == ActiveAfter(run)
  {
    hide Do;
    if run != [] {
      ActiveIsLastStarted(run[..|run| - 1]);
      StatusByStep(Final(run[..|run| - 1]), run[|run| - 1].action, run[|run| - 1].newId);
    }
  }

  /** Over any run: the store is streaming exactly if something started it and nothing ended it
      since. */
  lemma {:induction false} StreamingIff(run: seq<Stamped>)
    ensures Final(run).status == Streaming <==> Since(run, StartsStreaming, EndsStreaming)
  {
    hide Do, StartsStreaming, EndsStreaming;
    if run != [] {
      hide Since;
      var init := run[..|run| - 1];
      StreamingIff(init);
      ActiveIsLastStarted(init);
      StatusByStep(Final(init), run[|run| - 1].action, run[|run| - 1].newId);
      SinceByStep(run, StartsStreaming, EndsStreaming);
    }
  }

  /** Over any run: it shows a failure exactly if an error came and nothing took it away since. */
  lemma {:induction false} FailedIff(run: seq<Stamped>)
    ensures Final(run).status == Failed <==> Since(run, Fails, Recovers)
  {
    hide Do, Fails, Recovers;
    if run != [] {
      hide Since;
      var init := run[..|run| - 1];
      FailedIff(init);
      ActiveIsLastStarted(init);
      StatusByStep(Final(init), run[|run| - 1].action, run[|run| - 1].newId);
      SinceByStep(run, Fails, Recovers);
    }
  }

  /** After a turn's result the next page of history is taken, whatever it holds; before, only
      one that is longer than what is shown. */
  lemma PageIsTakenIff(run: seq<Stamped>, page: Page, newId: string)
    ensures var before, after := Final(run), Do(Final(run), SetHistory(page), newId);
            var shorter := 0 < |before.messages| && |page.messages| <= |before.messages|;
      && (Since(run, StartsStreaming, EndsStreaming) && shorter ==> after == before)
      && (!Since(run, StartsStreaming, EndsStreaming) || |page.messages| > |before.messages| ==>
            after.messages == page.messages && after.hasMore == page.hasMore && after.oldest == page.oldest
            && after.current == None)
  {
    hide Final, Since;
    StreamingIff(run);
  }

  /** The page whose bounds the store shows: the last one that was taken since the last reset. */
  function LastPage(run: seq<Stamped>): Option<Page> {
    if run == [] then None
    else
      var init := run[..|run| - 1];
      match run[|run| - 1].action
      case Reset => None
      case PrependHistory(page) => Some(page)
      case SetHistory(page) =>
        if Final(init).status == Streaming && 0 < |Final(init).messages| && |page.messages| <= |Final(init).messages|
        then LastPage(init) else Some(page)
      case _ => LastPage(init)
  }

  /** Whether an older page was asked for and none was taken since. */
  predicate Awaited(run: seq<Stamped>) {
    run != [] &&
    var init := run[..|run| - 1];
    match run[|run| - 1].action
    case SetLoading(loading) => loading
    case Reset => false
    case PrependHistory(_) => false
    case SetHistory(page) =>
      Awaited(init) && Final(init).status == Streaming && 0 < |Final(init).messages|
        && |page.messages| <= |Final(init).messages|
    case _ => Awaited(init)
  }

  lemma PageByEvent(chat: Chat, e: Event, newId: string)
    ensures var next := Handle(chat, e, newId);
      next.hasMore == chat.hasMore && next.oldest == chat.oldest && next.loadingOlder == chat.loadingOlder
  {
    hide AddTo, SetResult, Finish, FinishAll, IndexOf;
  }

  /** Paging goes on where the last page that was taken says. */
  lemma {:induction false} PagingFollowsLastPage(run: seq<Stamped>)
    ensures var c, page := Final(run), LastPage(run);
      && c.loadingOlder == Awaited(run)
      && c.hasMore == (page.Some? && page.value.hasMore)
      && c.oldest == (if page.Some? then page.value.oldest else None)
  {
    hide Handle;
    if run != [] {
      var init, last := run[..|run| - 1], run[|run| - 1];
      PagingFollowsLastPage(init);
      if last.action.Receive? { PageByEvent(Final(init), last.action.event, last.newId); }
    }
  }

  /** The permission requests since the session was last started or joined, in order. */
  function RequestsAfter(run: seq<Stamped>): seq<string> {
    if run == [] then []
    else match run[|run| - 1].action
      case Reset => []
      case Receive(SessionStarted(_, _)) => []
      case Receive(PermissionRequest(id)) => RequestsAfter(run[..|run| - 1]) + [id]
      case _ => RequestsAfter(run[..|run| - 1])
  }

  /** What was last asked under the id since then. */
  function LastAsked(run: seq<Stamped>, id: string): Option<UserInput> {
    if run == [] then None
    else match run[|run| - 1].action
      case Reset => None
      case Receive(SessionStarted(_, _)) => None
      case Receive(UserInputRequest(input)) =>
        if input.toolUseId == id then Some(input) else LastAsked(run[..|run| - 1], id)
      case _ => LastAsked(run[..|run| - 1], id)
  }

  /** Each question is listed once, as it was asked last. */
  ghost predicate ListsQuestions(inputs: seq<UserInput>, asked: string -> Option<UserInput>) {
    && (forall i, j :: 0 <= i < j < |inputs| ==> inputs[i].toolUseId != inputs[j].toolUseId)
    && (forall i :: 0 <= i < |inputs| ==> asked(inputs[i].toolUseId) == Some(inputs[i]))
    && (forall id :: asked(id).Some? ==> asked(id).value.toolUseId == id && asked(id).value in inputs)
  }

  lemma ListsByEvent(chat: Chat, e: Event, newId: string)
    ensures var next := Handle(chat, e, newId);
      && next.permissions == (if e.SessionStarted? then []
                              else if e.PermissionRequest? then chat.permissions + [e.toolUseId]
                              else chat.permissions)
      && (e.SessionStarted? ==> next.userInputs == [])
      && (!e.SessionStarted? && !e.UserInputRequest? ==> next.userInputs == chat.userInputs)
  {
    hide AddTo, SetResult, Finish, FinishAll, IndexOf;
  }

  lemma {:induction false} FirstIndex(inputs: seq<UserInput>, id: string)
    ensures var k := IndexOf(inputs, id);
      && (k < |inputs| ==> inputs[k].toolUseId == id) && (forall j :: 0 <= j < k ==> inputs[j].toolUseId != id)
  {
    if inputs != [] && inputs[0].toolUseId != id { FirstIndex(inputs[1..], id); }
  }

  lemma AskedAgain(inputs: seq<UserInput>, input: UserInput, k: nat, before: string -> Option<UserInput>,
                   after: string -> Option<UserInput>)
    requires ListsQuestions(inputs, before) && after(input.toolUseId) == Some(input) && k <= |inputs|
    requires k < |inputs| ==> inputs[k].toolUseId == input.toolUseId
    requires k == |inputs| ==> forall j :: 0 <= j < k ==> inputs[j].toolUseId != input.toolUseId
    requires forall id :: id != input.toolUseId ==> after(id) == before(id)
    ensures ListsQuestions(if k < |inputs| then inputs[k := input] else inputs + [input], after)
  {
    var next := if k < |inputs| then inputs[k := input] else inputs + [input];
    assert next[k] == input && forall i :: 0 <= i < |next| && i != k ==> next[i] == inputs[i];
    forall i | 0 <= i < |next| && i != k
      ensures next[i].toolUseId != input.toolUseId && after(next[i].toolUseId) == Some(next[i])
    {
      assert k < |inputs| ==> inputs[i].toolUseId != inputs[k].toolUseId;
    }
    forall id | after(id).Some? ensures after(id).value.toolUseId == id && after(id).value in next {
      if id != input.toolUseId {
        var j :| 0 <= j < |inputs| && inputs[j] == before(id).value;
        assert next[j] == inputs[j];
      }
    }
  }

  /** Over any run the store lists what is asked of the user since it joined the session:
      every permission request, and each question once, as it was asked last. */
  lemma {:induction false} ListsWhatIsAsked(run: seq<Stamped>)
    ensures Final(run).permissions == RequestsAfter(run)
    ensures ListsQuestions(Final(run).userInputs, id => LastAsked(run, id))
  {
    hide Handle, ListsQuestions;
    if run == [] {
      NothingAsked(run);
    } else {
      var init, last := run[..|run| - 1], run[|run| - 1];
      ListsWhatIsAsked(init);
      var before, after := id => LastAsked(init, id), id => LastAsked(run, id);
      if last.action.Reset? || (last.action.Receive? && last.action.event.SessionStarted?) {
        NothingAsked(run);
      } else if last.action.Receive? && last.action.event.UserInputRequest? {
        FirstIndex(Final(init).userInputs, last.action.event.input.toolUseId);
        AskedAgain(Final(init).userInputs, last.action.event.input,
                   IndexOf(Final(init).userInputs, last.action.event.input.toolUseId), before, after);
      } else {
        SameQuestions(Final(init).userInputs, before, after);
      }
      if last.action.Receive? {
        ListsByEvent(Final(init), last.action.event, last.newId);
        QuestionIsListed(Final(init), last.action.event, last.newId);
      }
    }
  }

  lemma QuestionIsListed(chat: Chat, e: Event, newId: string)
    ensures e.UserInputRequest? ==>
              var k := IndexOf(chat.userInputs, e.input.toolUseId);
              Handle(chat, e, newId).userInputs ==
                if k < |chat.userInputs| then chat.userInputs[k := e.input] else chat.userInputs + [e.input]
  {
  }

  lemma NothingAsked(run: seq<Stamped>)
    requires forall id :: LastAsked(run, id) == None
    ensures ListsQuestions([], id => LastAsked(run, id))
  {
  }

  lemma SameQuestions(inputs: seq<UserInput>, before: string -> Option<UserInput>, after: string -> Option<UserInput>)
    requires ListsQuestions(inputs, before) && forall id :: after(id) == before(id)
    ensures ListsQuestions(inputs, after)
  {
  }

  // ----- the program -----

  class Store {
    var messages: seq<Message>
    var status: Status
    var currentAssistantId: Option<string>
    var activeSessionId: Option<string>
    var hasMore: bool
    var oldestUuid: Option<string>
    var loadingOlder: bool
    var pendingPermissions: seq<string>
    var pendingUserInputs: seq<UserInput>

    function View(): Chat
      reads this
    {
      Chat(messages, status, currentAssistantId, activeSessionId, hasMore, oldestUuid, loadingOlder,
           pendingPermissions, pendingUserInputs)
    }

    constructor ()
      ensures View() == INITIAL
    {
      messages, status, currentAssistantId, activeSessionId := [], Idle, None, None;
      hasMore, oldestUuid, loadingOlder, pendingPermissions, pendingUserInputs := false, None, false, [], [];
    }

    method ResetAll()
      modifies this
      ensures View() == INITIAL
    {
      messages, status, currentAssistantId, activeSessionId := [], Idle, None, None;
      hasMore, oldestUuid, loadingOlder, pendingPermissions, pendingUserInputs := false, None, false, [], [];
    }

    method SetHistoryPage(page: Page)
      modifies this
      ensures View() == Do(old(View()), SetHistory(page), "")
    {
      if status == Streaming && |messages| > 0 && |page.messages| <= |messages| {
        return;
      }
      messages := page.messages;
      status := if status == Streaming then Streaming else Idle;
      currentAssistantId := None;
      hasMore, oldestUuid, loadingOlder := page.hasMore, page.oldest, false;
    }

    method SetLoadingOlder(loading: bool)
      modifies `loadingOlder
      ensures View() == Do(old(View()), SetLoading(loading), "")
    {
      loadingOlder := loading;
    }

    method PrependHistoryPage(page: Page)
      modifies this
      ensures View() == Do(old(View()), PrependHistory(page), "")
    {
      messages := page.messages + messages;
      hasMore, oldestUuid, loadingOlder := page.hasMore, page.oldest, false;
    }

    method AppendUserPrompt(text: string, images: seq<Block>, newId: string)
      modifies this
      ensures View() == Do(old(View()), Prompt(text, images), newId)
    {
      var blocks: seq<Block> := [];
      if text != "" { blocks := blocks + [Text(text)]; }
      var i := 0;
      while i < |images|
        invariant 0 <= i <= |images|
        invariant blocks == (if text != "" then [Text(text)] else []) + images[..i]
      {
        blocks := blocks + [images[i]];
        i := i + 1;
      }
      assert images[..i] == images;
      messages := messages + [Message(newId, User, blocks, true)];
      status := Streaming;
    }

    method EnsureAssistantMessage(newId: string) returns (id: string)
      modifies `messages, `currentAssistantId
      ensures View() == Ensured(old(View()), newId) && currentAssistantId == Some(id)
    {
      if currentAssistantId.Some? { return currentAssistantId.value; }
      messages := messages + [Message(newId, Assistant, [], false)];
      currentAssistantId := Some(newId);
      return newId;
    }

    method AppendBlock(id: string, block: Block)
      modifies `messages
      ensures messages == AddTo(old(messages), id, block)
    {
      var out: seq<Message> := [];
      for k := 0 to |messages|
        invariant messages == old(messages) && |out| == k
        invariant forall j :: 0 <= j < k ==> out[j] == AddTo(messages, id, block)[j]
      {
        var m := messages[k];
        if m.id == id {
          var blocks := Grow(m.blocks, block);
          m := m.(blocks := blocks);
        }
        out := out + [m];
      }
      messages := out;
    }

    /** Deltas of the kind that the bubble ends with extend its last block. */
    method Grow(blocks: seq<Block>, block: Block) returns (out: seq<Block>)
      ensures out == AddBlock(blocks, block)
    {
      if (block.Text? || block.Thinking?) && |blocks| > 0 {
        var last := blocks[|blocks| - 1];
        if last.Text? && block.Text? { return blocks[..|blocks| - 1] + [Text(last.text + block.text)]; }
        if last.Thinking? && block.Thinking? { return blocks[..|blocks| - 1] + [Thinking(last.text + block.text)]; }
      }
      return blocks + [block];
    }

    method StreamBlock(block: Block, newId: string)
      modifies `messages, `currentAssistantId
      ensures View() == Stream(old(View()), block, newId)
    {
      var id := EnsureAssistantMessage(newId);
      AppendBlock(id, block);
    }

    method HandleServerMessage(e: Event, newId: string)
      modifies this
      ensures View() == Do(old(View()), Receive(e), newId)
    {
      if Dropped(View(), e) { return; }
      match e {
        case SessionStarted(session, isBusy) =>
          activeSessionId := Some(session);
          pendingPermissions, pendingUserInputs := [], [];
          if isBusy && status != Streaming {
            status := Streaming;
          } else if !isBusy && status == Streaming {
            status, currentAssistantId := Idle, None;
            messages := FinishAll(messages);
          }
        case PermissionRequest(id) => pendingPermissions := pendingPermissions + [id];
        case UserInputRequest(input) => AskUser(input);
        case LockRevoked => status := Idle;
        case TextDelta(_, text) => StreamBlock(Text(text), newId);
        case ThinkingDelta(_, text) => StreamBlock(Thinking(text), newId);
        case ToolCall(_, id, name, args) => StreamBlock(Tool(id, name, args, None, None), newId);
        case TaskTick(_, task) => StreamBlock(Task(task), newId);
        case ToolDone(_, id, content, isError) => messages := SetResult(messages, id, content, isError);
        case TurnResult(_) =>
          messages := Finish(messages, currentAssistantId);
          status, currentAssistantId := Idle, None;
        case SystemNote(_, note) =>
          if note.Some? { messages := messages + [Message(newId, System, [Info(note.value)], true)]; }
        case Error(code) =>
          if code == "busy" {
            if |messages| > 0 && messages[|messages| - 1].role == User {
              messages := messages[..|messages| - 1];
            }
            status := Streaming;
          } else {
            status := Failed;
          }
        case Other =>
      }
    }

    /** A question asked again replaces its earlier copy. */
    method AskUser(input: UserInput)
      modifies `pendingUserInputs
      ensures var k := IndexOf(old(pendingUserInputs), input.toolUseId);
        pendingUserInputs == if k < |old(pendingUserInputs)| then old(pendingUserInputs)[k := input]
                             else old(pendingUserInputs) + [input]
    {
      var k := IndexOf(pendingUserInputs, input.toolUseId);
      if k < |pendingUserInputs| {
        pendingUserInputs := pendingUserInputs[k := input];
      } else {
        pendingUserInputs := pendingUserInputs + [input];
      }
    }
  }
}
