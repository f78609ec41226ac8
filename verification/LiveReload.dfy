/** The chat on screen against the chat after a reload: when both show the same conversation,
    up to coalescing neighbouring texts and truncating long tool results, and the inputs for
    which they do not. */
module LiveReload {
  import opened ChatGist
  import opened ChatStore
  import opened Dispatcher
  import opened ToolResults
  import opened Transcript
  import opened Turns
  import opened TurnSimulation
  import opened Wrappers

  // ----- alike only if every turn was shown and reads back -----

  lemma {:induction false} NoNoteIsRead(turns: seq<Turn>, line: Line)
    requires line in AllReadLines(turns)
    ensures line.role == User
  {
    if turns != [] && line !in ReadLines(turns[|turns| - 1]) { NoNoteIsRead(turns[..|turns| - 1], line); }
  }

  lemma {:induction false} NoUpkeepIsShown(turns: seq<Turn>, upkeep: string)
    requires forall t :: t in turns ==> GoodTurn(t, upkeep)
    ensures Line(User, upkeep) !in AllShownLines(turns)
  {
    if turns != [] {
      assert turns[|turns| - 1] in turns;
      NoUpkeepIsShown(turns[..|turns| - 1], upkeep);
    }
  }

  lemma {:induction false} TurnIsShown(turns: seq<Turn>, k: nat, line: Line)
    requires k < |turns|
    ensures line in ShownLines(turns[k]) ==> line in AllShownLines(turns)
    ensures line in ReadLines(turns[k]) ==> line in AllReadLines(turns)
  {
    hide ShownLines, ReadLines;
    if k < |turns| - 1 { TurnIsShown(turns[..|turns| - 1], k, line); }
  }

  /** Nobody typed the text of a hidden turn, and no note is read, so lines that agree leave no
      place for either. */
  lemma NoneHiddenOrChanged(turns: seq<Turn>, upkeep: string)
    requires upkeep != "" && forall t :: t in turns ==> GoodTurn(t, upkeep)
    requires AllShownLines(turns) == AllReadLines(turns)
    ensures forall t :: t in turns ==> t.Asked? || t.Notified?
  {
    hide AllShownLines, AllReadLines;
    NoUpkeepIsShown(turns, upkeep);
    forall k | 0 <= k < |turns| ensures turns[k].Asked? || turns[k].Notified? {
      var t := turns[k];
      assert t in turns;
      match t
      case Hidden(_, _, _, _) => TurnIsShown(turns, k, Line(User, upkeep));
      case Changed(note) =>
        TurnIsShown(turns, k, Line(System, note));
        NoNoteIsRead(turns, Line(System, note));
      case _ =>
    }
  }

  lemma {:induction false} AtMostOneLineEach(turns: seq<Turn>)
    requires forall t :: t in turns ==> t.Asked? || t.Notified?
    ensures |AllReadLines(turns)| <= |AllShownLines(turns)|
  {
    if turns != [] { AtMostOneLineEach(turns[..|turns| - 1]); }
  }

  /** At most as long before, and at most one more: so it is the one. */
  lemma EqualLast(a: seq<Line>, x: seq<Line>, b: seq<Line>, y: Line)
    requires a + x == b + [y] && |a| <= |b| && |x| <= 1
    ensures a == b && x == [y]
  {
    assert (a + x)[..|a|] == a && (b + [y])[..|b|] == b;
    assert (a + x)[|a|..] == x && (b + [y])[|b|..] == [y];
  }

  lemma {:induction false} EchoedIfSameLines(turns: seq<Turn>)
    requires forall t :: t in turns ==> t.Asked? || t.Notified?
    requires AllShownLines(turns) == AllReadLines(turns) && AllPromptEvents(turns) == 0
    ensures forall t :: t in turns && t.Asked? ==> Echoed(t)
  {
    if turns != [] {
      var init, t := turns[..|turns| - 1], turns[|turns| - 1];
      assert t in turns && forall x :: x in init ==> x in turns;
      if t.Asked? {
        AtMostOneLineEach(init);
        EqualLast(AllReadLines(init), ReadLines(t), AllShownLines(init), Line(User, t.prompt));
        assert ReadLines(t)[0].text == t.prompt;
      } else {
        assert AllShownLines(init) + NOTHING == AllShownLines(init);
        assert AllReadLines(init) + NOTHING == AllReadLines(init);
      }
      EchoedIfSameLines(init);
    }
  }

  /** What alike chats leave: prompts that read back, and reports of tasks. */
  lemma EchoedOrNotified(turns: seq<Turn>, upkeep: string, sid: Option<string>, ids: nat -> string)
    requires Injective(ids) && GoodTurns(turns, upkeep)
    requires AllAlike(OnScreen(sid, turns, ids).chat.messages, ReadTurns(turns))
    ensures forall t :: t in turns ==> Echoed(t) || t.Notified?
  {
    hide OnScreen, ReadTurns, AllAlike, Gists, AllShownLines, AllReadLines, AllPromptEvents, AllTicks, Sane, Echoed,
         GoodItem, Lines, Tasks, ToolIds, TicksFollow, Begun;
    AllAlikeSayTheSame(OnScreen(sid, turns, ids).chat.messages, ReadTurns(turns));
    assert GoodItems(turns);
    TurnsRead(turns);
    TurnsShow(turns, sid, ids);
    NothingSaid();
    assert [] + AllShownLines(turns) == AllShownLines(turns) && [] + AllReadLines(turns) == AllReadLines(turns);
    NoneHiddenOrChanged(turns, upkeep);
    EchoedIfSameLines(turns);
  }

  lemma NothingSaid()
    ensures Lines(Gists([])) == NOTHING && Tasks(Gists([])) == 0
  {
  }

  // ----- a report between turns puts the bubbles out of step -----

  /** Messages are never removed, and keep their roles. */
  ghost predicate SameRoles(ms: seq<Message>, next: seq<Message>) {
    |ms| <= |next| && forall k :: 0 <= k < |ms| ==> next[k].role == ms[k].role
  }

  lemma {:induction false} ResultKeepsRoles(ms: seq<Message>, r: Block)
    requires r.ToolResult?
    ensures SameRoles(ms, AttachResult(ms, r))
  {
    if ms != [] && FirstTool(ms[|ms| - 1].blocks, r.id) == |ms[|ms| - 1].blocks| {
      ResultKeepsRoles(ms[..|ms| - 1], r);
    }
  }

  lemma {:induction false} ResultsKeepRoles(ms: seq<Message>, blocks: seq<Block>)
    ensures SameRoles(ms, AttachResults(ms, blocks))
    decreases blocks
  {
    hide AttachResult;
    if blocks != [] {
      if blocks[0].ToolResult? { ResultKeepsRoles(ms, blocks[0]); }
      ResultsKeepRoles(if blocks[0].ToolResult? then AttachResult(ms, blocks[0]) else ms, blocks[1..]);
    }
  }

  lemma ReadingKeepsRoles(ms: seq<Message>, e: Entry)
    ensures SameRoles(ms, FoldEntry(ms, e))
  {
    hide TaskBlocks, Cleaned, Converted, AttachResults, WithoutResults;
    if e.etype == UserEntry {
      var tasks := TaskBlocks(RawBlocks(e.body));
      ResultsKeepRoles(if tasks == [] then ms else AttachTasks(ms, e.uuid, tasks), Cleaned(RawBlocks(e.body)));
    }
  }

  lemma {:induction false} ReadItemsKeepRoles(ms: seq<Message>, items: seq<Item>)
    ensures SameRoles(ms, ReadItems(ms, items))
  {
    hide FoldEntry;
    if items != [] {
      ReadItemsKeepRoles(ms, items[..|items| - 1]);
      ReadingKeepsRoles(ReadItems(ms, items[..|items| - 1]), EntryOf(items[|items| - 1]));
    }
  }

  lemma TellingKeepsRoles(l: Live, e: Event, sid: Option<string>, ids: nat -> string)
    requires Relayed(e, sid)
    ensures SameRoles(l.chat.messages, Tell(l, e, ids).chat.messages)
  {
    hide AddBlock, SetResultIn;
    if StreamedBlock(e).Some? && !Dropped(l.chat, e) { HandleStreams(l.chat, e, ids(l.drawn)); }
  }

  lemma {:induction false} TellingAllKeepsRoles(l: Live, es: seq<Event>, sid: Option<string>, ids: nat -> string)
    requires forall e :: e in es ==> Relayed(e, sid)
    ensures SameRoles(l.chat.messages, TellAll(l, es, ids).chat.messages)
  {
    hide Tell, Relayed;
    if es != [] {
      TellingAllKeepsRoles(l, es[..|es| - 1], sid, ids);
      TellingKeepsRoles(TellAll(l, es[..|es| - 1], ids), es[|es| - 1], sid, ids);
    }
  }

  ghost predicate HasAssistant(ms: seq<Message>) { exists k :: 0 <= k < |ms| && ms[k].role == Assistant }

  lemma StillHasAssistant(ms: seq<Message>, next: seq<Message>)
    requires HasAssistant(ms) && SameRoles(ms, next)
    ensures HasAssistant(next)
  {
    var k :| 0 <= k < |ms| && ms[k].role == Assistant;
    assert next[k].role == Assistant;
  }

  lemma SpokenIsRead(ms: seq<Message>, item: Item)
    requires GoodItem(item) && item.Said? && item.pieces != []
    ensures HasAssistant(FoldEntry(ms, EntryOf(item)))
  {
    SaidReadsAsPieces(ms, item.uuid, item.pieces);
    EachOpens(ms, item.uuid, Wholes(item.pieces));
    var read := AppendEach(ms, item.uuid, Wholes(item.pieces));
    assert read[|read| - 1].role == Assistant;
  }

  lemma {:induction false} SpokenItemsAreRead(ms: seq<Message>, items: seq<Item>)
    requires HasSpoken(items) && forall i :: i in items ==> GoodItem(i)
    ensures HasAssistant(ReadItems(ms, items))
  {
    hide FoldEntry, GoodItem, HasAssistant;
    var init, item := items[..|items| - 1], items[|items| - 1];
    assert item in items;
    SpokenByItem(items);
    if item.Said? && item.pieces != [] {
      SpokenIsRead(ReadItems(ms, init), item);
    } else {
      SpokenItemsAreRead(ms, init);
      ReadingKeepsRoles(ReadItems(ms, init), EntryOf(item));
      StillHasAssistant(ReadItems(ms, init), ReadItems(ms, items));
    }
  }

  lemma TurnKeepsRoles(ms: seq<Message>, t: Turn)
    ensures SameRoles(ms, ReadTurn(ms, t))
  {
    hide FoldEntry, ReadItems;
    if HasPrompt(t) { ReadingKeepsRoles(ms, PromptEntry(t)); }
    ReadItemsKeepRoles(if HasPrompt(t) then FoldEntry(ms, PromptEntry(t)) else ms, ItemsOf(t));
  }

  lemma {:induction false} SpokenTurnIsRead(turns: seq<Turn>, k: nat)
    requires k < |turns| && turns[k].Asked? && HasSpoken(turns[k].items) && GoodItems(turns)
    ensures HasAssistant(ReadTurns(turns))
  {
    hide ReadItems, FoldEntry, GoodItem, HasAssistant, HasSpoken;
    var init, t := turns[..|turns| - 1], turns[|turns| - 1];
    assert t in turns;
    if k == |turns| - 1 {
      SpokenItemsAreRead(FoldEntry(ReadTurns(init), PromptEntry(t)), t.items);
    } else {
      SpokenTurnIsRead(init, k);
      TurnKeepsRoles(ReadTurns(init), t);
      StillHasAssistant(ReadTurns(init), ReadTurns(turns));
    }
  }

  /** Message n is a bubble on screen, but the user's or none in the reading. */
  ghost predicate OutOfStep(live: seq<Message>, read: seq<Message>, n: nat) {
    && n < |live| && live[n].role == Assistant && HasAssistant(read)
    && n <= |read| && (n < |read| ==> read[n].role == User)
  }

  lemma NotAlike(live: seq<Message>, read: seq<Message>, n: nat)
    requires OutOfStep(live, read, n)
    ensures !AllAlike(live, read)
  {
    if n < |read| { assert !Alike(live[n], read[n]); }
  }

  lemma ReportIsAttached(ms: seq<Message>, uuid: string, text: RawText)
    requires HasAssistant(ms) && text.visible == ""
    ensures |FoldEntry(ms, EntryOf(Ticked(uuid, text)))| == |ms|
  {
    hide HasAssistant;
    var body := EntryOf(Ticked(uuid, text)).body;
    TextReads(ms, uuid, body, text);
    LastAssistantExists(ms);
  }

  lemma LastAssistantExists(ms: seq<Message>)
    requires HasAssistant(ms)
    ensures LastAssistant(ms) < |ms|
  {
  }

  lemma OneItemRead(ms: seq<Message>, item: Item)
    ensures ReadItems(ms, [item]) == FoldEntry(ms, EntryOf(item))
  {
    assert [item][..0] == [];
  }

  /** The report opens a bubble on screen; the reader has one to put it in. */
  lemma ReportOpensBubble(l: Live, read: seq<Message>, t: Turn, sid: Option<string>, ids: nat -> string)
    requires |l.chat.messages| == |read| && l.chat.current.None? && l.chat.active == sid && HasAssistant(read)
    requires t.Notified? && t.text.events != [] && t.text.visible == ""
    ensures OutOfStep(TellAll(l, SentOf(sid, t), ids).chat.messages, ReadTurn(read, t), |read|)
  {
    hide HasAssistant, FoldEntry, TellAll, Handle;
    var events := t.text.events;
    var first, rest := TaskTick(sid, events[0]), Ticks(sid, events[1..]);
    assert Ticks(sid, events) == [first] + rest;
    TellAppend(l, [first], rest, ids);
    OneTold(l, first, ids);
    HandleStreams(l.chat, first, ids(l.drawn));
    var bubbled := Tell(l, first, ids);
    BubbleOpens(l.chat, Task(events[0]), ids(l.drawn));
    assert bubbled.chat.messages[|read|].role == Assistant;
    TicksSay(sid, events[1..]);
    TellingAllKeepsRoles(bubbled, rest, sid, ids);
    OneItemRead(read, Ticked(t.uuid, t.text));
    ReportIsAttached(read, t.uuid, t.text);
    TurnKeepsRoles(read, t);
    StillHasAssistant(read, ReadTurn(read, t));
  }

  lemma BubbleOpens(chat: Chat, b: Block, newId: string)
    requires chat.current.None?
    ensures var ms := Stream(chat, b, newId).messages;
      |ms| == |chat.messages| + 1 && ms[|chat.messages|].role == Assistant
  {
  }

  /** Whatever follows, message n stays the user's or none in the reading. */
  lemma StaysOutOfStep(l: Live, read: seq<Message>, t: Turn, n: nat, upkeep: string, sid: Option<string>,
                       ids: nat -> string)
    requires OutOfStep(l.chat.messages, read, n) && GoodTurn(t, upkeep) && (Echoed(t) || t.Notified?)
    ensures OutOfStep(TellAll(Echo(l, t, ids), SentOf(sid, t), ids).chat.messages, ReadTurn(read, t), n)
  {
    hide HasAssistant, FoldEntry, TellAll, SentOf, ReadItems, TicksFollow, Relayed, NotesIn;
    SentSays(t, sid);
    TellingAllKeepsRoles(Echo(l, t, ids), SentOf(sid, t), sid, ids);
    TurnKeepsRoles(read, t);
    StillHasAssistant(read, ReadTurn(read, t));
    if t.Notified? {
      assert Ticked(t.uuid, t.text) in ItemsOf(t);
      OneItemRead(read, Ticked(t.uuid, t.text));
      ReportIsAttached(read, t.uuid, t.text);
    } else {
      PromptReads(read, t);
      ReadItemsKeepRoles(FoldEntry(read, PromptEntry(t)), t.items);
    }
  }

  lemma {:induction false} FirstReport(turns: seq<Turn>, j: nat, upkeep: string, sid: Option<string>,
                                       ids: nat -> string) returns (n: nat)
    requires Injective(ids) && GoodTurns(turns, upkeep) && (forall t :: t in turns ==> Echoed(t) || t.Notified?)
    requires j < |turns| && turns[j].Notified? && forall k :: 0 <= k < j ==> !turns[k].Notified?
    ensures OutOfStep(OnScreen(sid, turns, ids).chat.messages, ReadTurns(turns), n)
  {
    hide TellAll, SentOf, ReadTurn, GoodTurn, Distinct, HasSpoken, OutOfStep, HasAssistant;
    var init, t := turns[..|turns| - 1], turns[|turns| - 1];
    assert t in turns && forall k :: 0 <= k < |init| ==> init[k] == turns[k];
    GoodPrefix(turns, upkeep);
    if j < |turns| - 1 {
      n := FirstReport(init, j, upkeep, sid, ids);
      StaysOutOfStep(OnScreen(sid, init, ids), ReadTurns(init), t, n, upkeep, sid, ids);
    } else {
      assert forall x :: x in init ==> Echoed(x);
      TurnsSim(init, upkeep, sid, ids);
      SomeoneSpoke(turns, upkeep);
      var l := OnScreen(sid, init, ids);
      InStep(l, ReadTurns(init), sid, ids);
      GoodReport(t, upkeep);
      ReportOpensBubble(l, ReadTurns(init), t, sid, ids);
      n := |ReadTurns(init)|;
    }
  }

  lemma InStep(l: Live, read: seq<Message>, sid: Option<string>, ids: nat -> string)
    requires Sim(l, read, sid, ids)
    ensures |l.chat.messages| == |read| && l.chat.active == sid
  {
  }

  lemma GoodReport(t: Turn, upkeep: string)
    requires GoodTurn(t, upkeep) && t.Notified?
    ensures t.text.events != [] && t.text.visible == ""
  {
    assert Ticked(t.uuid, t.text) in ItemsOf(t);
  }

  lemma GoodPrefix(turns: seq<Turn>, upkeep: string)
    requires turns != [] && GoodTurns(turns, upkeep)
    ensures GoodTurns(turns[..|turns| - 1], upkeep)
  {
    hide GoodTurn, HasSpoken, ToolIdsOfItems;
    var init, t := turns[..|turns| - 1], turns[|turns| - 1];
    DistinctPrefix(ToolIds(init), ToolIdsOfItems(ItemsOf(t)));
    forall k | 0 <= k < |init| && init[k].Notified?
      ensures exists j :: 0 <= j < k && init[j].Asked? && HasSpoken(init[j].items)
    {
      assert turns[k] == init[k];
      var j :| 0 <= j < k && turns[j].Asked? && HasSpoken(turns[j].items);
      assert init[j] == turns[j];
    }
  }

  lemma SomeoneSpoke(turns: seq<Turn>, upkeep: string)
    requires turns != [] && GoodTurns(turns, upkeep) && turns[|turns| - 1].Notified?
    ensures HasAssistant(ReadTurns(turns[..|turns| - 1]))
  {
    hide ReadTurns, HasSpoken, GoodItem, TicksFollow, ToolIds;
    var init := turns[..|turns| - 1];
    var j :| 0 <= j < |turns| - 1 && turns[j].Asked? && HasSpoken(turns[j].items);
    assert init[j] == turns[j] && forall t :: t in init ==> t in turns;
    SpokenTurnIsRead(init, j);
  }

  function FirstNotified(turns: seq<Turn>): (j: nat)
    requires exists t :: t in turns && t.Notified?
    ensures j < |turns| && turns[j].Notified? && forall k :: 0 <= k < j ==> !turns[k].Notified?
  {
    if turns[0].Notified? then 0 else 1 + FirstNotified(turns[1..])
  }

  lemma NoReport(turns: seq<Turn>, upkeep: string, sid: Option<string>, ids: nat -> string)
    requires Injective(ids) && GoodTurns(turns, upkeep) && (forall t :: t in turns ==> Echoed(t) || t.Notified?)
    requires AllAlike(OnScreen(sid, turns, ids).chat.messages, ReadTurns(turns))
    ensures forall t :: t in turns ==> !t.Notified?
  {
    hide OnScreen, ReadTurns, AllAlike, GoodTurns, Echoed, OutOfStep;
    if exists t :: t in turns && t.Notified? {
      var n := FirstReport(turns, FirstNotified(turns), upkeep, sid, ids);
      NotAlike(OnScreen(sid, turns, ids).chat.messages, ReadTurns(turns), n);
    }
  }

  // ----- the theorem -----

  /** For turns with unique tool ids, non-empty prompts other than the text of the hidden turns,
      no blank blocks, and task events only after the agent said something, in the same turn or
      in one before if between turns: the chat on screen when all is over and the chat reloaded
      from the transcript are alike, bubble by bubble, if and only if no turn was hidden,
      nothing was changed and no task reported between turns, and every prompt reads back as it
      was echoed.  Then every bubble on screen is finished. */
  lemma LiveEqualsReload(turns: seq<Turn>, upkeep: string, sid: Option<string>, ids: nat -> string)
    requires Injective(ids) && GoodTurns(turns, upkeep)
    ensures AllAlike(OnScreen(sid, turns, ids).chat.messages, Fold(Entries(turns))) <==>
        forall t :: t in turns ==> Echoed(t)
    ensures (forall t :: t in turns ==> Echoed(t)) ==>
        forall m :: m in OnScreen(sid, turns, ids).chat.messages ==> m.finished
  {
    hide OnScreen, Fold, Entries, AllAlike, GoodTurns, Echoed, ReadTurns;
    ReadTurnsFolds(turns);
    if forall t :: t in turns ==> Echoed(t) {
      TurnsSim(turns, upkeep, sid, ids);
    } else if AllAlike(OnScreen(sid, turns, ids).chat.messages, ReadTurns(turns)) {
      EchoedOrNotified(turns, upkeep, sid, ids);
      NoReport(turns, upkeep, sid, ids);
    }
  }

  // ----- the failing inputs -----

  /** The text that hidden turns send. */
  function ConsolidationPrompt(): string { "[automatic consolidation] " + ConsolidationTask() }

  function ConsolidationTask(): string {
    "Review what happened in this session. If anything durably "
    + "useful for future sessions on this project emerged - an architecture decision, a "
    + "non-obvious gotcha, a stable contract, a hard-won how-to - save it now via the `kb` "
    + "`save` tool. Prefer several small, single-topic entries (1-3 tags each) over one long "
    + "note; skip transient/trivial detail; update or dedupe rather than piling on. If "
    + "nothing qualifies, reply with a single short line and do not save."
  }

  lemma ConsolidationIsVisible()
    ensures ConsolidationPrompt() != ""
  {
    hide ConsolidationTask;
    assert |"[automatic consolidation] " + ConsolidationTask()| > 0;
  }

  lemma LastTurn(turns: seq<Turn>, t: Turn, sid: Option<string>, ids: nat -> string)
    ensures OnScreen(sid, turns + [t], ids) == TellAll(Echo(OnScreen(sid, turns, ids), t, ids), SentOf(sid, t), ids)
    ensures Entries(turns + [t]) == Entries(turns) + EntriesOf(t) && t in turns + [t]
  {
    hide TellAll, Echo, SentOf, EntriesOf;
    assert (turns + [t])[..|turns + [t]| - 1] == turns;
  }

  /** A consolidation without task events sends nothing to the screen, and the reload shows its
      prompt as the user's: whatever came before, the chats are no longer alike. */
  lemma ConsolidationIsReloaded(turns: seq<Turn>, t: Turn, upkeep: string, sid: Option<string>, ids: nat -> string)
    requires Injective(ids) && GoodTurns(turns + [t], upkeep)
    requires t.Hidden? && forall i :: i in t.items ==> !i.Ticked?
    ensures OnScreen(sid, turns + [t], ids) == OnScreen(sid, turns, ids)
    ensures Entries(turns + [t]) == Entries(turns) + [PromptEntry(t)] + ItemEntries(t.items)
    ensures Fold(Entries(turns) + [PromptEntry(t)]) ==
            Fold(Entries(turns)) + [Message(t.uuid, User, [Text(upkeep)], true)]
    ensures !AllAlike(OnScreen(sid, turns + [t], ids).chat.messages, Fold(Entries(turns + [t])))
  {
    hide Fold, AllAlike, ToolIds, FoldEntry, DispatchAll, SdkOfItems, Echoed, OnScreen, Entries, Leaks, GoodItem, Tell;
    LastTurn(turns, t, sid, ids);
    ItemsStaySilent(t.items);
    SilentIff(t.stream, sid, SdkOfItems(t.items) + [Finished]);
    OneSilentIff(t.stream, sid, Finished);
    PromptReads(Fold(Entries(turns)), t);
    FoldSnoc(Entries(turns), PromptEntry(t));
    assert !Echoed(t) by { NotShown(t); }
    LiveEqualsReload(turns + [t], upkeep, sid, ids);
  }

  lemma NotShown(t: Turn)
    ensures !t.Asked? ==> !Echoed(t)
  {
  }

  lemma {:induction false} PiecesStaySilent(ps: seq<Piece>)
    ensures forall m :: m in SdkOfPieces(ps) ==> !Leaks(m)
  {
    if ps != [] { PiecesStaySilent(ps[..|ps| - 1]); }
  }

  lemma {:induction false} ItemsStaySilent(items: seq<Item>)
    requires forall i :: i in items ==> !i.Ticked?
    ensures forall m :: m in SdkOfItems(items) ==> !Leaks(m)
  {
    if items != [] {
      var item := items[|items| - 1];
      ItemsStaySilent(items[..|items| - 1]);
      assert item in items;
      if item.Said? { PiecesStaySilent(item.pieces); }
    }
  }

  /** A change of model or effort is noted on screen only. */
  lemma ChangeIsNotReloaded(turns: seq<Turn>, note: string, upkeep: string, sid: Option<string>, ids: nat -> string)
    requires Injective(ids) && GoodTurns(turns + [Changed(note)], upkeep)
    ensures Entries(turns + [Changed(note)]) == Entries(turns)
    ensures !AllAlike(OnScreen(sid, turns + [Changed(note)], ids).chat.messages, Fold(Entries(turns)))
  {
    hide Fold, AllAlike, GoodTurns, OnScreen, Entries;
    LastTurn(turns, Changed(note), sid, ids);
    assert Entries(turns) + [] == Entries(turns);
    assert !Echoed(Changed(note));
    LiveEqualsReload(turns + [Changed(note)], upkeep, sid, ids);
  }

  function PlanMode(): string { "[PLAN MODE - read-only, do NOT execute any changes]\n" }

  /** Plan mode prefixes what it sends and echoes what was typed: the reload shows another
      prompt than the screen did. */
  lemma PlanModeReadsDifferently(turns: seq<Turn>, t: Turn, upkeep: string, sid: Option<string>, ids: nat -> string)
    requires Injective(ids) && GoodTurns(turns, upkeep) && t in turns
    requires t.Asked? && t.sent == Untouched(PlanMode() + t.prompt)
    ensures !AllAlike(OnScreen(sid, turns, ids).chat.messages, Fold(Entries(turns)))
  {
    hide OnScreen, Fold, Entries, AllAlike, GoodTurns;
    assert |PlanMode()| > 0;
    assert !Echoed(t);
    LiveEqualsReload(turns, upkeep, sid, ids);
  }

  /** A task that reports between two turns opens a bubble of its own on screen, which the next
      answer goes into; the reader puts the report into the bubble before. */
  lemma ReportReadsDifferently(turns: seq<Turn>, t: Turn, upkeep: string, sid: Option<string>, ids: nat -> string)
    requires Injective(ids) && GoodTurns(turns, upkeep) && t in turns && t.Notified?
    ensures !AllAlike(OnScreen(sid, turns, ids).chat.messages, Fold(Entries(turns)))
  {
    hide OnScreen, Fold, Entries, AllAlike, GoodTurns;
    assert !Echoed(t);
    LiveEqualsReload(turns, upkeep, sid, ids);
  }
}
