/** Turns of a session, and the two ways they reach the browser: as the messages that the
    session sends while they run (worker-claude/src/sdk/session.py), reduced by `ChatStore`,
    and later as transcript entries, folded by `Transcript`. */
module Turns {
  import opened ChatStore
  import opened Dispatcher
  import opened PythonText
  import opened ToolResults
  import opened Transcript
  import opened Wrappers

  // ----- what a turn consists of -----

  /** A text is what its deltas add up to. */
  datatype Piece =
    | TextPiece(deltas: seq<string>)
    | ThinkingPiece(deltas: seq<string>)
    | ToolPiece(id: string, name: string, args: string)

  /** What the agent said, what its tools returned, and task events injected by the client
      library as a user's text. */
  datatype Item =
    | Said(uuid: string, pieces: seq<Piece>)
    | Got(uuid: string, outcomes: seq<Outcome>)
    | Ticked(uuid: string, text: RawText)

  /** The user asks, or the session consolidates in the background, on the same client; or,
      between turns, the user changes model or effort, or a background task reports.  `prompt`
      is what the browser echoes, `sent` the text that goes to the agent and into the
      transcript, with what cleaning makes of it; `stream` asks for deltas. */
  datatype Turn =
    | Asked(uuid: string, prompt: string, sent: RawText, stream: bool, items: seq<Item>)
    | Hidden(uuid: string, sent: RawText, stream: bool, items: seq<Item>)
    | Changed(note: string)
    | Notified(uuid: string, text: RawText)

  function Sum(deltas: seq<string>): string {
    if deltas == [] then "" else Sum(deltas[..|deltas| - 1]) + deltas[|deltas| - 1]
  }

  predicate HasPrompt(t: Turn) { t.Asked? || t.Hidden? }

  function ItemsOf(t: Turn): seq<Item> {
    if HasPrompt(t) then t.items else if t.Notified? then [Ticked(t.uuid, t.text)] else []
  }

  // ----- in the transcript -----

  function RawOf(p: Piece): RawBlock {
    match p
    case TextPiece(ds) => RawTextBlock(RawText(Sum(ds), Sum(ds), []))
    case ThinkingPiece(ds) => RawThinking(Sum(ds))
    case ToolPiece(id, name, args) => RawToolUse(id, name, args)
  }

  function EntryOf(item: Item): Entry {
    match item
    case Said(uuid, pieces) =>
      Entry(AssistantEntry, uuid, Blocks(seq(|pieces|, i requires 0 <= i < |pieces| => RawOf(pieces[i]))))
    case Got(uuid, outcomes) =>
      Entry(UserEntry, uuid, Blocks(seq(|outcomes|, i requires 0 <= i < |outcomes| =>
        RawToolResult(outcomes[i].id, outcomes[i].content, outcomes[i].isError))))
    case Ticked(uuid, text) => Entry(UserEntry, uuid, Blocks([RawTextBlock(text)]))
  }

  function ItemEntries(items: seq<Item>): seq<Entry> {
    seq(|items|, i requires 0 <= i < |items| => EntryOf(items[i]))
  }

  function PromptEntry(t: Turn): Entry
    requires HasPrompt(t)
  {
    Entry(UserEntry, t.uuid, Plain(t.sent))
  }

  function EntriesOf(t: Turn): seq<Entry> {
    (if HasPrompt(t) then [PromptEntry(t)] else []) + ItemEntries(ItemsOf(t))
  }

  function Entries(turns: seq<Turn>): seq<Entry> {
    if turns == [] then [] else Entries(turns[..|turns| - 1]) + EntriesOf(turns[|turns| - 1])
  }

  /** The reader's messages after `items` more entries. */
  function ReadItems(ms: seq<Message>, items: seq<Item>): seq<Message> {
    if items == [] then ms
    else FoldEntry(ReadItems(ms, items[..|items| - 1]), EntryOf(items[|items| - 1]))
  }

  function ReadTurn(ms: seq<Message>, t: Turn): seq<Message> {
    ReadItems(if HasPrompt(t) then FoldEntry(ms, PromptEntry(t)) else ms, ItemsOf(t))
  }

  function ReadTurns(turns: seq<Turn>): seq<Message> {
    if turns == [] then [] else ReadTurn(ReadTurns(turns[..|turns| - 1]), turns[|turns| - 1])
  }

  lemma FoldSnoc(entries: seq<Entry>, e: Entry)
    ensures Fold(entries + [e]) == FoldEntry(Fold(entries), e)
  {
    assert (entries + [e])[..|entries + [e]| - 1] == entries;
  }

  lemma {:induction false} ReadItemsFolds(entries: seq<Entry>, items: seq<Item>)
    ensures Fold(entries + ItemEntries(items)) == ReadItems(Fold(entries), items)
  {
    hide Fold, FoldEntry, EntryOf;
    if items == [] {
      assert entries + [] == entries;
    } else {
      var init := items[..|items| - 1];
      ReadItemsFolds(entries, init);
      var all := entries + ItemEntries(items);
      assert all == (entries + ItemEntries(init)) + [EntryOf(items[|items| - 1])];
      FoldSnoc(entries + ItemEntries(init), EntryOf(items[|items| - 1]));
    }
  }

  lemma {:induction false} ReadTurnsFolds(turns: seq<Turn>)
    ensures Fold(Entries(turns)) == ReadTurns(turns)
  {
    hide Fold, FoldEntry, ItemEntries, ReadItems;
    if turns != [] {
      var init, t := turns[..|turns| - 1], turns[|turns| - 1];
      ReadTurnsFolds(init);
      if HasPrompt(t) {
        FoldSnoc(Entries(init), PromptEntry(t));
        ReadItemsFolds(Entries(init) + [PromptEntry(t)], t.items);
        assert Entries(turns) == Entries(init) + [PromptEntry(t)] + ItemEntries(t.items);
      } else {
        ReadItemsFolds(Entries(init), ItemsOf(t));
        assert Entries(turns) == Entries(init) + ItemEntries(ItemsOf(t));
      }
    } else {
      NothingFolded();
    }
  }

  lemma NothingFolded()
    ensures Fold([]) == []
  {
  }

  // ----- on screen -----

  function Partials(thinking: bool, ds: seq<string>): seq<SdkMessage> {
    seq(|ds|, i requires 0 <= i < |ds| => Partial(thinking, ds[i]))
  }

  /** A piece arrives as its deltas, asked for or not, and then as a whole block. */
  function SdkOfPiece(p: Piece): seq<SdkMessage> {
    match p
    case TextPiece(ds) => Partials(false, ds) + [AssistantSaid([SdkText(Sum(ds))])]
    case ThinkingPiece(ds) => Partials(true, ds) + [AssistantSaid([SdkThinking(Sum(ds))])]
    case ToolPiece(id, name, args) => [AssistantSaid([SdkToolUse(id, name, args)])]
  }

  function SdkOfPieces(ps: seq<Piece>): seq<SdkMessage> {
    if ps == [] then [] else SdkOfPieces(ps[..|ps| - 1]) + SdkOfPiece(ps[|ps| - 1])
  }

  function Results(os: seq<Outcome>): seq<UserBlock> {
    seq(|os|, i requires 0 <= i < |os| => GotResult(os[i]))
  }

  function SdkOfItem(item: Item): seq<SdkMessage> {
    match item
    case Said(_, pieces) => SdkOfPieces(pieces)
    case Got(_, outcomes) => [UserGot(Results(outcomes))]
    case Ticked(_, text) => [UserGot([GotText(text.events)])]
  }

  function SdkOfItems(items: seq<Item>): seq<SdkMessage> {
    if items == [] then [] else SdkOfItems(items[..|items| - 1]) + SdkOfItem(items[|items| - 1])
  }

  /** What is sent for a turn; a change is acknowledged with a note. */
  function SentOf(sid: Option<string>, t: Turn): seq<Event> {
    if t.Changed? then [SystemNote(None, Some(t.note))]
    else if t.Notified? then Ticks(sid, t.text.events)
    else DispatchAll(t.stream, t.Hidden?, sid, SdkOfItems(t.items) + [Finished])
  }

  /** The store and the number of ids drawn so far. */
  datatype Live = Live(chat: Chat, drawn: nat)

  function Tell(l: Live, e: Event, ids: nat -> string): Live {
    Live(Handle(l.chat, e, ids(l.drawn)), l.drawn + 1)
  }

  function TellAll(l: Live, es: seq<Event>, ids: nat -> string): Live {
    if es == [] then l else Tell(TellAll(l, es[..|es| - 1], ids), es[|es| - 1], ids)
  }

  function Echo(l: Live, t: Turn, ids: nat -> string): Live {
    if t.Asked? then Live(Prompted(l.chat, t.prompt, [], ids(l.drawn)), l.drawn + 1) else l
  }

  /** The chat on screen while the turns run: the echo, then what the session sends. */
  function OnScreen(sid: Option<string>, turns: seq<Turn>, ids: nat -> string): Live {
    if turns == [] then Live(ChatStore.INITIAL.(active := sid), 0)
    else
      var t := turns[|turns| - 1];
      TellAll(Echo(OnScreen(sid, turns[..|turns| - 1], ids), t, ids), SentOf(sid, t), ids)
  }

  lemma TellAllSnoc(l: Live, es: seq<Event>, e: Event, ids: nat -> string)
    ensures TellAll(l, es + [e], ids) == Tell(TellAll(l, es, ids), e, ids)
  {
    assert (es + [e])[..|es + [e]| - 1] == es;
  }

  lemma {:induction false} TellAppend(l: Live, a: seq<Event>, b: seq<Event>, ids: nat -> string)
    ensures TellAll(l, a + b, ids) == TellAll(TellAll(l, a, ids), b, ids)
  {
    if b == [] {
      assert a + b == a;
    } else {
      TellAppend(l, a, b[..|b| - 1], ids);
      assert (a + b)[..|a + b| - 1] == a + b[..|b| - 1];
    }
  }

  ghost predicate Injective(ids: nat -> string) {
    forall i: nat, j: nat :: ids(i) == ids(j) ==> i == j
  }

  /** Every message got its id from the supply. */
  ghost predicate Drawn(l: Live, ids: nat -> string) {
    forall m :: m in l.chat.messages ==> exists k: nat :: k < l.drawn && m.id == ids(k)
  }

  // ----- assumptions -----

  predicate GoodPiece(p: Piece) {
    p.ToolPiece? || !Blank(Sum(p.deltas))
  }

  predicate GoodItem(item: Item) {
    match item
    case Said(_, pieces) => forall p :: p in pieces ==> GoodPiece(p)
    case Got(_, _) => true
    case Ticked(_, text) => text.visible == ""
  }

  ghost predicate HasSpoken(items: seq<Item>) {
    exists k :: 0 <= k < |items| && items[k].Said? && items[k].pieces != []
  }

  /** Task events come after the agent said something in the same turn. */
  ghost predicate TicksFollow(items: seq<Item>) {
    items != [] ==>
      TicksFollow(items[..|items| - 1]) && (items[|items| - 1].Ticked? ==> HasSpoken(items[..|items| - 1]))
  }

  /** A text without markers is read back as it is. */
  function Untouched(text: string): RawText { RawText(text, text, []) }

  /** A hidden turn sends the text `upkeep`; nobody types that. */
  ghost predicate GoodTurn(t: Turn, upkeep: string) {
    && (t.Asked? ==> t.prompt != "" && t.prompt != upkeep && TicksFollow(t.items))
    && (t.Hidden? ==> t.sent == Untouched(upkeep))
    && (t.Notified? ==> t.text.events != [])
    && forall i :: i in ItemsOf(t) ==> GoodItem(i)
  }

  /** The turn was shown, and what is read back of its prompt is what was echoed. */
  predicate Echoed(t: Turn) { t.Asked? && t.sent.visible == t.prompt && t.sent.events == [] }

  function ToolIdsOfPieces(ps: seq<Piece>): seq<string> {
    if ps == [] then []
    else ToolIdsOfPieces(ps[..|ps| - 1]) + (if ps[|ps| - 1].ToolPiece? then [ps[|ps| - 1].id] else [])
  }

  function ToolIdsOfItem(item: Item): seq<string> {
    if item.Said? then ToolIdsOfPieces(item.pieces) else []
  }

  function ToolIdsOfItems(items: seq<Item>): seq<string> {
    if items == [] then [] else ToolIdsOfItems(items[..|items| - 1]) + ToolIdsOfItem(items[|items| - 1])
  }

  function ToolIds(turns: seq<Turn>): seq<string> {
    if turns == [] then [] else ToolIds(turns[..|turns| - 1]) + ToolIdsOfItems(ItemsOf(turns[|turns| - 1]))
  }

  /** A task that reports between turns was started by an agent that said so. */
  ghost predicate Begun(turns: seq<Turn>) {
    forall k :: 0 <= k < |turns| && turns[k].Notified? ==>
      exists j :: 0 <= j < k && turns[j].Asked? && HasSpoken(turns[j].items)
  }

  ghost predicate GoodTurns(turns: seq<Turn>, upkeep: string) {
    && upkeep != "" && (forall t :: t in turns ==> GoodTurn(t, upkeep))
    && Begun(turns) && Distinct(ToolIds(turns))
  }

  // ----- comparing -----

  function Short(b: Block): Block {
    if b.Tool? && b.result.Some? then b.(result := Some(Truncate(b.result.value))) else b
  }

  function AllShort(blocks: seq<Block>): (out: seq<Block>)
    ensures |out| == |blocks|
  {
    seq(|blocks|, i requires 0 <= i < |blocks| => Short(blocks[i]))
  }

  /** A live bubble and a reloaded one look the same. */
  ghost predicate Alike(live: Message, read: Message) {
    live.role == read.role && AllShort(live.blocks) == Coalesce(read.blocks)
  }

  ghost predicate AllAlike(live: seq<Message>, read: seq<Message>) {
    |live| == |read| && forall k :: 0 <= k < |live| ==> Alike(live[k], read[k])
  }
}
