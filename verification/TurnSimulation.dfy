/** What is on screen after turns that were asked and read back as echoed is what the reader
    makes of their transcript: the chat and the reading are in simulation, event by event. */
module TurnSimulation {
  import opened ChatStore
  import opened Dispatcher
  import opened PythonText
  import opened ToolResults
  import opened Transcript
  import opened Turns
  import opened Wrappers

  // ----- block-level laws -----

  lemma AddTwice(blocks: seq<Block>, b: Block, c: Block)
    requires SameTextKind(b, c)
    ensures AddBlock(AddBlock(blocks, b), c) == AddBlock(blocks, Merge(b, c))
  {
    if blocks != [] && SameTextKind(blocks[|blocks| - 1], b) {
      var last := blocks[|blocks| - 1];
      assert last.text + b.text + c.text == last.text + (b.text + c.text);
    }
  }

  lemma ShortAdds(blocks: seq<Block>, b: Block)
    requires Short(b) == b
    ensures AllShort(AddBlock(blocks, b)) == AddBlock(AllShort(blocks), b)
  {
  }

  lemma ResultShortens(blocks: seq<Block>, id: string, content: Content, isError: bool)
    ensures AllShort(SetResultIn(blocks, id, content, isError)) ==
            SetResultIn(AllShort(blocks), id, Truncate(content), isError)
  {
  }

  lemma ResultAdds(blocks: seq<Block>, b: Block, id: string, content: Content, isError: bool)
    ensures SetResultIn(AddBlock(blocks, b), id, content, isError) ==
            AddBlock(SetResultIn(blocks, id, content, isError), ResultOn(b, id, content, isError))
  {
    if blocks != [] {
      var last := blocks[|blocks| - 1];
      assert SameTextKind(last, b) <==> SameTextKind(ResultOn(last, id, content, isError),
          ResultOn(b, id, content, isError));
    }
  }

  lemma {:induction false} ResultCoalesces(blocks: seq<Block>, id: string, content: Content, isError: bool)
    ensures Coalesce(SetResultIn(blocks, id, content, isError)) ==
            SetResultIn(Coalesce(blocks), id, content, isError)
  {
    hide AddBlock, ResultOn;
    if blocks != [] {
      var init, b := blocks[..|blocks| - 1], blocks[|blocks| - 1];
      ResultCoalesces(init, id, content, isError);
      ResultAdds(Coalesce(init), b, id, content, isError);
      assert SetResultIn(blocks, id, content, isError) ==
             SetResultIn(init, id, content, isError) + [ResultOn(b, id, content, isError)];
      CoalesceSnoc(SetResultIn(init, id, content, isError), ResultOn(b, id, content, isError));
    }
  }

  // ----- tool ids -----

  ghost predicate ToolAt(ms: seq<Message>, i: int, p: int, id: string) {
    0 <= i < |ms| && 0 <= p < |ms[i].blocks| && ms[i].blocks[p].Tool? && ms[i].blocks[p].id == id
  }

  /** Each tool id occurs once, and is one of `used`. */
  ghost predicate UniqueTools(ms: seq<Message>, used: seq<string>) {
    && (forall i, p, id :: ToolAt(ms, i, p, id) ==> id in used)
    && (forall i, p, j, q, id :: ToolAt(ms, i, p, id) && ToolAt(ms, j, q, id) ==> i == j && p == q)
  }

  /** With unique ids, the first match of the last matching message is every match. */
  lemma {:induction false} AttachIsSetResult(ms: seq<Message>, r: Block, used: seq<string>)
    requires r.ToolResult? && UniqueTools(ms, used)
    ensures AttachResult(ms, r) == SetResult(ms, r.id, r.content, r.failed)
  {
    if ms != [] {
      var n := |ms| - 1;
      var init, last := ms[..n], ms[n];
      var k := FirstTool(last.blocks, r.id);
      if k < |last.blocks| {
        assert ToolAt(ms, n, k, r.id);
        forall i, p | 0 <= i <= n && 0 <= p < |ms[i].blocks| && !(i == n && p == k)
          ensures ResultOn(ms[i].blocks[p], r.id, r.content, r.failed) == ms[i].blocks[p]
        {
          assert ToolAt(ms, i, p, r.id) ==> i == n && p == k;
        }
        var out := SetResult(ms, r.id, r.content, r.failed);
        forall i | 0 <= i < n ensures out[i] == ms[i] {
          assert SetResultIn(ms[i].blocks, r.id, r.content, r.failed) == ms[i].blocks;
        }
        assert out[n].blocks == last.blocks[k := WithResult(last.blocks[k], r.content, r.failed)];
      } else {
        assert forall i, p, id :: ToolAt(init, i, p, id) ==> ToolAt(ms, i, p, id);
        AttachIsSetResult(init, r, used);
        assert SetResultIn(last.blocks, r.id, r.content, r.failed) == last.blocks;
      }
    }
  }

  lemma SetResultKeepsUnique(ms: seq<Message>, id: string, content: Content, isError: bool, used: seq<string>)
    requires UniqueTools(ms, used)
    ensures UniqueTools(SetResult(ms, id, content, isError), used)
  {
    var out := SetResult(ms, id, content, isError);
    assert forall i, p, x :: ToolAt(out, i, p, x) <==> ToolAt(ms, i, p, x);
  }

  /** Adding one block to the transcript's side keeps ids unique if a tool's id is new. */
  lemma AppendKeepsUnique(ms: seq<Message>, uuid: string, b: Block, used: seq<string>)
    requires UniqueTools(ms, used) && (b.Tool? ==> b.id !in used)
    ensures UniqueTools(Append(ms, Assistant, uuid, [b]), if b.Tool? then used + [b.id] else used)
  {
    var out := Append(ms, Assistant, uuid, [b]);
    var n := |out| - 1;
    forall i, p, id | ToolAt(out, i, p, id)
      ensures ToolAt(ms, i, p, id) || (b.Tool? && id == b.id && i == n && p == |out[n].blocks| - 1)
    {
    }
  }

  // ----- the simulation -----

  ghost predicate Sim(l: Live, read: seq<Message>, sid: Option<string>, ids: nat -> string) {
    && AllAlike(l.chat.messages, read)
    && l.chat.active == sid
    && Drawn(l, ids)
    && LastIsCurrent(l.chat)
    && (forall m :: m in l.chat.messages && !m.finished ==> l.chat.current == Some(m.id))
  }

  /** During a turn the live bubble is open exactly when the transcript ends in one. */
  ghost predicate InTurn(l: Live, read: seq<Message>) {
    l.chat.current.Some? <==> read != [] && read[|read| - 1].role == Assistant
  }

  ghost predicate AddsBlock(read: seq<Message>, next: seq<Message>, open: bool, b: Block) {
    if open then
      && read != [] && |next| == |read| && next[..|read| - 1] == read[..|read| - 1]
      && next[|read| - 1].role == read[|read| - 1].role
      && Coalesce(next[|read| - 1].blocks) == AddBlock(Coalesce(read[|read| - 1].blocks), b)
    else
      && |next| == |read| + 1 && next[..|read|] == read
      && next[|read|].role == Assistant && Coalesce(next[|read|].blocks) == [b]
  }

  /** What one streamed block does to the store: only the last message, the bubble, grows. */
  ghost predicate Grew(l: Live, l': Live, b: Block, id: string) {
    var n := if l.chat.current.Some? then |l.chat.messages| - 1 else |l.chat.messages|;
    && n >= 0 && |l'.chat.messages| == n + 1 && l'.drawn == l.drawn + 1 && l'.chat.active == l.chat.active
    && l'.chat.messages[..n] == l.chat.messages[..n]
    && l'.chat.messages[n] == (if l.chat.current.Some?
         then l.chat.messages[n].(blocks := AddBlock(l.chat.messages[n].blocks, b))
         else Message(id, Assistant, [b], false))
    && l'.chat.current == Some(l'.chat.messages[n].id)
  }

  lemma AddToLast(ms: seq<Message>, id: string, b: Block)
    requires ms != [] && ms[|ms| - 1].id == id
    requires forall k :: 0 <= k < |ms| - 1 ==> ms[k].id != id
    ensures var n := |ms| - 1; AddTo(ms, id, b) == ms[..n] + [ms[n].(blocks := AddBlock(ms[n].blocks, b))]
  {
  }

  lemma EnsuredIsLast(l: Live, ids: nat -> string)
    requires Injective(ids) && Drawn(l, ids) && LastIsCurrent(l.chat)
    ensures var c := Ensured(l.chat, ids(l.drawn)); c.current.Some? && LastIsCurrent(c)
  {
    if l.chat.current.None? {
      forall k | 0 <= k < |l.chat.messages| ensures l.chat.messages[k].id != ids(l.drawn) {
        assert l.chat.messages[k] in l.chat.messages;
      }
    }
  }

  lemma GrewAtLast(l: Live, l': Live, id: string, b: Block)
    requires var c := Ensured(l.chat, id); var n := |c.messages| - 1;
      && LastIsCurrent(c) && l'.drawn == l.drawn + 1
      && l'.chat == c.(messages := c.messages[..n] + [c.messages[n].(blocks := AddBlock(c.messages[n].blocks, b))])
    ensures Grew(l, l', b, id) && LastIsCurrent(l'.chat)
  {
    hide AddBlock;
    NothingAdded(b);
    var n := |l'.chat.messages| - 1;
    assert l'.chat.messages[..n] == l.chat.messages[..n];
  }

  lemma NothingAdded(b: Block)
    ensures AddBlock([], b) == [b]
  {
  }

  lemma StreamGrows(l: Live, e: Event, sid: Option<string>, ids: nat -> string)
    requires Injective(ids) && Drawn(l, ids) && LastIsCurrent(l.chat) && l.chat.active == sid
    requires StreamedBlock(e).Some? && Scope(e) == sid
    ensures Grew(l, Tell(l, e, ids), StreamedBlock(e).value, ids(l.drawn))
    ensures LastIsCurrent(Tell(l, e, ids).chat)
  {
    hide Handle, AddTo, AddBlock, StreamedBlock, Scope, Injective, Drawn, Grew;
    var b, id := StreamedBlock(e).value, ids(l.drawn);
    EnsuredIsLast(l, ids);
    var c := Ensured(l.chat, id);
    AddToLast(c.messages, c.current.value, b);
    HandleStreams(l.chat, e, id);
    GrewAtLast(l, Tell(l, e, ids), id, b);
  }

  lemma GrownStaysDrawn(l: Live, l': Live, b: Block, ids: nat -> string)
    requires Drawn(l, ids) && Grew(l, l', b, ids(l.drawn))
    requires forall m :: m in l.chat.messages && !m.finished ==> l.chat.current == Some(m.id)
    requires LastIsCurrent(l.chat)
    ensures Drawn(l', ids)
    ensures forall m :: m in l'.chat.messages && !m.finished ==> l'.chat.current == Some(m.id)
  {
    var n := |l'.chat.messages| - 1;
    forall m | m in l'.chat.messages
      ensures (exists k: nat :: k < l'.drawn && m.id == ids(k)) && (!m.finished ==> l'.chat.current == Some(m.id))
    {
      var k :| 0 <= k <= n && m == l'.chat.messages[k];
      if k < n {
        assert l'.chat.messages[..n][k] == l.chat.messages[..n][k];
        assert m in l.chat.messages;
      } else if l.chat.current.Some? {
        assert l.chat.messages[n] in l.chat.messages;
      } else {
        assert m.id == ids(l.drawn);
      }
    }
  }

  lemma AlikeAtLast(live: seq<Message>, read: seq<Message>)
    requires AllAlike(live, read) && live != []
    ensures var n := |live| - 1; AllAlike(live[..n], read[..n]) && Alike(live[n], read[n])
  {
    hide Alike;
  }

  lemma AlikeWithLast(live: seq<Message>, read: seq<Message>, n: nat)
    requires |live| == |read| == n + 1 && AllAlike(live[..n], read[..n]) && Alike(live[n], read[n])
    ensures AllAlike(live, read)
  {
    hide Alike;
    forall k | 0 <= k < n ensures Alike(live[k], read[k]) {
      assert live[..n][k] == live[k] && read[..n][k] == read[k];
    }
  }

  /** A bubble and its reading grow by the same block. */
  lemma BubbleGrowsAlike(m: Message, r: Message, grown: Message, b: Block)
    requires Alike(m, r) && Short(b) == b
    requires grown.role == r.role && Coalesce(grown.blocks) == AddBlock(Coalesce(r.blocks), b)
    ensures Alike(m.(blocks := AddBlock(m.blocks, b)), grown)
  {
    hide AddBlock, Coalesce;
    ShortAdds(m.blocks, b);
  }

  lemma BubbleStartsAlike(m: Message, r: Message, b: Block)
    requires m.role == r.role && m.blocks == [b] && Coalesce(r.blocks) == [b] && Short(b) == b
    ensures Alike(m, r)
  {
    assert AllShort([b]) == [b];
  }

  /** One streamed block: the bubble grows as the transcript's last message does. */
  lemma StreamSim(l: Live, e: Event, read: seq<Message>, next: seq<Message>, sid: Option<string>, ids: nat -> string)
    requires Injective(ids) && Sim(l, read, sid, ids) && InTurn(l, read)
    requires StreamedBlock(e).Some? && Short(StreamedBlock(e).value) == StreamedBlock(e).value && Scope(e) == sid
    requires AddsBlock(read, next, l.chat.current.Some?, StreamedBlock(e).value)
    ensures Sim(Tell(l, e, ids), next, sid, ids) && InTurn(Tell(l, e, ids), next)
  {
    hide Tell, Coalesce, AddBlock, Alike, Short, StreamedBlock, Scope, Injective, AllAlike;
    var l', b := Tell(l, e, ids), StreamedBlock(e).value;
    StreamGrows(l, e, sid, ids);
    GrownStaysDrawn(l, l', b, ids);
    SameLength(l.chat.messages, read);
    var n := |l'.chat.messages| - 1;
    if l.chat.current.Some? {
      AlikeAtLast(l.chat.messages, read);
      BubbleGrowsAlike(l.chat.messages[n], read[n], next[n], b);
    } else {
      BubbleStartsAlike(l'.chat.messages[n], next[n], b);
      assert l.chat.messages[..n] == l.chat.messages && next[..n] == read;
    }
    AlikeWithLast(l'.chat.messages, next, n);
    SameRole(l'.chat.messages, next, n);
  }

  lemma SameLength(live: seq<Message>, read: seq<Message>)
    requires AllAlike(live, read)
    ensures |live| == |read|
  {
  }

  lemma SameRole(live: seq<Message>, read: seq<Message>, k: nat)
    requires AllAlike(live, read) && k < |live|
    ensures live[k].role == read[k].role
  {
    assert Alike(live[k], read[k]);
  }

  lemma ResultAlike(live: seq<Message>, read: seq<Message>, o: Outcome)
    requires AllAlike(live, read)
    ensures AllAlike(SetResult(live, o.id, o.content, o.isError), SetResult(read, o.id, Truncate(o.content), o.isError))
  {
    forall k | 0 <= k < |read|
      ensures Alike(SetResult(live, o.id, o.content, o.isError)[k],
          SetResult(read, o.id, Truncate(o.content), o.isError)[k])
    {
      assert Alike(live[k], read[k]);
      ResultShortens(live[k].blocks, o.id, o.content, o.isError);
      ResultCoalesces(read[k].blocks, o.id, Truncate(o.content), o.isError);
    }
  }

  lemma ResultIsStored(l: Live, o: Outcome, sid: Option<string>, ids: nat -> string)
    requires l.chat.active == sid
    ensures var l' := Tell(l, ToolDone(sid, o.id, o.content, o.isError), ids);
      l' == Live(l.chat.(messages := SetResult(l.chat.messages, o.id, o.content, o.isError)), l.drawn + 1)
  {
    hide SetResult;
  }

  lemma ResultStaysDrawn(l: Live, o: Outcome, sid: Option<string>, ids: nat -> string)
    requires Drawn(l, ids) && LastIsCurrent(l.chat) && l.chat.active == sid
    requires forall m :: m in l.chat.messages && !m.finished ==> l.chat.current == Some(m.id)
    ensures var l' := Tell(l, ToolDone(sid, o.id, o.content, o.isError), ids);
      && l'.chat == l.chat.(messages := SetResult(l.chat.messages, o.id, o.content, o.isError))
      && Drawn(l', ids) && LastIsCurrent(l'.chat)
      && (forall m :: m in l'.chat.messages && !m.finished ==> l'.chat.current == Some(m.id))
  {
    hide Tell, SetResultIn;
    ResultIsStored(l, o, sid, ids);
    var l' := Tell(l, ToolDone(sid, o.id, o.content, o.isError), ids);
    forall m | m in l'.chat.messages
      ensures (exists k: nat :: k < l'.drawn && m.id == ids(k)) && (!m.finished ==> l'.chat.current == Some(m.id))
    {
      var k :| 0 <= k < |l.chat.messages| && m == l'.chat.messages[k];
      assert l.chat.messages[k] in l.chat.messages;
    }
  }

  /** One tool result, with unique tool ids. */
  lemma ResultSim(l: Live, o: Outcome, read: seq<Message>, used: seq<string>, sid: Option<string>, ids: nat -> string)
    requires Sim(l, read, sid, ids) && InTurn(l, read) && UniqueTools(read, used)
    ensures var l' := Tell(l, ToolDone(sid, o.id, o.content, o.isError), ids);
            var read' := AttachResult(read, ToolResult(o.id, Truncate(o.content), o.isError));
            Sim(l', read', sid, ids) && InTurn(l', read') && UniqueTools(read', used)
  {
    var r := ToolResult(o.id, Truncate(o.content), o.isError);
    AttachIsSetResult(read, r, used);
    SetResultKeepsUnique(read, r.id, r.content, r.failed, used);
    ResultAlike(l.chat.messages, read, o);
    ResultStaysDrawn(l, o, sid, ids);
    var read' := SetResult(read, o.id, r.content, o.isError);
    assert read != [] ==> read'[|read| - 1].role == read[|read| - 1].role;
    assert Sim(Tell(l, ToolDone(sid, o.id, o.content, o.isError), ids), read', sid, ids);
  }

  // ----- pieces -----

  function Whole(p: Piece): Block {
    match p
    case TextPiece(ds) => Text(Sum(ds))
    case ThinkingPiece(ds) => Thinking(Sum(ds))
    case ToolPiece(id, name, args) => Tool(id, name, args, None, None)
  }

  /** The piece as messages to the browser, delta by delta. */
  function EventsOf(sid: Option<string>, p: Piece): seq<Event> {
    match p
    case TextPiece(ds) => DeltaEventsOf(sid, false, ds)
    case ThinkingPiece(ds) => DeltaEventsOf(sid, true, ds)
    case ToolPiece(id, name, args) => [ToolCall(sid, id, name, args)]
  }

  function DeltaEventsOf(sid: Option<string>, thinking: bool, ds: seq<string>): (r: seq<Event>)
    ensures |r| == |ds|
  {
    seq(|ds|, i requires 0 <= i < |ds| => DeltaEvent(sid, thinking, ds[i]))
  }

  function TextOf(thinking: bool, text: string): Block { if thinking then Thinking(text) else Text(text) }

  lemma AppendAddsBlock(read: seq<Message>, uuid: string, b: Block)
    ensures AddsBlock(read, Append(read, Assistant, uuid, [b]), read != [] && read[|read| - 1].role == Assistant, b)
  {
    if read != [] { CoalesceSnoc(read[|read| - 1].blocks, b); }
    assert Coalesce([b]) == AddBlock(Coalesce([]), b) by { CoalesceSnoc([], b); assert [] + [b] == [b]; }
  }

  /** A further delta of the text that the transcript's last message ends with. */
  lemma DeltaExtends(read: seq<Message>, uuid: string, b: Block, c: Block)
    requires SameTextKind(b, c)
    ensures AddsBlock(Append(read, Assistant, uuid, [b]), Append(read, Assistant, uuid, [Merge(b, c)]), true, c)
  {
    hide AddBlock, Coalesce;
    var base := if read != [] && read[|read| - 1].role == Assistant then read[|read| - 1].blocks else [];
    CoalesceSnoc(base, b);
    CoalesceSnoc(base, Merge(b, c));
    AddTwice(Coalesce(base), b, c);
    assert base == [] ==> base + [b] == [b] && base + [Merge(b, c)] == [Merge(b, c)];
  }

  lemma SumSnoc(ds: seq<string>, n: nat)
    requires n < |ds|
    ensures Sum(ds[..n + 1]) == Sum(ds[..n]) + ds[n]
  {
    assert ds[..n + 1][..n] == ds[..n];
  }

  lemma DeltaEvents(sid: Option<string>, p: Piece, n: nat)
    requires !p.ToolPiece? && n < |p.deltas|
    ensures EventsOf(sid, p)[..n + 1] == EventsOf(sid, p)[..n] + [DeltaEvent(sid, p.ThinkingPiece?, p.deltas[n])]
  {
  }

  lemma DeltaIsStreamed(sid: Option<string>, thinking: bool, text: string, delta: string)
    ensures var e, b, c := DeltaEvent(sid, thinking, delta), TextOf(thinking, text), TextOf(thinking, delta);
      && StreamedBlock(e) == Some(c) && Scope(e) == sid && Short(c) == c
      && SameTextKind(b, c) && Merge(b, c) == TextOf(thinking, text + delta)
  {
  }

  /** After n deltas the bubble matches a transcript that ends with their sum. */
  lemma {:induction false} DeltasSim(l: Live, read: seq<Message>, uuid: string, p: Piece, n: nat,
                                     sid: Option<string>, ids: nat -> string)
    requires Injective(ids) && Sim(l, read, sid, ids) && InTurn(l, read)
    requires !p.ToolPiece? && 0 < n <= |p.deltas|
    ensures var l' := TellAll(l, EventsOf(sid, p)[..n], ids);
            var read' := Append(read, Assistant, uuid, [TextOf(p.ThinkingPiece?, Sum(p.deltas[..n]))]);
            Sim(l', read', sid, ids) && InTurn(l', read')
  {
    hide Sim, InTurn, UniqueTools, Append, Tell, StreamedBlock, Scope, Short, SameTextKind, Merge, TextOf, DeltaEvent,
         AddsBlock, DeltaEventsOf;
    var k, thinking := n - 1, p.ThinkingPiece?;
    var delta := p.deltas[k];
    var e := DeltaEvent(sid, thinking, delta);
    DeltaEvents(sid, p, k);
    TellAllSnoc(l, EventsOf(sid, p)[..k], e, ids);
    SumSnoc(p.deltas, k);
    DeltaIsStreamed(sid, thinking, Sum(p.deltas[..k]), delta);
    if k == 0 {
      assert TellAll(l, EventsOf(sid, p)[..0], ids) == l;
      assert Sum(p.deltas[..0]) + delta == delta;
      BlockSim(l, e, TextOf(thinking, delta), read, uuid, sid, ids);
    } else {
      DeltasSim(l, read, uuid, p, k, sid, ids);
      var b, c := TextOf(thinking, Sum(p.deltas[..k])), TextOf(thinking, delta);
      BubbleIsOpen(TellAll(l, EventsOf(sid, p)[..k], ids), read, uuid, b);
      DeltaExtends(read, uuid, b, c);
      StreamSim(TellAll(l, EventsOf(sid, p)[..k], ids), e, Append(read, Assistant, uuid, [b]),
                Append(read, Assistant, uuid, [Merge(b, c)]), sid, ids);
    }
  }

  /** A first delta, or a tool call. */
  lemma BlockSim(l: Live, e: Event, c: Block, read: seq<Message>, uuid: string,
                 sid: Option<string>, ids: nat -> string)
    requires Injective(ids) && Sim(l, read, sid, ids) && InTurn(l, read)
    requires StreamedBlock(e) == Some(c) && Short(c) == c && Scope(e) == sid
    ensures var l', next := Tell(l, e, ids), Append(read, Assistant, uuid, [c]);
            Sim(l', next, sid, ids) && InTurn(l', next)
  {
    hide Sim, Append, Tell;
    AppendAddsBlock(read, uuid, c);
    StreamSim(l, e, read, Append(read, Assistant, uuid, [c]), sid, ids);
  }

  lemma BubbleIsOpen(l: Live, read: seq<Message>, uuid: string, b: Block)
    requires InTurn(l, Append(read, Assistant, uuid, [b]))
    ensures l.chat.current.Some?
  {
  }

  lemma HasDeltas(p: Piece)
    requires !p.ToolPiece? && GoodPiece(p)
    ensures p.deltas != []
  {
  }

  function NonEmpty(ds: seq<string>): seq<string> {
    if ds == [] then [] else NonEmpty(ds[..|ds| - 1]) + (if ds[|ds| - 1] == "" then [] else [ds[|ds| - 1]])
  }

  function ShownDeltas(stream: bool, ds: seq<string>): seq<string> {
    if stream then NonEmpty(ds) else if Sum(ds) == "" then [] else [Sum(ds)]
  }

  /** The piece with the deltas that are actually sent. */
  function Shown(stream: bool, p: Piece): Piece {
    match p
    case TextPiece(ds) => TextPiece(ShownDeltas(stream, ds))
    case ThinkingPiece(ds) => ThinkingPiece(ShownDeltas(stream, ds))
    case ToolPiece(_, _, _) => p
  }

  lemma {:induction false} SumNonEmpty(ds: seq<string>)
    ensures Sum(NonEmpty(ds)) == Sum(ds)
  {
    if ds != [] {
      var init, d := ds[..|ds| - 1], ds[|ds| - 1];
      SumNonEmpty(init);
      assert (NonEmpty(init) + [d])[..|NonEmpty(init)|] == NonEmpty(init);
      assert NonEmpty(init) + [] == NonEmpty(init) && Sum(init) + "" == Sum(init);
    }
  }

  lemma ShownKeepsSum(stream: bool, ds: seq<string>)
    ensures Sum(ShownDeltas(stream, ds)) == Sum(ds)
  {
    SumNonEmpty(ds);
    assert [Sum(ds)][..0] == [];
  }

  lemma {:induction false} PartialsDispatch(stream: bool, sid: Option<string>, thinking: bool, ds: seq<string>)
    ensures DispatchAll(stream, false, sid, Partials(thinking, ds)) ==
            if stream then DeltaEventsOf(sid, thinking, NonEmpty(ds)) else []
  {
    hide DispatchBlocks, DispatchUser, DeltaEvent;
    if ds != [] {
      var init, d := ds[..|ds| - 1], ds[|ds| - 1];
      PartialsDispatch(stream, sid, thinking, init);
      assert Partials(thinking, ds)[..|ds| - 1] == Partials(thinking, init);
      assert Partials(thinking, ds)[|ds| - 1] == Partial(thinking, d);
      OneMoreDelta(sid, thinking, NonEmpty(init), d);
    }
  }

  lemma OneMoreDelta(sid: Option<string>, thinking: bool, ds: seq<string>, d: string)
    ensures DeltaEventsOf(sid, thinking, ds + [d]) == DeltaEventsOf(sid, thinking, ds) + [DeltaEvent(sid, thinking, d)]
    ensures ds + [] == ds && DeltaEventsOf(sid, thinking, ds) + [] == DeltaEventsOf(sid, thinking, ds)
  {
  }

  lemma OneDispatched(stream: bool, sid: Option<string>, m: SdkMessage)
    ensures DispatchAll(stream, false, sid, [m]) == Dispatch(stream, false, sid, m)
  {
    assert [m][..0] == [];
  }

  lemma OneBlock(stream: bool, sid: Option<string>, b: SdkBlock)
    ensures Dispatch(stream, false, sid, AssistantSaid([b])) == DispatchBlock(stream, false, sid, b)
  {
    assert [b][..0] == [];
    assert DispatchBlocks(stream, false, sid, [b]) == DispatchBlocks(stream, false, sid, []) + DispatchBlock(stream,
        false, sid, b);
  }

  lemma TextDispatch(stream: bool, sid: Option<string>, thinking: bool, ds: seq<string>, whole: SdkBlock)
    requires whole == if thinking then SdkThinking(Sum(ds)) else SdkText(Sum(ds))
    ensures DispatchAll(stream, false, sid, Partials(thinking, ds) + [AssistantSaid([whole])]) ==
            DeltaEventsOf(sid, thinking, ShownDeltas(stream, ds))
  {
    DispatchAppend(stream, false, sid, Partials(thinking, ds), [AssistantSaid([whole])]);
    PartialsDispatch(stream, sid, thinking, ds);
    OneDispatched(stream, sid, AssistantSaid([whole]));
    OneBlock(stream, sid, whole);
  }

  lemma PieceDispatch(stream: bool, sid: Option<string>, p: Piece)
    ensures DispatchAll(stream, false, sid, SdkOfPiece(p)) == EventsOf(sid, Shown(stream, p))
  {
    match p
    case TextPiece(ds) => TextDispatch(stream, sid, false, ds, SdkText(Sum(ds)));
    case ThinkingPiece(ds) => TextDispatch(stream, sid, true, ds, SdkThinking(Sum(ds)));
    case ToolPiece(id, name, args) =>
      OneDispatched(stream, sid, AssistantSaid([SdkToolUse(id, name, args)]));
      OneBlock(stream, sid, SdkToolUse(id, name, args));
  }

  lemma ShownPieceSim(l: Live, read: seq<Message>, used: seq<string>, uuid: string, p: Piece,
                 sid: Option<string>, ids: nat -> string)
    requires Injective(ids) && Sim(l, read, sid, ids) && InTurn(l, read) && UniqueTools(read, used)
    requires GoodPiece(p) && (p.ToolPiece? ==> p.id !in used)
    ensures var l' := TellAll(l, EventsOf(sid, p), ids);
            var read' := Append(read, Assistant, uuid, [Whole(p)]);
            && Sim(l', read', sid, ids) && InTurn(l', read')
            && UniqueTools(read', used + ToolIdsOfPieces([p]))
  {
    hide GoodPiece, Sim, InTurn, UniqueTools, Append, Tell;
    AppendKeepsUnique(read, uuid, Whole(p), used);
    assert ToolIdsOfPieces([p]) == if p.ToolPiece? then [p.id] else [];
    assert used + [] == used;
    if p.ToolPiece? {
      BlockSim(l, ToolCall(sid, p.id, p.name, p.args), Whole(p), read, uuid, sid, ids);
      assert EventsOf(sid, p)[..0] == [];
    } else {
      HasDeltas(p);
      DeltasSim(l, read, uuid, p, |p.deltas|, sid, ids);
      assert EventsOf(sid, p)[..|p.deltas|] == EventsOf(sid, p) && p.deltas[..|p.deltas|] == p.deltas;
    }
  }

  lemma PieceSim(l: Live, read: seq<Message>, used: seq<string>, uuid: string, stream: bool, p: Piece,
                 sid: Option<string>, ids: nat -> string)
    requires Injective(ids) && Sim(l, read, sid, ids) && InTurn(l, read) && UniqueTools(read, used)
    requires GoodPiece(p) && (p.ToolPiece? ==> p.id !in used)
    ensures var l' := TellAll(l, DispatchAll(stream, false, sid, SdkOfPiece(p)), ids);
            var read' := Append(read, Assistant, uuid, [Whole(p)]);
            && Sim(l', read', sid, ids) && InTurn(l', read')
            && UniqueTools(read', used + ToolIdsOfPieces([p]))
  {
    hide Sim, InTurn, UniqueTools, Append, TellAll, DispatchAll, SdkOfPiece, EventsOf, ShownDeltas;
    PieceDispatch(stream, sid, p);
    if !p.ToolPiece? { ShownKeepsSum(stream, p.deltas); }
    ShownPieceSim(l, read, used, uuid, Shown(stream, p), sid, ids);
    SameTools(stream, p);
  }

  lemma SameTools(stream: bool, p: Piece)
    ensures ToolIdsOfPieces([Shown(stream, p)]) == ToolIdsOfPieces([p])
  {
  }

  // ----- items -----

  function AppendEach(read: seq<Message>, uuid: string, blocks: seq<Block>): seq<Message> {
    if blocks == [] then read
    else Append(AppendEach(read, uuid, blocks[..|blocks| - 1]), Assistant, uuid, [blocks[|blocks| - 1]])
  }

  lemma {:induction false} AppendAtOnce(read: seq<Message>, uuid: string, blocks: seq<Block>)
    requires blocks != []
    ensures AppendEach(read, uuid, blocks) == Append(read, Assistant, uuid, blocks)
  {
    var init, b := blocks[..|blocks| - 1], blocks[|blocks| - 1];
    if init == [] {
      assert blocks == [b];
    } else {
      AppendAtOnce(read, uuid, init);
      var mid := Append(read, Assistant, uuid, init);
      if read != [] && read[|read| - 1].role == Assistant {
        assert read[|read| - 1].blocks + blocks == mid[|mid| - 1].blocks + [b];
      }
      assert init + [b] == blocks;
    }
  }

  function Wholes(ps: seq<Piece>): seq<Block> {
    seq(|ps|, i requires 0 <= i < |ps| => Whole(ps[i]))
  }

  lemma {:induction false} PiecesSim(l: Live, read: seq<Message>, used: seq<string>, uuid: string, stream: bool,
                                     ps: seq<Piece>, sid: Option<string>, ids: nat -> string)
    requires Injective(ids) && Sim(l, read, sid, ids) && InTurn(l, read) && UniqueTools(read, used)
    requires (forall p :: p in ps ==> GoodPiece(p)) && Distinct(used + ToolIdsOfPieces(ps))
    ensures var l' := TellAll(l, DispatchAll(stream, false, sid, SdkOfPieces(ps)), ids);
            var read' := AppendEach(read, uuid, Wholes(ps));
            && Sim(l', read', sid, ids) && InTurn(l', read')
            && UniqueTools(read', used + ToolIdsOfPieces(ps))
  {
    hide Sim, InTurn, UniqueTools, Append, DispatchAll, SdkOfPiece, Distinct, GoodPiece, Injective;
    if ps == [] {
      assert used + [] == used;
      NothingSent(l, stream, sid, ids);
    } else {
      var init, p := ps[..|ps| - 1], ps[|ps| - 1];
      var before := used + ToolIdsOfPieces(init);
      assert [p][..0] == [];
      assert used + ToolIdsOfPieces(ps) == before + ToolIdsOfPieces([p]);
      DistinctPrefix(before, ToolIdsOfPieces([p]));
      PiecesSim(l, read, used, uuid, stream, init, sid, ids);
      var mid := TellAll(l, DispatchAll(stream, false, sid, SdkOfPieces(init)), ids);
      PieceSim(mid, AppendEach(read, uuid, Wholes(init)), before, uuid, stream, p, sid, ids);
      SentOneAfterAnother(l, stream, sid, SdkOfPieces(init), SdkOfPiece(p), ids);
      assert Wholes(ps)[..|ps| - 1] == Wholes(init);
    }
  }

  lemma NothingSent(l: Live, stream: bool, sid: Option<string>, ids: nat -> string)
    ensures TellAll(l, DispatchAll(stream, false, sid, []), ids) == l
  {
  }

  lemma SentOneAfterAnother(l: Live, stream: bool, sid: Option<string>, a: seq<SdkMessage>, b: seq<SdkMessage>,
                            ids: nat -> string)
    ensures TellAll(l, DispatchAll(stream, false, sid, a + b), ids) ==
            TellAll(TellAll(l, DispatchAll(stream, false, sid, a), ids), DispatchAll(stream, false, sid, b), ids)
  {
    hide DispatchAll, TellAll;
    DispatchAppend(stream, false, sid, a, b);
    TellAppend(l, DispatchAll(stream, false, sid, a), DispatchAll(stream, false, sid, b), ids);
  }

  lemma DistinctPrefix(a: seq<string>, b: seq<string>)
    requires Distinct(a + b)
    ensures Distinct(a) && forall x :: x in b ==> x !in a
  {
    assert forall k :: 0 <= k < |a| ==> (a + b)[k] == a[k];
    forall x | x in b ensures x !in a {
      var k :| 0 <= k < |b| && b[k] == x;
      assert (a + b)[|a| + k] == x;
    }
  }

  lemma {:induction false} ConvertedPieces(ps: seq<Piece>, raw: seq<RawBlock>)
    requires |raw| == |ps| && forall k :: 0 <= k < |ps| ==> raw[k] == RawOf(ps[k])
    ensures Converted(raw) == Wholes(ps)
  {
    if ps != [] {
      ConvertedPieces(ps[1..], raw[1..]);
      assert Wholes(ps) == [Whole(ps[0])] + Wholes(ps[1..]);
    }
  }

  lemma GoodIsVisible(p: Piece)
    requires GoodPiece(p)
    ensures Visible(Whole(p))
  {
  }

  lemma SaidReadsAsPieces(read: seq<Message>, uuid: string, ps: seq<Piece>)
    requires forall p :: p in ps ==> GoodPiece(p)
    ensures FoldEntry(read, EntryOf(Said(uuid, ps))) == AppendEach(read, uuid, Wholes(ps))
  {
    hide Converted, Append, Visible, GoodPiece;
    var e := EntryOf(Said(uuid, ps));
    ConvertedPieces(ps, RawBlocks(e.body));
    if ps != [] {
      assert ps[0] in ps && Wholes(ps)[0] in Wholes(ps);
      GoodIsVisible(ps[0]);
      AppendAtOnce(read, uuid, Wholes(ps));
    }
  }

  function ResultBlocks(os: seq<Outcome>): seq<Block> {
    seq(|os|, i requires 0 <= i < |os| => ToolResult(os[i].id, Truncate(os[i].content), os[i].isError))
  }

  lemma {:induction false} AttachSnoc(ms: seq<Message>, blocks: seq<Block>, r: Block)
    requires r.ToolResult?
    ensures AttachResults(ms, blocks + [r]) == AttachResult(AttachResults(ms, blocks), r)
    decreases blocks
  {
    if blocks == [] {
      assert [] + [r] == [r] && [r][1..] == [];
    } else {
      assert (blocks + [r])[1..] == blocks[1..] + [r];
      AttachSnoc(if blocks[0].ToolResult? then AttachResult(ms, blocks[0]) else ms, blocks[1..], r);
    }
  }

  lemma {:induction false} OutcomesClean(os: seq<Outcome>, raw: seq<RawBlock>)
    requires |raw| == |os|
    requires forall k :: 0 <= k < |os| ==> raw[k] == RawToolResult(os[k].id, os[k].content, os[k].isError)
    ensures Cleaned(raw) == ResultBlocks(os) && TaskBlocks(raw) == [] && WithoutResults(ResultBlocks(os)) == []
  {
    if os != [] {
      OutcomesClean(os[1..], raw[1..]);
      assert ResultBlocks(os) == [ResultBlocks(os)[0]] + ResultBlocks(os[1..]);
      assert ResultBlocks(os)[1..] == ResultBlocks(os[1..]);
      assert CleanedOne(raw[0]) == [ResultBlocks(os)[0]];
    }
  }

  lemma OneMoreOutcome(l: Live, read: seq<Message>, os: seq<Outcome>, sid: Option<string>, ids: nat -> string)
    requires os != []
    ensures var init, o := os[..|os| - 1], os[|os| - 1];
      && TellAll(l, DispatchUser(false, sid, Results(os)), ids) ==
           Tell(TellAll(l, DispatchUser(false, sid, Results(init)), ids), ToolDone(sid, o.id, o.content, o.isError),
                ids)
      && AttachResults(read, ResultBlocks(os)) ==
           AttachResult(AttachResults(read, ResultBlocks(init)), ToolResult(o.id, Truncate(o.content), o.isError))
  {
    hide Tell, AttachResult, AttachResults, Truncate, TellAll;
    var init, o := os[..|os| - 1], os[|os| - 1];
    assert ResultBlocks(os) == ResultBlocks(init) + [ToolResult(o.id, Truncate(o.content), o.isError)];
    AttachSnoc(read, ResultBlocks(init), ToolResult(o.id, Truncate(o.content), o.isError));
    assert Results(os)[..|os| - 1] == Results(init);
    TellAllSnoc(l, DispatchUser(false, sid, Results(init)), ToolDone(sid, o.id, o.content, o.isError), ids);
  }

  lemma NoOutcome(l: Live, read: seq<Message>, sid: Option<string>, ids: nat -> string)
    ensures TellAll(l, DispatchUser(false, sid, Results([])), ids) == l && AttachResults(read, ResultBlocks([])) == read
  {
  }

  lemma {:induction false} OutcomesSim(l: Live, read: seq<Message>, used: seq<string>, os: seq<Outcome>,
                                       sid: Option<string>, ids: nat -> string)
    requires Sim(l, read, sid, ids) && InTurn(l, read) && UniqueTools(read, used)
    ensures var l' := TellAll(l, DispatchUser(false, sid, Results(os)), ids);
            var read' := AttachResults(read, ResultBlocks(os));
            Sim(l', read', sid, ids) && InTurn(l', read') && UniqueTools(read', used)
            && l'.chat.current == l.chat.current
  {
    hide Sim, InTurn, UniqueTools, Tell, TellAll, AttachResult, AttachResults, Truncate, DispatchUser, Results,
         ResultBlocks;
    if os == [] {
      NoOutcome(l, read, sid, ids);
    } else {
      var init, o := os[..|os| - 1], os[|os| - 1];
      OutcomesSim(l, read, used, init, sid, ids);
      OneMoreOutcome(l, read, os, sid, ids);
      var mid := TellAll(l, DispatchUser(false, sid, Results(init)), ids);
      ResultSim(mid, o, AttachResults(read, ResultBlocks(init)), used, sid, ids);
      ResultKeepsCurrent(mid, o, AttachResults(read, ResultBlocks(init)), sid, ids);
    }
  }

  lemma ResultKeepsCurrent(l: Live, o: Outcome, read: seq<Message>, sid: Option<string>, ids: nat -> string)
    requires Sim(l, read, sid, ids)
    ensures Tell(l, ToolDone(sid, o.id, o.content, o.isError), ids).chat.current == l.chat.current
  {
    ResultIsStored(l, o, sid, ids);
  }

  // ----- task events -----

  function TaskBlocksFor(events: seq<TaskEvent>): seq<Block> {
    seq(|events|, i requires 0 <= i < |events| => Task(events[i]))
  }

  /** Task events extend the open bubble on both sides. */
  lemma {:induction false} TicksSim(l: Live, read: seq<Message>, used: seq<string>, uuid: string,
                                    events: seq<TaskEvent>, sid: Option<string>, ids: nat -> string)
    requires Injective(ids) && Sim(l, read, sid, ids) && InTurn(l, read) && UniqueTools(read, used)
    ensures var l', read' := TellAll(l, Ticks(sid, events), ids), AppendEach(read, uuid, TaskBlocksFor(events));
            Sim(l', read', sid, ids) && InTurn(l', read') && UniqueTools(read', used)
  {
    hide Sim, InTurn, UniqueTools, Append, Tell, Injective;
    if events != [] {
      var init, e := events[..|events| - 1], events[|events| - 1];
      TicksSim(l, read, used, uuid, init, sid, ids);
      assert Ticks(sid, events)[..|events| - 1] == Ticks(sid, init);
      assert TaskBlocksFor(events)[..|events| - 1] == TaskBlocksFor(init);
      var mid := AppendEach(read, uuid, TaskBlocksFor(init));
      BlockSim(TellAll(l, Ticks(sid, init), ids), TaskTick(sid, e), Task(e), mid, uuid, sid, ids);
      AppendKeepsUnique(mid, uuid, Task(e), used);
    }
  }

  lemma TickedReads(read: seq<Message>, uuid: string, text: RawText)
    requires text.visible == "" && read != [] && read[|read| - 1].role == Assistant
    ensures FoldEntry(read, EntryOf(Ticked(uuid, text))) == AppendEach(read, uuid, TaskBlocksFor(text.events))
  {
    var block, tasks := RawTextBlock(text), TaskBlocksFor(text.events);
    assert [block][1..] == [];
    assert TaskBlocks([block]) == tasks by { assert TaskBlocksOf(block) == tasks; }
    assert Cleaned([block]) == [] by { assert CleanedOne(block) == []; }
    if tasks != [] { AppendAtOnce(read, uuid, tasks); }
  }

  // ----- items of a turn -----

  lemma ItemSim(l: Live, read: seq<Message>, used: seq<string>, stream: bool, item: Item, sid: Option<string>,
                ids: nat -> string)
    requires Injective(ids) && Sim(l, read, sid, ids) && InTurn(l, read) && UniqueTools(read, used)
    requires GoodItem(item) && Distinct(used + ToolIdsOfItem(item)) && (item.Ticked? ==> l.chat.current.Some?)
    ensures var l' := TellAll(l, DispatchAll(stream, false, sid, SdkOfItem(item)), ids);
            var read' := FoldEntry(read, EntryOf(item));
            && Sim(l', read', sid, ids) && InTurn(l', read')
            && UniqueTools(read', used + ToolIdsOfItem(item))
            && (l.chat.current.Some? || (item.Said? && item.pieces != []) ==> l'.chat.current.Some?)
  {
    hide Sim, UniqueTools, Injective, DispatchAll, SdkOfPieces, TellAll, DispatchUser, FoldEntry, Distinct, GoodPiece,
         Converted, Cleaned, TaskBlocks, AttachResults, ToolIdsOfPieces, RawOf, Ticks;
    match item
    case Said(uuid, pieces) =>
      PiecesSim(l, read, used, uuid, stream, pieces, sid, ids);
      SaidReadsAsPieces(read, uuid, pieces);
      EachOpens(read, uuid, Wholes(pieces));
    case Got(uuid, outcomes) =>
      OneDispatched(stream, sid, UserGot(Results(outcomes)));
      GotReads(read, uuid, outcomes);
      OutcomesSim(l, read, used, outcomes, sid, ids);
      assert used + [] == used;
    case Ticked(uuid, text) =>
      OneDispatched(stream, sid, UserGot([GotText(text.events)]));
      OneText(sid, text.events);
      TickedReads(read, uuid, text);
      TicksSim(l, read, used, uuid, text.events, sid, ids);
      EachOpens(read, uuid, TaskBlocksFor(text.events));
      assert used + [] == used;
  }

  lemma OneText(sid: Option<string>, events: seq<TaskEvent>)
    ensures DispatchUser(false, sid, [GotText(events)]) == Ticks(sid, events)
  {
    assert [GotText(events)][..0] == [];
  }

  lemma GotReads(read: seq<Message>, uuid: string, os: seq<Outcome>)
    ensures FoldEntry(read, EntryOf(Got(uuid, os))) == AttachResults(read, ResultBlocks(os))
  {
    hide AttachResults, Cleaned, TaskBlocks, WithoutResults;
    OutcomesClean(os, RawBlocks(EntryOf(Got(uuid, os)).body));
  }

  lemma {:induction false} EachOpens(read: seq<Message>, uuid: string, blocks: seq<Block>)
    ensures var read' := AppendEach(read, uuid, blocks);
      blocks != [] || (read != [] && read[|read| - 1].role == Assistant) ==>
        read' != [] && read'[|read'| - 1].role == Assistant
  {
  }

  lemma {:induction false} ItemsSim(l: Live, read: seq<Message>, used: seq<string>, stream: bool, items: seq<Item>,
                                    sid: Option<string>, ids: nat -> string)
    requires Injective(ids) && Sim(l, read, sid, ids) && InTurn(l, read) && UniqueTools(read, used)
    requires (forall i :: i in items ==> GoodItem(i)) && TicksFollow(items) && Distinct(used + ToolIdsOfItems(items))
    ensures var l' := TellAll(l, DispatchAll(stream, false, sid, SdkOfItems(items)), ids);
            var read' := ReadItems(read, items);
            && Sim(l', read', sid, ids) && InTurn(l', read')
            && UniqueTools(read', used + ToolIdsOfItems(items))
            && (HasSpoken(items) ==> l'.chat.current.Some?)
  {
    hide Sim, InTurn, UniqueTools, Injective, DispatchAll, SdkOfItem, FoldEntry, Distinct, GoodItem, ToolIdsOfItem,
         TellAll, EntryOf;
    if items == [] {
      assert used + [] == used;
      NothingSent(l, stream, sid, ids);
    } else {
      var init, item := items[..|items| - 1], items[|items| - 1];
      var before := used + ToolIdsOfItems(init);
      assert used + ToolIdsOfItems(items) == before + ToolIdsOfItem(item);
      DistinctPrefix(before, ToolIdsOfItem(item));
      ItemsSim(l, read, used, stream, init, sid, ids);
      SpokenByItem(items);
      var mid := TellAll(l, DispatchAll(stream, false, sid, SdkOfItems(init)), ids);
      ItemSim(mid, ReadItems(read, init), before, stream, item, sid, ids);
      SentOneAfterAnother(l, stream, sid, SdkOfItems(init), SdkOfItem(item), ids);
    }
  }

  lemma SpokenByItem(items: seq<Item>)
    requires items != []
    ensures var init, item := items[..|items| - 1], items[|items| - 1];
      HasSpoken(items) ==> HasSpoken(init) || (item.Said? && item.pieces != [])
  {
    if HasSpoken(items) {
      var k :| 0 <= k < |items| && items[k].Said? && items[k].pieces != [];
      assert k < |items| - 1 ==> items[..|items| - 1][k] == items[k];
    }
  }

  // ----- turns -----

  lemma PromptReads(read: seq<Message>, t: Turn)
    requires HasPrompt(t) && t.sent.visible != "" && t.sent.events == []
    ensures FoldEntry(read, PromptEntry(t)) == read + [Message(t.uuid, User, [Text(t.sent.visible)], true)]
  {
    var text := t.sent.visible;
    var block := RawTextBlock(t.sent);
    assert RawBlocks(PromptEntry(t).body) == [block];
    assert [block][1..] == [];
    assert Cleaned([block]) == [Text(text)] by { assert CleanedOne(block) == [Text(text)]; }
    assert TaskBlocks([block]) == [] by { assert TaskBlocksOf(block) == []; }
    assert [Text(text)][1..] == [];
    assert AttachResults(read, [Text(text)]) == read;
    assert WithoutResults([Text(text)]) == [Text(text)];
  }

  lemma UserMessageKeepsUnique(read: seq<Message>, m: Message, used: seq<string>)
    requires UniqueTools(read, used) && forall b :: b in m.blocks ==> !b.Tool?
    ensures UniqueTools(read + [m], used)
  {
    var read' := read + [m];
    assert forall i, p, id :: ToolAt(read', i, p, id) ==> ToolAt(read, i, p, id);
  }

  /** The prompt starts a new message on both sides. */
  lemma PromptSim(l: Live, read: seq<Message>, t: Turn, sid: Option<string>, ids: nat -> string)
    requires Sim(l, read, sid, ids) && l.chat.current.None? && t.Asked? && t.prompt != ""
    ensures var l' := Live(Prompted(l.chat, t.prompt, [], ids(l.drawn)), l.drawn + 1);
            var read' := read + [Message(t.uuid, User, [Text(t.prompt)], true)];
            Sim(l', read', sid, ids) && InTurn(l', read')
  {
    var l' := Live(Prompted(l.chat, t.prompt, [], ids(l.drawn)), l.drawn + 1);
    var read' := read + [Message(t.uuid, User, [Text(t.prompt)], true)];
    assert [Text(t.prompt)] + [] == [Text(t.prompt)];
    assert l'.chat.messages == l.chat.messages + [Message(ids(l.drawn), User, [Text(t.prompt)], true)];
    assert Coalesce([Text(t.prompt)]) == [Text(t.prompt)] by { assert [Text(t.prompt)][..0] == []; }
    assert AllShort([Text(t.prompt)]) == [Text(t.prompt)];
    forall k | 0 <= k < |read'| ensures Alike(l'.chat.messages[k], read'[k]) {
      if k < |read| { assert Alike(l.chat.messages[k], read[k]); }
    }
    forall m | m in l'.chat.messages ensures exists k: nat :: k < l'.drawn && m.id == ids(k) {
      if m !in l.chat.messages { assert m.id == ids(l.drawn); }
    }
  }

  /** The turn's result closes the bubble. */
  lemma ResultClosesBubble(l: Live, read: seq<Message>, sid: Option<string>, ids: nat -> string)
    requires Sim(l, read, sid, ids)
    ensures Sim(Tell(l, TurnResult(sid), ids), read, sid, ids)
    ensures Tell(l, TurnResult(sid), ids).chat.current.None?
  {
    hide Coalesce, AllShort;
    var l' := Tell(l, TurnResult(sid), ids);
    forall k | 0 <= k < |read| ensures Alike(l'.chat.messages[k], read[k]) {
      assert Alike(l.chat.messages[k], read[k]);
    }
    forall m | m in l'.chat.messages ensures m.finished && exists k: nat :: k < l'.drawn && m.id == ids(k) {
      var k :| 0 <= k < |l.chat.messages| && m == l'.chat.messages[k];
      assert l.chat.messages[k] in l.chat.messages;
    }
  }

  lemma TurnSim(l: Live, read: seq<Message>, used: seq<string>, t: Turn, upkeep: string, sid: Option<string>,
                ids: nat -> string)
    requires Injective(ids) && Sim(l, read, sid, ids) && l.chat.current.None? && UniqueTools(read, used)
    requires GoodTurn(t, upkeep) && Echoed(t) && Distinct(used + ToolIdsOfItems(t.items))
    ensures var l', read' := TellAll(Echo(l, t, ids), SentOf(sid, t), ids), ReadTurn(read, t);
            && Sim(l', read', sid, ids) && l'.chat.current.None?
            && UniqueTools(read', used + ToolIdsOfItems(t.items))
  {
    hide Sim, InTurn, UniqueTools, Prompted, FoldEntry, Distinct, Injective, ReadItems, SdkOfItems, Tell, TellAll,
         DispatchAll, PromptEntry, TicksFollow, GoodItem;
    var prompted := Echo(l, t, ids);
    var asked := read + [Message(t.uuid, User, [Text(t.prompt)], true)];
    PromptReads(read, t);
    PromptSim(l, read, t, sid, ids);
    UserMessageKeepsUnique(read, Message(t.uuid, User, [Text(t.prompt)], true), used);
    ItemsSim(prompted, asked, used, t.stream, t.items, sid, ids);
    var told := TellAll(prompted, DispatchAll(t.stream, false, sid, SdkOfItems(t.items)), ids);
    SentOneAfterAnother(prompted, t.stream, sid, SdkOfItems(t.items), [Finished], ids);
    OneDispatched(t.stream, sid, Finished);
    OneTold(told, TurnResult(sid), ids);
    ResultClosesBubble(told, ReadItems(asked, t.items), sid, ids);
  }

  lemma OneTold(l: Live, e: Event, ids: nat -> string)
    ensures TellAll(l, [e], ids) == Tell(l, e, ids)
  {
    assert [e][..0] == [];
  }

  /** Turns that were asked and whose prompts read back as echoed. */
  lemma {:induction false} TurnsSim(turns: seq<Turn>, upkeep: string, sid: Option<string>, ids: nat -> string)
    requires Injective(ids) && GoodTurns(turns, upkeep) && forall t :: t in turns ==> Echoed(t)
    ensures Sim(OnScreen(sid, turns, ids), ReadTurns(turns), sid, ids)
    ensures UniqueTools(ReadTurns(turns), ToolIds(turns))
    ensures OnScreen(sid, turns, ids).chat.current.None?
  {
    hide GoodTurn, GoodItem, ReadTurn, SentOf, TellAll, Echo, ToolIdsOfItems;
    if turns != [] {
      var init, t := turns[..|turns| - 1], turns[|turns| - 1];
      assert t in turns;
      DistinctPrefix(ToolIds(init), ToolIdsOfItems(ItemsOf(t)));
      TurnsSim(init, upkeep, sid, ids);
      TurnSim(OnScreen(sid, init, ids), ReadTurns(init), ToolIds(init), t, upkeep, sid, ids);
    }
  }
}
