/** The uploads store (frontend/src/stores/uploads.ts): items move from the queue through
    `current`, possibly through `conflict`, to an outcome, and batches of them are counted. */
module Uploads {
  import opened Wrappers

  datatype Item = Item(id: string, workerId: string, projectPath: string, dirPath: string, filename: string,
      sizeBytes: nat)

  datatype Summary = Summary(uploaded: nat, renamed: nat, skipped: nat, failed: nat, failedNames: seq<string>)

  const NONE := Summary(0, 0, 0, 0, [])

  datatype State = State(
    queue: seq<Item>, current: Option<Item>, conflict: Option<Item>, progress: Option<real>,
    batch: Summary, lastCompleted: Option<Summary>, uploadedTick: nat)

  const INITIAL := State([], None, None, None, NONE, None, 0)

  predicate Idle(s: State) { s.current == None && s.conflict == None && s.queue == [] }

  // ----- actions -----

  function Enqueue(s: State, items: seq<Item>): State {
    s.(queue := s.queue + items,
       batch := if Idle(s) then NONE else s.batch,
       lastCompleted := if Idle(s) then None else s.lastCompleted)
  }

  function TakeNext(s: State): State {
    if s.current.Some? || s.conflict.Some? || s.queue == [] then s
    else s.(queue := s.queue[1..], current := Some(s.queue[0]), progress := Some(0.0))
  }

  function MarkUploaded(s: State, renamed: bool): State {
    var next := s.batch.(uploaded := s.batch.uploaded + 1, renamed := s.batch.renamed + if renamed then 1 else 0);
    var drained := s.queue == [] && s.conflict == None;
    s.(current := None, progress := None, batch := if drained then NONE else next,
       lastCompleted := if drained then Some(next) else s.lastCompleted, uploadedTick := s.uploadedTick + 1)
  }

  function MarkConflict(s: State): State {
    if s.current == None then s else s.(current := None, conflict := s.current, progress := None)
  }

  function MarkFailed(s: State): State {
    var name := if s.current.Some? then s.current.value.filename else "unknown";
    var next := s.batch.(failed := s.batch.failed + 1, failedNames := s.batch.failedNames + [name]);
    var drained := s.queue == [] && s.conflict == None;
    s.(current := None, progress := None, batch := if drained then NONE else next,
       lastCompleted := if drained then Some(next) else s.lastCompleted)
  }

  function ResumeConflict(s: State): State {
    if s.conflict == None then s else s.(conflict := None, current := s.conflict, progress := Some(0.0))
  }

  function SkipConflict(s: State): State {
    if s.conflict == None then s
    else
      var next := s.batch.(skipped := s.batch.skipped + 1);
      s.(conflict := None, batch := if s.queue == [] then NONE else next,
         lastCompleted := if s.queue == [] then Some(next) else s.lastCompleted)
  }

  function CancelQueued(s: State): State { s.(queue := [], conflict := None) }

  datatype Step =
    | DoEnqueue(items: seq<Item>)
    | DoTakeNext
    | DoSetProgress(p: Option<real>)
    | DoMarkUploaded(renamed: bool)
    | DoMarkConflict
    | DoMarkFailed
    | DoResumeConflict
    | DoSkipConflict
    | DoCancelQueued
    | DoClearLastCompleted

  function Do(s: State, step: Step): State {
    match step
    case DoEnqueue(items) => Enqueue(s, items)
    case DoTakeNext => TakeNext(s)
    case DoSetProgress(p) => s.(progress := p)
    case DoMarkUploaded(renamed) => MarkUploaded(s, renamed)
    case DoMarkConflict => MarkConflict(s)
    case DoMarkFailed => MarkFailed(s)
    case DoResumeConflict => ResumeConflict(s)
    case DoSkipConflict => SkipConflict(s)
    case DoCancelQueued => CancelQueued(s)
    case DoClearLastCompleted => s.(lastCompleted := None)
  }

  function Final(run: seq<Step>): State {
    if run == [] then INITIAL else Do(Final(run[..|run| - 1]), run[|run| - 1])
  }

  /** The pump reports on an item only while it is in flight. */
  ghost predicate Reported(run: seq<Step>) {
    run != [] ==>
      && Reported(run[..|run| - 1])
      && (Marks(run[|run| - 1]) ==> Final(run[..|run| - 1]).current.Some?)
  }

  predicate Marks(step: Step) { step.DoMarkUploaded? || step.DoMarkFailed? }

  /** Never both in flight and in conflict, whatever is called. */
  lemma {:induction false} OneAtATime(run: seq<Step>)
    ensures Final(run).current == None || Final(run).conflict == None
  {
    if run != [] { OneAtATime(run[..|run| - 1]); }
  }

  // ----- where every item is -----

  /** What happened to the items, by what was called in which state. */
  datatype Ledger = Ledger(
    enqueued: seq<Item>, started: seq<Item>, uploaded: seq<Item>, failed: seq<Item>, skipped: seq<Item>,
    cancelled: seq<Item>)

  const BLANK := Ledger([], [], [], [], [], [])

  function Of(item: Option<Item>): seq<Item> { if item.Some? then [item.value] else [] }

  function Held(s: State): seq<Item> { s.queue + Of(s.current) + Of(s.conflict) }

  function Book(l: Ledger, s: State, step: Step): Ledger {
    match step
    case DoEnqueue(items) => l.(enqueued := l.enqueued + items)
    case DoTakeNext =>
      if s.current == None && s.conflict == None && s.queue != [] then l.(started := l.started + [s.queue[0]]) else l
    case DoMarkUploaded(_) => l.(uploaded := l.uploaded + Of(s.current))
    case DoMarkFailed => l.(failed := l.failed + Of(s.current))
    case DoSkipConflict => l.(skipped := l.skipped + Of(s.conflict))
    case DoCancelQueued => l.(cancelled := l.cancelled + s.queue + Of(s.conflict))
    case _ => l
  }

  function Books(run: seq<Step>): Ledger {
    if run == [] then BLANK
    else Book(Books(run[..|run| - 1]), Final(run[..|run| - 1]), run[|run| - 1])
  }

  /** How often `x` occurs. */
  function Times(a: seq<Item>, x: Item): nat { multiset(a)[x] }

  predicate Conserved(l: Ledger, s: State, x: Item) {
    Times(l.enqueued, x) ==
      Times(l.uploaded, x) + Times(l.failed, x) + Times(l.skipped, x) + Times(l.cancelled, x)
      + Times(s.queue, x) + Times(Of(s.current), x) + Times(Of(s.conflict), x)
  }

  lemma TimesAppend(a: seq<Item>, b: seq<Item>, x: Item)
    ensures Times(a + b, x) == Times(a, x) + Times(b, x)
  {
  }

  lemma TimesNone(x: Item)
    ensures Times([], x) == 0
  {
  }

  lemma StepConserves(l: Ledger, s: State, step: Step, x: Item)
    requires Conserved(l, s, x) && (s.current == None || s.conflict == None)
    ensures Conserved(Book(l, s, step), Do(s, step), x)
  {
    hide Times;
    TimesNone(x);
    match step
    case DoEnqueue(items) =>
      TimesAppend(l.enqueued, items, x);
      TimesAppend(s.queue, items, x);
    case DoTakeNext =>
      if s.queue != [] {
        assert s.queue == [s.queue[0]] + s.queue[1..];
        TimesAppend([s.queue[0]], s.queue[1..], x);
      }
    case DoMarkUploaded(_) => TimesAppend(l.uploaded, Of(s.current), x);
    case DoMarkFailed => TimesAppend(l.failed, Of(s.current), x);
    case DoSkipConflict => TimesAppend(l.skipped, Of(s.conflict), x);
    case DoCancelQueued =>
      TimesAppend(l.cancelled, s.queue, x);
      TimesAppend(l.cancelled + s.queue, Of(s.conflict), x);
    case _ =>
  }

  /** Every item is, as often as it was enqueued, either held or has exactly one outcome. */
  lemma {:induction false} NothingIsLost(run: seq<Step>, x: Item)
    ensures Conserved(Books(run), Final(run), x)
  {
    hide Do, Book, Conserved;
    if run == [] {
      NothingYet(x);
    } else {
      NothingIsLost(run[..|run| - 1], x);
      OneAtATime(run[..|run| - 1]);
      StepConserves(Books(run[..|run| - 1]), Final(run[..|run| - 1]), run[|run| - 1], x);
    }
  }

  lemma NothingYet(x: Item)
    ensures Conserved(BLANK, INITIAL, x)
  {
  }

  // ----- order -----

  /** `a` is `b` with some elements left out. */
  predicate Subsequence(a: seq<Item>, b: seq<Item>) {
    || a == []
    || (b != []
        && (|| Subsequence(a, b[..|b| - 1])
            || (a[|a| - 1] == b[|b| - 1] && Subsequence(a[..|a| - 1], b[..|b| - 1]))))
  }

  lemma {:induction false} SubsequenceAppend(a: seq<Item>, b: seq<Item>, c: seq<Item>)
    requires Subsequence(a, b)
    ensures Subsequence(a + c, b + c)
  {
    if c == [] {
      assert a + c == a && b + c == b;
    } else {
      SubsequenceAppend(a, b, c[..|c| - 1]);
      assert (a + c)[..|a + c| - 1] == a + c[..|c| - 1] && (b + c)[..|b + c| - 1] == b + c[..|c| - 1];
    }
  }

  lemma {:induction false} SubsequencePrefix(a: seq<Item>, b: seq<Item>, n: nat)
    requires Subsequence(a, b) && n <= |a|
    ensures Subsequence(a[..n], b)
    decreases |b|
  {
    if n == |a| {
      assert a[..n] == a;
    } else if Subsequence(a, b[..|b| - 1]) {
      SubsequencePrefix(a, b[..|b| - 1], n);
    } else {
      SubsequencePrefix(a[..|a| - 1], b[..|b| - 1], n);
      assert a[..|a| - 1][..n] == a[..n];
    }
  }

  /** Items start in the order they were enqueued, each once; none is passed over as long as
      nothing is cancelled. */
  lemma {:induction false} StartsInOrder(run: seq<Step>)
    ensures Subsequence(Books(run).started + Final(run).queue, Books(run).enqueued)
    ensures Books(run).cancelled == [] ==> Books(run).started + Final(run).queue == Books(run).enqueued
  {
    if run != [] {
      var init := run[..|run| - 1];
      StartsInOrder(init);
      OrderByStep(Books(init), Final(init), run[|run| - 1]);
    }
  }

  lemma OrderByStep(l: Ledger, s: State, step: Step)
    requires Subsequence(l.started + s.queue, l.enqueued)
    requires l.cancelled == [] ==> l.started + s.queue == l.enqueued
    ensures var m := Book(l, s, step);
      && Subsequence(m.started + Do(s, step).queue, m.enqueued)
      && (m.cancelled == [] ==> m.started + Do(s, step).queue == m.enqueued)
  {
    hide Subsequence, Of;
    match step
    case DoEnqueue(items) =>
      SubsequenceAppend(l.started + s.queue, l.enqueued, items);
      assert (l.started + s.queue) + items == l.started + (s.queue + items);
    case DoTakeNext =>
      if s.queue != [] { assert l.started + [s.queue[0]] + s.queue[1..] == l.started + s.queue; }
    case DoCancelQueued =>
      SubsequencePrefix(l.started + s.queue, l.enqueued, |l.started|);
      assert (l.started + s.queue)[..|l.started|] == l.started == l.started + [];
      assert l.cancelled + s.queue + Of(s.conflict) == [] ==> s.queue == [] && l.cancelled == [];
    case _ =>
  }

  // ----- batches -----

  /** A batch as it should be counted: how many items came in and were cancelled, and the
      outcomes. */
  datatype Tally = Tally(enqueued: nat, cancelled: nat, outcomes: Summary)

  const FRESH := Tally(0, 0, NONE)

  function Count(t: Tally, s: State, step: Step): Tally {
    var o := t.outcomes;
    match step
    case DoEnqueue(items) => t.(enqueued := t.enqueued + |items|)
    case DoMarkUploaded(renamed) =>
      t.(outcomes := o.(uploaded := o.uploaded + 1, renamed := o.renamed + if renamed then 1 else 0))
    case DoMarkFailed =>
      if s.current == None then t
      else t.(outcomes := o.(failed := o.failed + 1, failedNames := o.failedNames + [s.current.value.filename]))
    case DoSkipConflict => if s.conflict == None then t else t.(outcomes := o.(skipped := o.skipped + 1))
    case DoCancelQueued => t.(cancelled := t.cancelled + |s.queue| + |Of(s.conflict)|)
    case _ => t
  }

  /** What happened since the store last held nothing. */
  function OwnCounts(run: seq<Step>): Tally {
    if run == [] then FRESH
    else
      var s := Final(run[..|run| - 1]);
      Count(if Idle(s) then FRESH else OwnCounts(run[..|run| - 1]), s, run[|run| - 1])
  }

  /** The store's batch is the running batch's, and every item of it is accounted for. */
  ghost predicate Exact(t: Tally, s: State) {
    && (s.current == None || s.conflict == None)
    && (!Idle(s) ==> s.batch == t.outcomes)
    && t.enqueued == t.outcomes.uploaded + t.outcomes.failed + t.outcomes.skipped + t.cancelled + |Held(s)|
    && t.outcomes.renamed <= t.outcomes.uploaded && |t.outcomes.failedNames| == t.outcomes.failed
  }

  /** Ends the batch with an outcome, so that a summary is due. */
  predicate Drains(s: State, step: Step) {
    !Idle(s) && Idle(Do(s, step)) && (Marks(step) || step.DoSkipConflict?)
  }

  lemma CountIsExact(t: Tally, s: State, step: Step)
    requires Exact(t, s) && (Idle(s) ==> t == FRESH) && (Marks(step) ==> s.current.Some?)
    ensures Exact(Count(t, s, step), Do(s, step))
    ensures Drains(s, step) ==> Do(s, step).lastCompleted == Some(Count(t, s, step).outcomes)
  {
  }

  lemma {:induction false} OwnCountsAreExact(run: seq<Step>)
    requires Reported(run)
    ensures Exact(OwnCounts(run), Final(run))
  {
    hide Do, Count, Exact;
    if run == [] {
      FreshIsExact(INITIAL);
    } else {
      var s := Final(run[..|run| - 1]);
      OwnCountsAreExact(run[..|run| - 1]);
      if Idle(s) { FreshIsExact(s); }
      CountIsExact(if Idle(s) then FRESH else OwnCounts(run[..|run| - 1]), s, run[|run| - 1]);
    }
  }

  lemma FreshIsExact(s: State)
    requires Idle(s)
    ensures Exact(FRESH, s)
  {
  }

  /** The batch in progress counts exactly what happened since the store last held nothing;
      what came in is uploaded, failed, skipped, cancelled or still held. */
  lemma BatchAccountsForItsItems(run: seq<Step>)
    requires Reported(run)
    ensures var t := OwnCounts(run); var o := t.outcomes;
      && (!Idle(Final(run)) ==> Final(run).batch == o)
      && t.enqueued == o.uploaded + o.failed + o.skipped + t.cancelled + |Held(Final(run))|
      && o.renamed <= o.uploaded && |o.failedNames| == o.failed
  {
    hide Final, OwnCounts, Held;
    OwnCountsAreExact(run);
  }

  /** A batch that a mark or a skip drains reports exactly its own counts, and they add up to
      what was put in and not cancelled. */
  lemma DrainedBatchReportsItself(run: seq<Step>)
    requires run != [] && Reported(run) && Drains(Final(run[..|run| - 1]), run[|run| - 1])
    ensures var t := OwnCounts(run); var o := t.outcomes;
      && Final(run).lastCompleted == Some(o)
      && o.uploaded + o.failed + o.skipped == t.enqueued - t.cancelled
  {
    hide Do, Count;
    var s := Final(run[..|run| - 1]);
    OwnCountsAreExact(run[..|run| - 1]);
    CountIsExact(OwnCounts(run[..|run| - 1]), s, run[|run| - 1]);
  }

  /** A mark keeps the books exactly when an item is in flight. */
  lemma MarkIsExactIff(t: Tally, s: State, step: Step)
    requires Exact(t, s) && (Idle(s) ==> t == FRESH) && Marks(step)
    ensures Exact(t.(outcomes := MarkedBatch(s, step)), Do(s, step)) <==> s.current.Some?
  {
  }

  /** A mark out of the blue reports a finished batch of an upload that nobody asked for. */
  lemma StrayMarkReportsABatch()
    ensures var run := [DoMarkUploaded(false)];
      Books(run).enqueued == [] && Final(run).lastCompleted == Some(Summary(1, 0, 0, 0, []))
    ensures Final([DoMarkFailed]).lastCompleted == Some(Summary(0, 0, 0, 1, ["unknown"]))
  {
    assert [DoMarkUploaded(false)][..0] == [];
    assert Final([DoMarkFailed]) == Do(INITIAL, DoMarkFailed) by { assert [DoMarkFailed][..0] == []; }
    assert [] + ["unknown"] == ["unknown"];
  }

  lemma {:induction false} NoSummaryDuringABatch(run: seq<Step>)
    requires Reported(run) && !Idle(Final(run))
    ensures Final(run).lastCompleted == None
  {
    if run != [] {
      var init := run[..|run| - 1];
      OneAtATime(init);
      if !Idle(Final(init)) { NoSummaryDuringABatch(init); }
    }
  }

  /** A batch that ends is reported, with its own counts, exactly if its last item was not
      cancelled; the outcomes of a cancelled one are never shown, and the next batch starts
      without them. */
  lemma EndedBatchIsReportedIff(run: seq<Step>)
    requires run != [] && Reported(run) && !Idle(Final(run[..|run| - 1])) && Idle(Final(run))
    ensures var s, o := Final(run), OwnCounts(run).outcomes;
      && (s.lastCompleted == Some(o) <==> run[|run| - 1] != DoCancelQueued)
      && (run[|run| - 1] == DoCancelQueued ==>
            && s.lastCompleted == None
            && forall items :: Enqueue(s, items).batch == NONE && Enqueue(s, items).lastCompleted == None)
  {
    hide Count, OwnCounts;
    var s := Final(run[..|run| - 1]);
    NoSummaryDuringABatch(run[..|run| - 1]);
    OneAtATime(run[..|run| - 1]);
    if Drains(s, run[|run| - 1]) { DrainedBatchReportsItself(run); }
    assert Marks(run[|run| - 1]) || run[|run| - 1].DoSkipConflict? || run[|run| - 1] == DoCancelQueued;
  }

  /** The summary on show: that of the last batch that ended with an outcome, unless it was
      dismissed or a new batch began since. */
  function Awaiting(run: seq<Step>): Option<Summary> {
    if run == [] then None
    else
      var s, last := Final(run[..|run| - 1]), run[|run| - 1];
      if last.DoClearLastCompleted? || (last.DoEnqueue? && Idle(s)) then None
      else if Drains(s, last) then Some(OwnCounts(run).outcomes)
      else Awaiting(run[..|run| - 1])
  }

  lemma SummaryByStep(s: State, step: Step)
    requires (s.current == None || s.conflict == None) && (Marks(step) ==> s.current.Some?) && !Drains(s, step)
    ensures Do(s, step).lastCompleted ==
            if step.DoClearLastCompleted? || (step.DoEnqueue? && Idle(s)) then None else s.lastCompleted
  {
  }

  lemma {:induction false} SummaryFollows(run: seq<Step>)
    requires Reported(run)
    ensures Final(run).lastCompleted == Awaiting(run)
  {
    hide Do, OwnCounts, Idle, Drains;
    if run != [] {
      var s, last := Final(run[..|run| - 1]), run[|run| - 1];
      SummaryFollows(run[..|run| - 1]);
      OneAtATime(run[..|run| - 1]);
      if Drains(s, last) {
        DrainedBatchReportsItself(run);
        DrainIsNoEnqueue(s, last);
      } else {
        SummaryByStep(s, last);
      }
    }
  }

  lemma DrainIsNoEnqueue(s: State, step: Step)
    requires Drains(s, step)
    ensures !step.DoClearLastCompleted? && !step.DoEnqueue?
  {
  }

  // ----- progress -----

  /** Progress is told of an item in flight only. */
  ghost predicate Measured(run: seq<Step>) {
    run != [] ==>
      && Measured(run[..|run| - 1])
      && (run[|run| - 1].DoSetProgress? ==> run[|run| - 1].p.Some? && Final(run[..|run| - 1]).current.Some?)
  }

  /** What was last told of the item in flight; it starts at nothing. */
  function Told(run: seq<Step>): Option<real> {
    if run == [] || Final(run).current == None then None
    else if run[|run| - 1].DoSetProgress? then run[|run| - 1].p
    else if Final(run[..|run| - 1]).current == None then Some(0.0)
    else Told(run[..|run| - 1])
  }

  lemma ProgressByStep(s: State, step: Step)
    requires (s.current == None || s.conflict == None) && (s.current == None ==> s.progress == None)
    requires step.DoSetProgress? ==> s.current.Some?
    ensures var t := Do(s, step);
      t.progress == if t.current == None then None
                    else if step.DoSetProgress? then step.p
                    else if s.current == None then Some(0.0)
                    else s.progress
  {
  }

  /** Over all runs: the bar shows what was last told of the item in flight, is empty again for
      every item that goes in flight, and is there exactly while one is. */
  lemma {:induction false} ProgressFollows(run: seq<Step>)
    requires Measured(run)
    ensures Final(run).progress == Told(run)
    ensures Final(run).progress.Some? <==> Final(run).current.Some?
  {
    hide Do;
    if run != [] {
      var init := run[..|run| - 1];
      ProgressFollows(init);
      OneAtATime(init);
      ProgressByStep(Final(init), run[|run| - 1]);
    }
  }

  /** The listing is refreshed once per upload. */
  lemma {:induction false} TickCounts(run: seq<Step>)
    ensures Final(run).uploadedTick == |Uploads(run)|
  {
    if run != [] { TickCounts(run[..|run| - 1]); }
  }

  function Uploads(run: seq<Step>): seq<Step> {
    if run == [] then []
    else Uploads(run[..|run| - 1]) + if run[|run| - 1].DoMarkUploaded? then [run[|run| - 1]] else []
  }

  /** The batch as the store counts a mark. */
  function MarkedBatch(s: State, step: Step): Summary
    requires Marks(step)
  {
    if step.DoMarkUploaded?
    then s.batch.(uploaded := s.batch.uploaded + 1, renamed := s.batch.renamed + if step.renamed then 1 else 0)
    else s.batch.(failed := s.batch.failed + 1,
                  failedNames := s.batch.failedNames
                                 + [if s.current.Some? then s.current.value.filename else "unknown"])
  }

  // ----- the store object -----

  class UploadsStore {
    var queue: seq<Item>
    var current: Option<Item>
    var conflict: Option<Item>
    var progress: Option<real>
    var batch: Summary
    var lastCompleted: Option<Summary>
    var uploadedTick: nat

    constructor ()
      ensures View() == INITIAL
    {
      queue, current, conflict, progress := [], None, None, None;
      batch, lastCompleted, uploadedTick := NONE, None, 0;
    }

    ghost function View(): State
      reads this
    {
      State(queue, current, conflict, progress, batch, lastCompleted, uploadedTick)
    }

    method Enqueue(items: seq<Item>)
      modifies this
      ensures View() == Do(old(View()), DoEnqueue(items))
    {
      var wasIdle := current == None && conflict == None && |queue| == 0;
      queue := queue + items;
      if wasIdle {
        batch := NONE;
        lastCompleted := None;
      }
    }

    method TakeNext() returns (item: Option<Item>)
      modifies this
      ensures View() == Do(old(View()), DoTakeNext)
      ensures item.Some? <==> old(current) == None && old(conflict) == None && old(queue) != []
      ensures item.Some? ==> current == item && [item.value] + queue == old(queue)
    {
      if current.Some? || conflict.Some? || queue == [] { return None; }
      item := Some(queue[0]);
      queue := queue[1..];
      current := item;
      progress := Some(0.0);
    }

    method FinishBatchIf(drained: bool, next: Summary)
      modifies `batch, `lastCompleted
      ensures batch == if drained then NONE else next
      ensures lastCompleted == if drained then Some(next) else old(lastCompleted)
    {
      batch := next;
      if drained {
        lastCompleted := Some(batch);
        batch := NONE;
      }
    }

    method MarkUploaded(renamed: bool)
      modifies this
      ensures View() == Do(old(View()), DoMarkUploaded(renamed))
    {
      var next := batch.(uploaded := batch.uploaded + 1, renamed := batch.renamed + if renamed then 1 else 0);
      current := None;
      progress := None;
      FinishBatchIf(queue == [] && conflict == None, next);
      uploadedTick := uploadedTick + 1;
    }

    method MarkConflict()
      modifies this
      ensures View() == Do(old(View()), DoMarkConflict)
    {
      if current == None { return; }
      conflict := current;
      current := None;
      progress := None;
    }

    method MarkFailed()
      modifies this
      ensures View() == Do(old(View()), DoMarkFailed)
    {
      var name := if current.Some? then current.value.filename else "unknown";
      var next := batch.(failed := batch.failed + 1, failedNames := batch.failedNames + [name]);
      current := None;
      progress := None;
      FinishBatchIf(queue == [] && conflict == None, next);
    }

    method ResumeConflict() returns (item: Option<Item>)
      modifies this
      ensures View() == Do(old(View()), DoResumeConflict)
      ensures item == old(conflict)
    {
      item := conflict;
      if item == None { return; }
      conflict := None;
      current := item;
      progress := Some(0.0);
    }

    method SkipConflict()
      modifies this
      ensures View() == Do(old(View()), DoSkipConflict)
    {
      if conflict == None { return; }
      conflict := None;
      FinishBatchIf(queue == [], batch.(skipped := batch.skipped + 1));
    }

    method CancelQueued()
      modifies this
      ensures View() == Do(old(View()), DoCancelQueued)
    {
      queue := [];
      conflict := None;
    }
  }
}
