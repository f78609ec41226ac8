/** Hub-wide project ids (hub/src/workers/project_index.py): each worker gets a range of a
    million ids, and requests and responses are rewritten between the two kinds of id. */
module ProjectIndex {
  import opened Wrappers

  type WorkerId = string

  datatype Project = Project(id: int, name: string)

  datatype Mapping = Mapping(worker: WorkerId, title: string, kind: string, pid: int, data: Project)

  const MULTIPLIER := 1_000_000

  datatype Index = Index(mappings: map<int, Mapping>, offsets: map<WorkerId, nat>, next: nat)

  const EMPTY := Index(map[], map[], 0)

  // ----- operations -----

  function WithOffset(ix: Index, w: WorkerId): (r: Index)
    ensures w in r.offsets
  {
    if w in ix.offsets then ix else ix.(offsets := ix.offsets[w := ix.next], next := ix.next + 1)
  }

  function HubId(ix: Index, w: WorkerId, pid: int): int
    requires w in ix.offsets
  {
    ix.offsets[w] * MULTIPLIER + pid
  }

  function Without(ix: Index, w: WorkerId): Index {
    ix.(mappings := map h | h in ix.mappings && ix.mappings[h].worker != w :: ix.mappings[h])
  }

  datatype Source = Source(worker: WorkerId, title: string, kind: string)

  function Add(ix: Index, from: Source, p: Project): Index {
    var o := WithOffset(ix, from.worker);
    var h := HubId(o, from.worker, p.id);
    o.(mappings := o.mappings[h := Mapping(from.worker, from.title, from.kind, p.id, p.(id := h))])
  }

  function AddAll(ix: Index, from: Source, projects: seq<Project>): Index {
    if projects == [] then ix else Add(AddAll(ix, from, projects[..|projects| - 1]), from, projects[|projects| - 1])
  }

  function Update(ix: Index, from: Source, projects: seq<Project>): Index {
    AddAll(Without(ix, from.worker), from, projects)
  }

  function Resolve(ix: Index, h: int): Option<(WorkerId, int)> {
    if h in ix.mappings then Some((ix.mappings[h].worker, ix.mappings[h].pid)) else None
  }

  // ----- runs -----

  /** A worker sends its project list, or a response names one of its projects. */
  datatype Step = DoUpdate(from: Source, projects: seq<Project>) | DoRemap(w: WorkerId, pid: int)

  function Do(ix: Index, step: Step): Index {
    match step
    case DoUpdate(from, projects) => Update(ix, from, projects)
    case DoRemap(w, _) => WithOffset(ix, w)
  }

  function Final(run: seq<Step>): Index {
    if run == [] then EMPTY else Do(Final(run[..|run| - 1]), run[|run| - 1])
  }

  /** The project ids in the latest list of a worker. */
  function Latest(run: seq<Step>, w: WorkerId): set<int> {
    if run == [] then {}
    else
      var last := run[|run| - 1];
      if last.DoUpdate? && last.from.worker == w then Ids(last.projects) else Latest(run[..|run| - 1], w)
  }

  function Ids(projects: seq<Project>): set<int> { set k | 0 <= k < |projects| :: projects[k].id }

  ghost predicate InRange(projects: seq<Project>) {
    forall k :: 0 <= k < |projects| ==> 0 <= projects[k].id < 1_000_000
  }

  ghost predicate RangeRun(run: seq<Step>) {
    forall k :: 0 <= k < |run| && run[k].DoUpdate? ==> InRange(run[k].projects)
  }

  // ----- the invariant -----

  /** Offsets are handed out once each, and a mapping stands under the hub id of its project. */
  ghost predicate Sound(ix: Index) {
    && (forall w :: w in ix.offsets ==> ix.offsets[w] < ix.next)
    && (forall v, w :: v in ix.offsets && w in ix.offsets && ix.offsets[v] == ix.offsets[w] ==> v == w)
    && (forall h :: h in ix.mappings ==>
          ix.mappings[h].worker in ix.offsets && h == HubId(ix, ix.mappings[h].worker, ix.mappings[h].pid))
  }

  ghost predicate Live(ix: Index, w: WorkerId, pid: int) {
    w in ix.offsets && Resolve(ix, HubId(ix, w, pid)) == Some((w, pid))
  }

  /** Two projects of different workers meet in one hub id exactly when their ids differ by
      as many millions as their offsets. */
  lemma CollideIff(ix: Index, v: WorkerId, p: int, w: WorkerId, q: int)
    requires Sound(ix) && v in ix.offsets && w in ix.offsets
    ensures HubId(ix, v, p) == HubId(ix, w, q) <==> p + 1_000_000 * ix.offsets[v] == q + 1_000_000 * ix.offsets[w]
    ensures 0 <= p < 1_000_000 && 0 <= q < 1_000_000 ==> (HubId(ix, v, p) == HubId(ix, w, q) <==> v == w && p == q)
  {
  }

  lemma WithOffsetKeeps(ix: Index, w: WorkerId)
    requires Sound(ix)
    ensures Sound(WithOffset(ix, w))
    ensures forall v, p :: Live(WithOffset(ix, w), v, p) <==> Live(ix, v, p)
  {
    var r := WithOffset(ix, w);
    forall v, p ensures Live(r, v, p) <==> Live(ix, v, p) {
      if v !in ix.offsets && v in r.offsets {
        assert Resolve(ix, HubId(r, v, p)) != Some((v, p));
      }
    }
  }

  // ----- one update, exactly -----

  /** The hub id of (v, q) is also that of project `p` of another worker `w`. */
  predicate Meets(ix: Index, v: WorkerId, q: int, w: WorkerId, p: int) {
    v != w && v in ix.offsets && w in ix.offsets && q + 1_000_000 * ix.offsets[v] == p + 1_000_000 * ix.offsets[w]
  }

  lemma AddExactly(ix: Index, from: Source, p: Project, v: WorkerId, q: int)
    requires Sound(ix)
    ensures Sound(Add(ix, from, p))
    ensures Live(Add(ix, from, p), v, q) <==>
      (v == from.worker && q == p.id) || (Live(ix, v, q) &&
          !Meets(WithOffset(ix, from.worker), v, q, from.worker, p.id))
  {
    hide WithOffset, HubId, Live;
    WithOffsetKeeps(ix, from.worker);
    var o := WithOffset(ix, from.worker);
    PutExactly(o, from.worker, Mapping(from.worker, from.title, from.kind, p.id,
        p.(id := HubId(o, from.worker, p.id))), v, q);
  }

  lemma PutExactly(o: Index, w: WorkerId, m: Mapping, v: WorkerId, q: int)
    requires Sound(o) && w in o.offsets && m.worker == w
    ensures var put := o.(mappings := o.mappings[HubId(o, w, m.pid) := m]);
      Sound(put) && (Live(put, v, q) <==> (v == w && q == m.pid) || (Live(o, v, q) && !Meets(o, v, q, w, m.pid)))
  {
  }

  lemma {:induction false} AddAllOffsets(ix: Index, from: Source, projects: seq<Project>)
    ensures AddAll(ix, from, projects).offsets == (if projects == [] then ix else WithOffset(ix, from.worker)).offsets
    ensures AddAll(ix, from, projects).next == (if projects == [] then ix else WithOffset(ix, from.worker)).next
  {
    if projects != [] { AddAllOffsets(ix, from, projects[..|projects| - 1]); }
  }

  /** No project of the list takes over the hub id of (v, q). */
  ghost predicate Spared(ix: Index, from: Source, projects: seq<Project>, v: WorkerId, q: int) {
    forall k :: 0 <= k < |projects| ==> !Meets(WithOffset(ix, from.worker), v, q, from.worker, projects[k].id)
  }

  lemma {:induction false} AddAllExactly(ix: Index, from: Source, projects: seq<Project>, v: WorkerId, q: int)
    requires Sound(ix)
    ensures Sound(AddAll(ix, from, projects))
    ensures Live(AddAll(ix, from, projects), v, q) <==>
      (v == from.worker && q in Ids(projects)) || (Live(ix, v, q) && Spared(ix, from, projects, v, q))
  {
    hide Live, Sound, Add, Meets;
    if projects != [] {
      var n := |projects| - 1;
      var init, last := projects[..n], projects[n];
      AddAllExactly(ix, from, init, v, q);
      AddExactly(AddAll(ix, from, init), from, last, v, q);
      AddAllOffsets(ix, from, init);
      assert Ids(projects) == Ids(init) + {last.id} by { IdsOfLast(projects); }
      NeverMeetsItself(WithOffset(ix, from.worker), from.worker, q, last.id);
      MeetsByOffsets(WithOffset(AddAll(ix, from, init), from.worker), WithOffset(ix, from.worker), v, q, from.worker,
          last.id);
      assert Spared(ix, from, projects, v, q) <==>
        Spared(ix, from, init, v, q) && !Meets(WithOffset(ix, from.worker), v, q, from.worker, last.id);
    }
  }

  lemma NeverMeetsItself(ix: Index, w: WorkerId, q: int, p: int)
    ensures !Meets(ix, w, q, w, p)
  {
  }

  lemma IdsOfLast(projects: seq<Project>)
    requires projects != []
    ensures Ids(projects) == Ids(projects[..|projects| - 1]) + {projects[|projects| - 1].id}
  {
    var init := projects[..|projects| - 1];
    assert forall k :: 0 <= k < |init| ==> projects[k] == init[k];
  }

  lemma MeetsByOffsets(a: Index, b: Index, v: WorkerId, q: int, w: WorkerId, p: int)
    requires a.offsets == b.offsets
    ensures Meets(a, v, q, w, p) <==> Meets(b, v, q, w, p)
  {
  }

  lemma WithoutExactly(ix: Index, w: WorkerId, v: WorkerId, q: int)
    requires Sound(ix)
    ensures Sound(Without(ix, w))
    ensures Live(Without(ix, w), v, q) <==> v != w && Live(ix, v, q)
  {
  }

  /** After an update the worker's live projects are those of its list, and a live project
      of another worker stays live exactly if no listed project takes over its hub id. */
  lemma UpdateExactly(ix: Index, from: Source, projects: seq<Project>, v: WorkerId, q: int)
    requires Sound(ix)
    ensures Sound(Update(ix, from, projects))
    ensures Live(Update(ix, from, projects), v, q) <==>
      if v == from.worker then q in Ids(projects) else Live(ix, v, q) && Spared(ix, from, projects, v, q)
  {
    hide Live, Sound, AddAll, Meets;
    WithoutExactly(ix, from.worker, v, q);
    AddAllExactly(Without(ix, from.worker), from, projects, v, q);
    forall k | 0 <= k < |projects|
      ensures Meets(WithOffset(Without(ix, from.worker), from.worker), v, q, from.worker, projects[k].id)
        <==> Meets(WithOffset(ix, from.worker), v, q, from.worker, projects[k].id)
    {
      MeetsByOffsets(WithOffset(Without(ix, from.worker), from.worker), WithOffset(ix, from.worker), v, q,
          from.worker, projects[k].id);
    }
  }

  /** A project id of a million or more is not safe: the first project of the next worker
      takes over its hub id. */
  lemma MillionthProjectIsLost(a: Source, b: Source)
    requires a.worker != b.worker
    ensures var ix := Update(Update(EMPTY, a, [Project(1_000_000, "")]), b, [Project(0, "")]);
      a.worker in ix.offsets && Resolve(ix, HubId(ix, a.worker, 1_000_000)) == Some((b.worker, 0))
  {
    var one := Update(EMPTY, a, [Project(1_000_000, "")]);
    AddOne(Without(EMPTY, a.worker), a, Project(1_000_000, ""));
    AddOne(Without(one, b.worker), b, Project(0, ""));
  }

  lemma AddOne(ix: Index, from: Source, p: Project)
    ensures AddAll(ix, from, [p]) == Add(ix, from, p)
  {
    assert [p][..0] == [];
  }

  // ----- runs in range -----

  lemma {:induction false} RunIsSound(run: seq<Step>)
    ensures Sound(Final(run))
  {
    hide Sound, Update, WithOffset;
    if run == [] {
      EmptyIsSound();
    } else {
      RunIsSound(run[..|run| - 1]);
      match run[|run| - 1]
      case DoUpdate(from, projects) => UpdateExactly(Final(run[..|run| - 1]), from, projects, "", 0);
      case DoRemap(w, _) => WithOffsetKeeps(Final(run[..|run| - 1]), w);
    }
  }

  lemma EmptyIsSound()
    ensures Sound(EMPTY)
  {
  }

  /** What is live was listed last, whatever the ids are. */
  lemma {:induction false} LiveIsListed(run: seq<Step>, w: WorkerId, p: int)
    requires Live(Final(run), w, p)
    ensures p in Latest(run, w)
  {
    hide Sound, Update, WithOffset, Live;
    if run == [] {
      NothingLive(w, p);
    } else {
      var init := run[..|run| - 1];
      RunIsSound(init);
      match run[|run| - 1]
      case DoUpdate(from, projects) =>
        UpdateExactly(Final(init), from, projects, w, p);
        if from.worker != w { LiveIsListed(init, w, p); }
      case DoRemap(v, _) =>
        WithOffsetKeeps(Final(init), v);
        LiveIsListed(init, w, p);
    }
  }

  lemma NothingLive(w: WorkerId, p: int)
    ensures !Live(EMPTY, w, p)
  {
  }

  lemma {:induction false} ListedInRange(run: seq<Step>, w: WorkerId, p: int)
    requires RangeRun(run) && p in Latest(run, w)
    ensures 0 <= p < 1_000_000
  {
    if run != [] {
      var init, last := run[..|run| - 1], run[|run| - 1];
      if last.DoUpdate? && last.from.worker == w {
        var k :| 0 <= k < |last.projects| && last.projects[k].id == p;
      } else {
        assert forall k :: 0 <= k < |init| ==> init[k] == run[k];
        ListedInRange(init, w, p);
      }
    }
  }

  /** With ids below a million, the live projects of a worker are those of its latest list. */
  lemma {:induction false} ListedIsLive(run: seq<Step>, w: WorkerId, p: int)
    requires RangeRun(run) && p in Latest(run, w)
    ensures Live(Final(run), w, p)
  {
    hide Sound, Update, WithOffset, Live, Meets, Ids;
    if run != [] {
      var init, last := run[..|run| - 1], run[|run| - 1];
      assert forall k :: 0 <= k < |init| ==> init[k] == run[k];
      ListedInRange(run, w, p);
      RunIsSound(init);
      match last
      case DoUpdate(from, projects) =>
        if from.worker != w {
          ListedIsLive(init, w, p);
          SparedInRange(Final(init), from, projects, w, p);
        }
        UpdateExactly(Final(init), from, projects, w, p);
      case DoRemap(v, _) =>
        ListedIsLive(init, w, p);
        WithOffsetKeeps(Final(init), v);
    }
  }

  lemma SparedInRange(ix: Index, from: Source, projects: seq<Project>, v: WorkerId, q: int)
    requires Sound(ix) && InRange(projects) && 0 <= q < 1_000_000
    ensures Spared(ix, from, projects, v, q)
  {
    WithOffsetKeeps(ix, from.worker);
    forall k | 0 <= k < |projects|
      ensures !Meets(WithOffset(ix, from.worker), v, q, from.worker, projects[k].id)
    {
      var o := WithOffset(ix, from.worker);
      if v in o.offsets { CollideIff(o, v, q, from.worker, projects[k].id); }
    }
  }

  /** A hub id resolves to a project exactly when that project is in its worker's latest list
      and the hub id is the one made for it. */
  lemma ResolveIff(run: seq<Step>, h: int, w: WorkerId, p: int)
    requires RangeRun(run)
    ensures var ix := Final(run);
      Resolve(ix, h) == Some((w, p)) <==> w in ix.offsets && p in Latest(run, w) && h == HubId(ix, w, p)
  {
    hide Final, Latest;
    RunIsSound(run);
    if p in Latest(run, w) { ListedIsLive(run, w, p); }
    if Resolve(Final(run), h) == Some((w, p)) { LiveIsListed(run, w, p); }
  }

  /** Rewriting the ids of a request and of its response are inverse: what resolves from a
      hub id is sent back under that hub id, and nothing changes on the way. */
  lemma ResponseInvertsRequest(run: seq<Step>, h: int)
    requires Resolve(Final(run), h).Some?
    ensures var (w, p) := Resolve(Final(run), h).value; var ix := WithOffset(Final(run), w);
      ix == Final(run) && HubId(ix, w, p) == h
  {
    hide Final;
    RunIsSound(run);
  }

  lemma OffsetsByStep(ix: Index, step: Step, w: WorkerId)
    requires w in ix.offsets
    ensures w in Do(ix, step).offsets && Do(ix, step).offsets[w] == ix.offsets[w]
  {
    match step
    case DoUpdate(from, projects) => AddAllOffsets(Without(ix, from.worker), from, projects);
    case DoRemap(_, _) =>
  }

  /** An offset never changes. */
  lemma {:induction false} OffsetsStay(run: seq<Step>, j: nat, w: WorkerId)
    requires j <= |run| && w in Final(run[..j]).offsets
    ensures w in Final(run).offsets && Final(run).offsets[w] == Final(run[..j]).offsets[w]
  {
    hide Do;
    if j == |run| {
      assert run[..j] == run;
    } else {
      var init := run[..|run| - 1];
      assert init[..j] == run[..j];
      OffsetsStay(init, j, w);
      OffsetsByStep(Final(init), run[|run| - 1], w);
    }
  }

  // ----- the index object -----

  class HubProjects {
    var mappings: map<int, Mapping>
    var offsets: map<WorkerId, nat>
    var nextOffset: nat

    constructor ()
      ensures View() == EMPTY
    {
      mappings, offsets, nextOffset := map[], map[], 0;
    }

    ghost function View(): Index
      reads this
    {
      Index(mappings, offsets, nextOffset)
    }

    method OffsetFor(w: WorkerId) returns (offset: nat)
      modifies this
      ensures View() == WithOffset(old(View()), w)
      ensures offset == View().offsets[w]
    {
      if w !in offsets {
        offsets := offsets[w := nextOffset];
        nextOffset := nextOffset + 1;
      }
      return offsets[w];
    }

    method ToHubId(w: WorkerId, pid: int) returns (h: int)
      modifies this
      ensures View() == WithOffset(old(View()), w)
      ensures h == HubId(View(), w, pid)
    {
      var offset := OffsetFor(w);
      h := offset * MULTIPLIER + pid;
    }

    /** Replaces the worker's projects and returns them with their hub ids. */
    method UpdateFromWorker(from: Source, projects: seq<Project>) returns (remapped: seq<Project>)
      modifies this
      ensures View() == Update(old(View()), from, projects)
      ensures |remapped| == |projects|
      ensures forall k :: 0 <= k < |projects| ==>
                from.worker in View().offsets
                && remapped[k] == projects[k].(id := HubId(View(), from.worker, projects[k].id))
    {
      mappings := map h | h in mappings && mappings[h].worker != from.worker :: mappings[h];
      remapped := [];
      ghost var cleared := View();
      assert cleared == Without(old(View()), from.worker);
      for k := 0 to |projects|
        invariant View() == AddAll(cleared, from, projects[..k])
        invariant |remapped| == k
        invariant k > 0 ==> from.worker in offsets
        invariant forall j :: 0 <= j < k ==> remapped[j] == projects[j].(id := HubId(View(), from.worker,
            projects[j].id))
      {
        var p := projects[k];
        ghost var before := View();
        var h := ToHubId(from.worker, p.id);
        mappings := mappings[h := Mapping(from.worker, from.title, from.kind, p.id, p.(id := h))];
        remapped := remapped + [p.(id := h)];
        assert View() == Add(before, from, p);
        assert projects[..k + 1][..k] == projects[..k];
      }
      assert projects[..|projects|] == projects;
    }

    method Lookup(h: int) returns (r: Option<(WorkerId, int)>)
      ensures r == Resolve(View(), h)
    {
      if h !in mappings { return None; }
      return Some((mappings[h].worker, mappings[h].pid));
    }
  }
}
