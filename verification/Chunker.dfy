/** Splitting knowledge texts into chunks (shared/worker_shared/knowledge/chunk.py).

    A text is cut into paragraphs, paragraphs are packed greedily, and a paragraph over the
    budget is cut into overlapping windows.  The theorems: nothing is lost, every chunk fits,
    the packing uses as few chunks as any cut does, and the windows can be put together again
    exactly when the overlap is not negative. */
module Chunker {
  import opened PythonText

  // ----- paragraphs -----

  /** A blank line: two newlines with nothing but white space between them. */
  ghost predicate BreakBetween(s: string, i: int, j: int) {
    0 <= i < j < |s| && s[i] == '\n' && s[j] == '\n' && forall k :: i < k < j ==> IsSpace(s[k])
  }

  ghost predicate Unbroken(s: string) { forall i, j :: !BreakBetween(s, i, j) }

  /** The end of the white space that starts at `i`. */
  function RunEnd(s: string, i: nat): (e: nat)
    requires i <= |s|
    ensures i <= e <= |s|
    ensures forall k :: i <= k < e ==> IsSpace(s[k])
    ensures e < |s| ==> !IsSpace(s[e])
    decreases |s| - i
  {
    if i < |s| && IsSpace(s[i]) then RunEnd(s, i + 1) else i
  }

  /** The last newline in s[i..e], or `i` if there is none after `i`. */
  function LastNewline(s: string, i: nat, e: nat): (j: nat)
    requires i < e <= |s|
    ensures i <= j < e
    ensures j > i ==> s[j] == '\n'
    ensures forall k :: j < k < e ==> s[k] != '\n'
    decreases e
  {
    if e == i + 1 || s[e - 1] == '\n' then e - 1 else LastNewline(s, i, e - 1)
  }

  /** One past the match of `\n\s*\n` that starts at `i`, or `i` if none does. */
  function MatchEnd(s: string, i: nat): (e: nat)
    requires i < |s|
    ensures i <= e <= |s|
    ensures e > i ==> BreakBetween(s, i, e - 1) && forall j :: BreakBetween(s, i, j) ==> j < e
    ensures e == i ==> forall j :: !BreakBetween(s, i, j)
  {
    if s[i] != '\n' then i
    else
      var j := LastNewline(s, i, RunEnd(s, i));
      assert forall k :: BreakBetween(s, i, k) ==> k < RunEnd(s, i);
      if j > i then j + 1 else i
  }

  /** Where the first match starts, or the length. */
  function FirstMatch(s: string, i: nat): (k: nat)
    requires i <= |s|
    ensures i <= k <= |s|
    ensures k < |s| ==> MatchEnd(s, k) > k
    ensures forall m :: i <= m < k ==> MatchEnd(s, m) == m
    decreases |s| - i
  {
    if i == |s| || MatchEnd(s, i) > i then i else FirstMatch(s, i + 1)
  }

  /** `_PARA_SPLIT.split(s)` */
  function SplitAtBreaks(s: string): seq<string>
    decreases |s|
  {
    var k := FirstMatch(s, 0);
    if k == |s| then [s] else [s[..k]] + SplitAtBreaks(s[MatchEnd(s, k)..])
  }

  function Kept(pieces: seq<string>): seq<string> {
    if pieces == [] then []
    else (if Strip(pieces[0]) == "" then [] else [Strip(pieces[0])]) + Kept(pieces[1..])
  }

  function Paragraphs(s: string): seq<string> { Kept(SplitAtBreaks(s)) }

  /** A paragraph starts and ends with ink and holds no blank line. */
  ghost predicate IsParagraph(p: string) {
    p != "" && !IsSpace(p[0]) && !IsSpace(p[|p| - 1]) && Unbroken(p)
  }

  // ----- windows -----

  function Step(maxChars: int, overlap: int): (step: nat)
    ensures step >= 1
  {
    if maxChars - overlap >= 1 then maxChars - overlap else 1
  }

  function WindowsFrom(text: string, maxChars: int, step: nat, start: nat): (windows: seq<string>)
    requires step >= 1
    ensures start >= |text| ==> windows == []
    decreases |text| - start
  {
    if start >= |text| then []
    else
      var piece := Slice(text, start, start + maxChars);
      (if piece == "" then [] else [piece]) +
      (if start + maxChars >= |text| then [] else WindowsFrom(text, maxChars, step, start + step))
  }

  function HardSplit(text: string, maxChars: int, overlap: int): seq<string> {
    WindowsFrom(text, maxChars, Step(maxChars, overlap), 0)
  }

  /** Putting windows together again: each after the first without its first `drop` characters. */
  function Rejoin(windows: seq<string>, drop: nat): string {
    if windows == [] then ""
    else windows[0] + RejoinRest(windows[1..], drop)
  }

  function RejoinRest(windows: seq<string>, drop: nat): string {
    if windows == [] then ""
    else (if |windows[0]| >= drop then windows[0][drop..] else "") + RejoinRest(windows[1..], drop)
  }

  function TotalLength(windows: seq<string>): nat {
    if windows == [] then 0 else |windows[0]| + TotalLength(windows[1..])
  }

  lemma SliceInside(text: string, maxChars: int, start: nat)
    requires maxChars >= 1 && start < |text|
    ensures Slice(text, start, start + maxChars) ==
            if start + maxChars < |text| then text[start..start + maxChars] else text[start..]
  {
  }

  /** The window at `start`, and the windows after it. */
  lemma WindowsUnfold(text: string, maxChars: int, step: nat, start: nat)
    requires step >= 1 && maxChars >= 1 && start < |text|
    ensures var w := WindowsFrom(text, maxChars, step, start);
      && w != []
      && w[0] == (if start + maxChars < |text| then text[start..start + maxChars] else text[start..])
      && w[1..] == (if start + maxChars < |text| then WindowsFrom(text, maxChars, step, start + step) else [])
  {
    hide Slice;
    SliceInside(text, maxChars, start);
    var piece := Slice(text, start, start + maxChars);
    var rest := if start + maxChars < |text| then WindowsFrom(text, maxChars, step, start + step) else [];
    assert WindowsFrom(text, maxChars, step, start) == [piece] + rest;
  }

  lemma {:induction false} WindowsFit(text: string, maxChars: int, step: nat, start: nat, k: nat)
    requires step >= 1 && maxChars >= 1 && k < |WindowsFrom(text, maxChars, step, start)|
    ensures 0 < |WindowsFrom(text, maxChars, step, start)[k]| <= maxChars
    decreases k
  {
    hide WindowsFrom, Slice;
    if start < |text| {
      WindowsUnfold(text, maxChars, step, start);
      if k > 0 { WindowsFit(text, maxChars, step, start + step, k - 1); }
    }
  }

  lemma {:induction false} WindowsExceedOverlap(text: string, maxChars: int, step: nat, start: nat, k: nat)
    requires 1 <= step <= maxChars && start + maxChars - step < |text|
    requires k < |WindowsFrom(text, maxChars, step, start)|
    ensures |WindowsFrom(text, maxChars, step, start)[k]| > maxChars - step
    decreases k
  {
    hide WindowsFrom, Slice;
    if start < |text| {
      WindowsUnfold(text, maxChars, step, start);
      if k > 0 { WindowsExceedOverlap(text, maxChars, step, start + step, k - 1); }
    }
  }

  lemma RejoinTail(windows: seq<string>, drop: nat)
    requires windows != [] && drop <= |windows[0]|
    ensures drop <= |Rejoin(windows, drop)| && RejoinRest(windows, drop) == Rejoin(windows, drop)[drop..]
  {
  }

  lemma {:induction false} WindowsCover(text: string, maxChars: int, step: nat, start: nat)
    requires 1 <= step <= maxChars && start < |text|
    ensures WindowsFrom(text, maxChars, step, start) != []
    ensures Rejoin(WindowsFrom(text, maxChars, step, start), maxChars - step) == text[start..]
    decreases |text| - start
  {
    hide WindowsFrom, Slice, Rejoin, RejoinRest;
    var drop, windows := maxChars - step, WindowsFrom(text, maxChars, step, start);
    WindowsUnfold(text, maxChars, step, start);
    RejoinFirst(windows, drop);
    if start + maxChars < |text| {
      var rest := WindowsFrom(text, maxChars, step, start + step);
      WindowsCover(text, maxChars, step, start + step);
      WindowsExceedOverlap(text, maxChars, step, start + step, 0);
      RejoinTail(rest, drop);
      CutTwice(text, start, step, maxChars);
    } else {
      NothingToRejoin(drop);
    }
  }

  lemma RejoinFirst(windows: seq<string>, drop: nat)
    requires windows != []
    ensures Rejoin(windows, drop) == windows[0] + RejoinRest(windows[1..], drop)
  {
  }

  lemma CutTwice(text: string, start: nat, step: nat, maxChars: nat)
    requires step <= maxChars && start + maxChars <= |text|
    ensures text[start + step..][maxChars - step..] == text[start + maxChars..]
    ensures text[start..] == text[start..start + maxChars] + text[start + maxChars..]
  {
  }

  lemma NothingToRejoin(drop: nat)
    ensures RejoinRest([], drop) == ""
  {
  }

  /** With a negative overlap the windows leave gaps. */
  lemma {:induction false} WindowsSkip(text: string, maxChars: int, step: nat, start: nat)
    requires 1 <= maxChars < step && start <= |text|
    ensures TotalLength(WindowsFrom(text, maxChars, step, start)) <= |text| - start
    ensures start + maxChars < |text| ==> TotalLength(WindowsFrom(text, maxChars, step, start)) < |text| - start
    decreases |text| - start
  {
    hide WindowsFrom, Slice;
    if start < |text| {
      WindowsUnfold(text, maxChars, step, start);
      if start + step <= |text| {
        WindowsSkip(text, maxChars, step, start + step);
      }
    }
  }

  lemma OverlappingWindows(text: string, maxChars: int, overlap: int)
    requires text != "" && maxChars >= 1 && overlap >= 0
    ensures var windows, drop := HardSplit(text, maxChars, overlap), maxChars - Step(maxChars, overlap);
      && Rejoin(windows, drop) == text && TotalLength(windows) >= |text|
      && forall k :: 1 <= k < |windows| ==> |windows[k]| > drop
  {
    hide WindowsFrom, Slice;
    var step, windows := Step(maxChars, overlap), HardSplit(text, maxChars, overlap);
    WindowsCover(text, maxChars, step, 0);
    RejoinIsShorter(windows, maxChars - step);
    WindowsUnfold(text, maxChars, step, 0);
    forall k | 1 <= k < |windows| ensures |windows[k]| > maxChars - step {
      assert windows[k] == windows[1..][k - 1];
      WindowsExceedOverlap(text, maxChars, step, step, k - 1);
    }
  }

  /** The windows of a non-empty text hold all of it exactly when the overlap is not negative
      or one window is enough; then dropping the overlap puts it together again. */
  lemma HardSplitLosesNothingIff(text: string, maxChars: int, overlap: int)
    requires text != "" && maxChars >= 1
    ensures overlap >= 0 ==> Rejoin(HardSplit(text, maxChars, overlap), maxChars - Step(maxChars, overlap)) == text
    ensures TotalLength(HardSplit(text, maxChars, overlap)) >= |text| <==> overlap >= 0 || |text| <= maxChars
    ensures 0 <= overlap < maxChars ==>
      && Rejoin(HardSplit(text, maxChars, overlap), overlap) == text
      && forall k :: 1 <= k < |HardSplit(text, maxChars, overlap)| ==> |HardSplit(text, maxChars, overlap)[k]| > overlap
  {
    hide WindowsFrom, Slice, Rejoin;
    if overlap >= 0 {
      OverlappingWindows(text, maxChars, overlap);
    } else {
      WindowsSkip(text, maxChars, Step(maxChars, overlap), 0);
      WindowsUnfold(text, maxChars, Step(maxChars, overlap), 0);
    }
  }

  lemma {:induction false} RejoinIsShorter(windows: seq<string>, drop: nat)
    ensures |Rejoin(windows, drop)| <= TotalLength(windows)
    ensures |RejoinRest(windows, drop)| <= TotalLength(windows)
  {
    if windows != [] { RejoinIsShorter(windows[1..], drop); }
  }

  // ----- packing -----

  function Join(group: seq<string>): string {
    if group == [] then ""
    else if |group| == 1 then group[0]
    else Join(group[..|group| - 1]) + "\n\n" + group[|group| - 1]
  }

  /** The greedy loop, from an open chunk `current` on. */
  function Pack(paras: seq<string>, current: string, maxChars: int, overlap: int): seq<string> {
    var open := if current == "" then [] else [current];
    if paras == [] then open
    else
      var para, rest := paras[0], paras[1..];
      var candidate := if current == "" then para else current + "\n\n" + para;
      if |para| > maxChars then open + HardSplit(para, maxChars, overlap) + Pack(rest, "", maxChars, overlap)
      else if |candidate| <= maxChars then Pack(rest, candidate, maxChars, overlap)
      else open + Pack(rest, para, maxChars, overlap)
  }

  function ChunkText(text: string, maxChars: int, overlap: int): seq<string> {
    var cleaned := Strip(text);
    if cleaned == "" then []
    else if |cleaned| <= maxChars then [cleaned]
    else Pack(Paragraphs(cleaned), "", maxChars, overlap)
  }

  /** Which paragraphs go together: the same loop on lists of paragraphs. */
  function Grouped(paras: seq<string>, group: seq<string>, maxChars: int): seq<seq<string>> {
    var open := if group == [] then [] else [group];
    if paras == [] then open
    else
      var para, rest := paras[0], paras[1..];
      if |para| > maxChars then open + [[para]] + Grouped(rest, [], maxChars)
      else if |Join(group + [para])| <= maxChars then Grouped(rest, group + [para], maxChars)
      else open + Grouped(rest, [para], maxChars)
  }

  /** One chunk, or the windows of a paragraph over the budget. */
  function Render(group: seq<string>, maxChars: int, overlap: int): seq<string> {
    if |group| == 1 && |group[0]| > maxChars then HardSplit(group[0], maxChars, overlap) else [Join(group)]
  }

  function RenderAll(groups: seq<seq<string>>, maxChars: int, overlap: int): seq<string> {
    if groups == [] then [] else Render(groups[0], maxChars, overlap) + RenderAll(groups[1..], maxChars, overlap)
  }

  function Flatten(groups: seq<seq<string>>): seq<string> {
    if groups == [] then [] else groups[0] + Flatten(groups[1..])
  }

  predicate Inked(paras: seq<string>) { forall p :: p in paras ==> p != "" }

  /** A group that becomes one chunk, or a single paragraph over the budget. */
  predicate GoodGroup(group: seq<string>, maxChars: int) {
    group != [] && Inked(group) && (|Join(group)| <= maxChars || (|group| == 1 && |group[0]| > maxChars))
  }

  predicate IsCut(groups: seq<seq<string>>, paras: seq<string>, maxChars: int) {
    Flatten(groups) == paras && forall g :: g in groups ==> GoodGroup(g, maxChars)
  }

  lemma JoinSnoc(group: seq<string>, p: string)
    ensures Join(group + [p]) == if group == [] then p else Join(group) + "\n\n" + p
  {
    assert (group + [p])[..|group + [p]| - 1] == group;
  }

  /** What a list of at most one open group adds at the front. */
  lemma RenderOpen(open: seq<seq<string>>, groups: seq<seq<string>>, maxChars: int, overlap: int)
    requires |open| <= 1 && (open != [] ==> |Join(open[0])| <= maxChars)
    ensures RenderAll(open + groups, maxChars, overlap) ==
            (if open == [] then [] else [Join(open[0])]) + RenderAll(groups, maxChars, overlap)
    ensures Flatten(open + groups) == (if open == [] then [] else open[0]) + Flatten(groups)
  {
    if open == [] {
      assert open + groups == groups;
    } else {
      assert (open + groups)[1..] == groups;
    }
  }

  lemma RenderSolo(para: string, groups: seq<seq<string>>, maxChars: int, overlap: int)
    requires |para| > maxChars
    ensures RenderAll([[para]] + groups, maxChars, overlap) ==
            HardSplit(para, maxChars, overlap) + RenderAll(groups, maxChars, overlap)
    ensures Flatten([[para]] + groups) == [para] + Flatten(groups)
  {
    assert ([[para]] + groups)[1..] == groups;
  }

  ghost predicate OpenFits(group: seq<string>, maxChars: int) {
    Inked(group) && (group != [] ==> 0 < |Join(group)| <= maxChars)
  }

  lemma OpenIsCut(group: seq<string>, groups: seq<seq<string>>, paras: seq<string>, maxChars: int)
    requires OpenFits(group, maxChars) && IsCut(groups, paras, maxChars)
    ensures IsCut((if group == [] then [] else [group]) + groups, group + paras, maxChars)
  {
    RenderOpen(if group == [] then [] else [group], groups, maxChars, 0);
  }

  lemma SoloIsCut(para: string, groups: seq<seq<string>>, paras: seq<string>, maxChars: int)
    requires para != "" && |para| > maxChars && IsCut(groups, paras, maxChars)
    ensures IsCut([[para]] + groups, [para] + paras, maxChars)
  {
    RenderSolo(para, groups, maxChars, 0);
    assert GoodGroup([para], maxChars);
  }

  lemma OversizedIsCut(group: seq<string>, para: string, groups: seq<seq<string>>, rest: seq<string>, maxChars: int)
    requires OpenFits(group, maxChars) && para != "" && |para| > maxChars && IsCut(groups, rest, maxChars)
    ensures IsCut((if group == [] then [] else [group]) + [[para]] + groups, group + ([para] + rest), maxChars)
  {
    hide IsCut;
    SoloIsCut(para, groups, rest, maxChars);
    OpenIsCut(group, [[para]] + groups, [para] + rest, maxChars);
    var open := if group == [] then [] else [group];
    assert open + [[para]] + groups == open + ([[para]] + groups);
  }

  lemma OpenGrows(group: seq<string>, para: string, maxChars: int)
    requires OpenFits(group, maxChars) && para != ""
    ensures |Join(group + [para])| <= maxChars ==> OpenFits(group + [para], maxChars)
    ensures |para| <= maxChars ==> OpenFits([para], maxChars)
    ensures OpenFits([], maxChars)
  {
    JoinSnoc(group, para);
    JoinSnoc([], para);
    assert [] + [para] == [para];
  }

  lemma InkedParts(paras: seq<string>)
    requires Inked(paras) && paras != []
    ensures paras[0] != "" && Inked(paras[1..])
  {
    assert paras[0] in paras && forall p :: p in paras[1..] ==> p in paras;
  }

  /** The groups are a cut of the paragraphs ... */
  lemma {:induction false} GroupsAreACut(paras: seq<string>, group: seq<string>, maxChars: int)
    requires Inked(paras) && OpenFits(group, maxChars)
    ensures IsCut(Grouped(paras, group, maxChars), group + paras, maxChars)
  {
    hide IsCut, OpenFits, Inked, Join;
    var open := if group == [] then [] else [group];
    if paras == [] {
      NoCut(maxChars);
      OpenIsCut(group, [], [], maxChars);
      assert open + [] == open;
    } else {
      var para, rest := paras[0], paras[1..];
      InkedParts(paras);
      OpenGrows(group, para, maxChars);
      assert [para] + rest == paras;
      if |para| > maxChars {
        GroupsAreACut(rest, [], maxChars);
        assert [] + rest == rest;
        OversizedIsCut(group, para, Grouped(rest, [], maxChars), rest, maxChars);
      } else if |Join(group + [para])| <= maxChars {
        GroupsAreACut(rest, group + [para], maxChars);
        assert group + [para] + rest == group + paras;
      } else {
        GroupsAreACut(rest, [para], maxChars);
        OpenIsCut(group, Grouped(rest, [para], maxChars), paras, maxChars);
      }
    }
  }

  lemma NoCut(maxChars: int)
    ensures IsCut([], [], maxChars)
  {
  }

  /** ... and the chunks are their renderings. */
  lemma {:induction false} PackRendersGroups(paras: seq<string>, group: seq<string>, maxChars: int, overlap: int)
    requires Inked(paras) && OpenFits(group, maxChars)
    ensures Pack(paras, Join(group), maxChars, overlap) == RenderAll(Grouped(paras, group, maxChars), maxChars, overlap)
  {
    hide HardSplit, RenderAll, Flatten, Join, OpenFits, Inked;
    var open := if group == [] then [] else [group];
    var chunk := if group == [] then [] else [Join(group)];
    OpenJoins(group, maxChars);
    if paras == [] {
      RenderOpen(open, [], maxChars, overlap);
      NothingToRender(maxChars, overlap);
      assert open + [] == open && chunk + [] == chunk;
    } else {
      var para, rest := paras[0], paras[1..];
      InkedParts(paras);
      OpenGrows(group, para, maxChars);
      OpenJoins([], maxChars);
      JoinSnoc(group, para);
      if |para| > maxChars {
        PackRendersGroups(rest, [], maxChars, overlap);
        var tail := Grouped(rest, [], maxChars);
        RenderOpen(open, [[para]] + tail, maxChars, overlap);
        RenderSolo(para, tail, maxChars, overlap);
        Regroup(open, [[para]], tail);
        Regroup(chunk, HardSplit(para, maxChars, overlap), RenderAll(tail, maxChars, overlap));
      } else if |Join(group + [para])| <= maxChars {
        PackRendersGroups(rest, group + [para], maxChars, overlap);
      } else {
        JoinSnoc([], para);
        assert [] + [para] == [para];
        PackRendersGroups(rest, [para], maxChars, overlap);
        RenderOpen(open, Grouped(rest, [para], maxChars), maxChars, overlap);
      }
    }
  }

  lemma Regroup<T>(a: seq<T>, b: seq<T>, c: seq<T>)
    ensures a + b + c == a + (b + c)
  {
  }

  lemma OpenJoins(group: seq<string>, maxChars: int)
    requires group != [] ==> OpenFits(group, maxChars)
    ensures group == [] <==> Join(group) == ""
    ensures group != [] ==> |Join(group)| <= maxChars
  {
  }

  lemma NothingToRender(maxChars: int, overlap: int)
    ensures RenderAll([], maxChars, overlap) == []
  {
  }

  // ----- the packing is minimal -----

  /** How many chunks the loop makes, counting characters only: `open` is the length of the
      open chunk, 0 when there is none. */
  function Count(open: nat, paras: seq<string>, maxChars: int, overlap: int): nat
    decreases paras
  {
    var one := if open == 0 then 0 else 1;
    if paras == [] then one
    else
      var n, rest := |paras[0]|, paras[1..];
      if n > maxChars then one + |HardSplit(paras[0], maxChars, overlap)| + Count(0, rest, maxChars, overlap)
      else if open == 0 || open + 2 + n <= maxChars then
        Count(if open == 0 then n else open + 2 + n, rest, maxChars, overlap)
      else one + Count(n, rest, maxChars, overlap)
  }

  lemma {:induction false} PackCounts(paras: seq<string>, current: string, maxChars: int, overlap: int)
    requires Inked(paras)
    ensures |Pack(paras, current, maxChars, overlap)| == Count(|current|, paras, maxChars, overlap)
  {
    hide HardSplit;
    if paras != [] {
      var para, rest := paras[0], paras[1..];
      assert para in paras && forall p :: p in rest ==> p in paras;
      var candidate := if current == "" then para else current + "\n\n" + para;
      PackCounts(rest, if |para| > maxChars then "" else if |candidate| <= maxChars then candidate
          else para, maxChars, overlap);
    }
  }

  /** A longer open chunk costs at most one chunk more, and never saves one (unless there
      was none open). */
  lemma {:induction false} CountMonotone(a: nat, b: nat, paras: seq<string>, maxChars: int, overlap: int)
    requires a >= b && Inked(paras)
    ensures Count(a, paras, maxChars, overlap) <= 1 + Count(b, paras, maxChars, overlap)
    ensures b > 0 ==> Count(b, paras, maxChars, overlap) <= Count(a, paras, maxChars, overlap)
    decreases paras
  {
    hide HardSplit;
    if paras != [] {
      var n, rest := |paras[0]|, paras[1..];
      assert paras[0] in paras && forall p :: p in rest ==> p in paras;
      if n <= maxChars {
        var a' := if a == 0 then n else if a + 2 + n <= maxChars then a + 2 + n else n;
        var b' := if b == 0 then n else if b + 2 + n <= maxChars then b + 2 + n else n;
        if a' >= b' { CountMonotone(a', b', rest, maxChars, overlap); }
            else { CountMonotone(b', a', rest, maxChars, overlap); }
      }
    }
  }

  /** Feeding a group that fits into an empty chunk leaves exactly that group open. */
  lemma {:induction false} CountGroup(group: seq<string>, rest: seq<string>, maxChars: int, overlap: int)
    requires group != [] && Inked(group) && |Join(group)| <= maxChars
    ensures Count(0, group + rest, maxChars, overlap) == Count(|Join(group)|, rest, maxChars, overlap)
  {
    var init, p := group[..|group| - 1], group[|group| - 1];
    assert p in group && forall q :: q in init ==> q in group;
    assert group + rest == init + ([p] + rest);
    assert ([p] + rest)[1..] == rest;
    if init == [] {
      assert [p] + rest == group + rest;
    } else {
      CountGroup(init, [p] + rest, maxChars, overlap);
      assert Join(init) != "" by { JoinNotEmpty(init); }
    }
  }

  lemma {:induction false} JoinNotEmpty(group: seq<string>)
    requires group != [] && Inked(group)
    ensures Join(group) != ""
  {
    assert group[0] in group;
  }

  /** No cut of the paragraphs into consecutive groups that fit (a paragraph over the budget
      standing alone) renders to fewer chunks than the greedy one. */
  lemma {:induction false} GreedyIsMinimal(groups: seq<seq<string>>, paras: seq<string>, maxChars: int, overlap: int)
    requires IsCut(groups, paras, maxChars)
    ensures |Pack(paras, "", maxChars, overlap)| <= |RenderAll(groups, maxChars, overlap)|
  {
    hide HardSplit;
    CutIsInked(groups, maxChars);
    PackCounts(paras, "", maxChars, overlap);
    if groups != [] {
      var group, rest := groups[0], Flatten(groups[1..]);
      assert group in groups && forall g :: g in groups[1..] ==> g in groups;
      CutIsInked(groups[1..], maxChars);
      GreedyIsMinimal(groups[1..], rest, maxChars, overlap);
      PackCounts(rest, "", maxChars, overlap);
      if |Join(group)| <= maxChars {
        CountGroup(group, rest, maxChars, overlap);
        CountMonotone(|Join(group)|, 0, rest, maxChars, overlap);
      } else {
        assert (group + rest)[1..] == rest;
      }
    }
  }

  lemma {:induction false} CutIsInked(groups: seq<seq<string>>, maxChars: int)
    requires forall g :: g in groups ==> GoodGroup(g, maxChars)
    ensures Inked(Flatten(groups))
  {
    if groups != [] {
      assert groups[0] in groups && forall g :: g in groups[1..] ==> g in groups;
      CutIsInked(groups[1..], maxChars);
    }
  }

  // ----- paragraphs can be told apart again -----

  lemma UnbrokenPart(s: string, lo: nat, hi: nat)
    requires lo <= hi <= |s|
    requires forall i, j :: lo <= i < j < hi ==> !BreakBetween(s, i, j)
    ensures Unbroken(s[lo..hi])
  {
    forall i, j ensures !BreakBetween(s[lo..hi], i, j) {
      if 0 <= i < j < hi - lo { BreaksOfPart(s, lo, hi, i, j); }
    }
  }

  lemma BreaksOfPart(s: string, lo: nat, hi: nat, i: int, j: int)
    requires lo <= hi <= |s| && 0 <= i < j < hi - lo
    ensures BreakBetween(s[lo..hi], i, j) <==> BreakBetween(s, lo + i, lo + j)
  {
    var part := s[lo..hi];
    assert (forall k :: i < k < j ==> IsSpace(part[k])) <==> (forall k :: lo + i < k < lo + j ==> IsSpace(s[k])) by {
      assert forall k :: lo + i < k < lo + j ==> s[k] == part[k - lo];
    }
  }

  lemma {:induction false} StripLeftPart(s: string) returns (lo: nat)
    ensures lo <= |s| && StripLeft(s) == s[lo..] && Blank(s[..lo])
  {
    if s != "" && IsSpace(s[0]) {
      var k := StripLeftPart(s[1..]);
      lo := k + 1;
      assert forall i :: 1 <= i < lo ==> s[i] == s[1..][..k][i - 1];
    } else {
      lo := 0;
    }
  }

  lemma {:induction false} StripRightPart(s: string)
    ensures StripRight(s) == s[..|StripRight(s)|] && Blank(s[|StripRight(s)|..])
  {
    if s != "" && IsSpace(s[|s| - 1]) {
      var init := s[..|s| - 1];
      StripRightPart(init);
      var n := |StripRight(init)|;
      assert forall i :: n <= i < |s| - 1 ==> s[i] == init[n..][i - n];
    }
  }

  /** Stripping cuts off white space on both sides. */
  lemma StripPart(s: string) returns (lo: nat, hi: nat)
    ensures lo <= hi <= |s| && Strip(s) == s[lo..hi] && Blank(s[..lo]) && Blank(s[hi..])
  {
    lo := StripLeftPart(s);
    StripRightPart(s[lo..]);
    hi := lo + |Strip(s)|;
    assert s[lo..][|Strip(s)|..] == s[hi..];
    assert s[lo..][..|Strip(s)|] == s[lo..hi];
  }

  lemma StripIsParagraph(s: string)
    requires Unbroken(s) && Strip(s) != ""
    ensures IsParagraph(Strip(s))
  {
    var lo, hi := StripPart(s);
    UnbrokenPart(s, lo, hi);
    var left := StripLeft(s);
    assert Strip(s)[0] == left[0];
  }

  lemma {:induction false} PiecesUnbroken(s: string)
    ensures forall piece :: piece in SplitAtBreaks(s) ==> Unbroken(piece)
    decreases |s|
  {
    var k := FirstMatch(s, 0);
    forall i, j | 0 <= i < j < k ensures !BreakBetween(s, i, j) { assert MatchEnd(s, i) == i; }
    UnbrokenPart(s, 0, k);
    if k == |s| {
      assert s[0..k] == s;
    } else {
      PiecesUnbroken(s[MatchEnd(s, k)..]);
      assert s[0..k] == s[..k];
    }
  }

  lemma {:induction false} KeptAreParagraphs(pieces: seq<string>)
    requires forall piece :: piece in pieces ==> Unbroken(piece)
    ensures forall p :: p in Kept(pieces) ==> IsParagraph(p)
  {
    if pieces != [] {
      assert pieces[0] in pieces && forall p :: p in pieces[1..] ==> p in pieces;
      KeptAreParagraphs(pieces[1..]);
      if Strip(pieces[0]) != "" { StripIsParagraph(pieces[0]); }
    }
  }

  lemma ParagraphsAreParagraphs(s: string)
    ensures forall p :: p in Paragraphs(s) ==> IsParagraph(p)
  {
    PiecesUnbroken(s);
    KeptAreParagraphs(SplitAtBreaks(s));
  }

  lemma StripOfParagraph(p: string)
    requires IsParagraph(p)
    ensures Strip(p) == p
  {
  }

  lemma SameBreaksInPrefix(p: string, s: string, i: int, j: int)
    requires p <= s && j < |p|
    ensures BreakBetween(s, i, j) <==> BreakBetween(p, i, j)
  {
    if 0 <= i < j {
      assert forall k :: i < k < j ==> s[k] == p[k];
    }
  }

  lemma InkBlocksBreak(s: string, i: int, k: int, j: int)
    requires 0 <= k < |s| && !IsSpace(s[k]) && i <= k <= j
    ensures !BreakBetween(s, i, j)
  {
  }

  /** In `p + "\n\n" + rest` the first blank line is the one that was put there. */
  lemma FirstBreakAfter(p: string, rest: string)
    requires IsParagraph(p) && rest != "" && !IsSpace(rest[0])
    ensures var s := p + "\n\n" + rest; FirstMatch(s, 0) == |p| && MatchEnd(s, |p|) == |p| + 2
  {
    var s, n := p + "\n\n" + rest, |p|;
    assert s[n - 1] == p[n - 1] && s[n + 2] == rest[0] && s[n] == '\n' && s[n + 1] == '\n';
    forall i, j | 0 <= i < n ensures !BreakBetween(s, i, j) {
      if j < n { SameBreaksInPrefix(p, s, i, j); } else { InkBlocksBreak(s, i, n - 1, j); }
    }
    forall j | j >= n + 2 ensures !BreakBetween(s, n, j) {
      InkBlocksBreak(s, n, n + 2, j);
    }
    assert BreakBetween(s, n, n + 1);
    forall i | 0 <= i < n ensures MatchEnd(s, i) == i {}
    assert MatchEnd(s, n) == n + 2;
  }

  lemma SplitsAfterParagraph(p: string, rest: string)
    requires IsParagraph(p) && rest != "" && !IsSpace(rest[0])
    ensures SplitAtBreaks(p + "\n\n" + rest) == [p] + SplitAtBreaks(rest)
  {
    hide MatchEnd, FirstMatch, IsParagraph;
    var s, n := p + "\n\n" + rest, |p|;
    FirstBreakAfter(p, rest);
    assert s[..n] == p && s[n + 2..] == rest;
  }

  lemma SplitOfUnbroken(s: string)
    requires Unbroken(s)
    ensures SplitAtBreaks(s) == [s]
  {
    forall k | 0 <= k < |s| ensures MatchEnd(s, k) == k {}
  }

  lemma ParagraphAlone(p: string)
    requires IsParagraph(p)
    ensures Paragraphs(p) == [p]
  {
    SplitOfUnbroken(p);
    StripOfParagraph(p);
    KeptCons(p, []);
    assert [p] + [] == [p];
  }

  /** Un-joining: the paragraphs of a packed chunk are the paragraphs that went into it. */
  lemma {:induction false} JoinedParagraphs(group: seq<string>)
    requires group != [] && forall p :: p in group ==> IsParagraph(p)
    ensures Paragraphs(Join(group)) == group
    ensures Join(group) != "" && !IsSpace(Join(group)[0])
  {
    hide IsParagraph, Join, SplitAtBreaks, Kept;
    var p, rest := group[0], group[1..];
    assert p in group && forall q :: q in rest ==> q in group;
    ParagraphStarts(p);
    if rest == [] {
      ParagraphAlone(p);
      assert group == [p];
      JoinOne(p);
    } else {
      JoinedParagraphs(rest);
      JoinFromFront(group);
      SplitsAfterParagraph(p, Join(rest));
      StripOfParagraph(p);
      KeptCons(p, SplitAtBreaks(Join(rest)));
      assert group == [p] + rest;
    }
  }

  lemma ParagraphStarts(p: string)
    requires IsParagraph(p)
    ensures p != "" && !IsSpace(p[0])
  {
  }

  lemma JoinOne(p: string)
    ensures Join([p]) == p
  {
    assert [p][..0] == [];
  }

  lemma KeptCons(piece: string, pieces: seq<string>)
    ensures Kept([piece] + pieces) == (if Strip(piece) == "" then [] else [Strip(piece)]) + Kept(pieces)
  {
    assert ([piece] + pieces)[1..] == pieces;
  }

  lemma {:induction false} JoinFromFront(group: seq<string>)
    requires |group| > 1
    ensures Join(group) == group[0] + "\n\n" + Join(group[1..])
  {
    if |group| > 2 {
      var init := group[..|group| - 1];
      JoinFromFront(init);
      assert group[1..][..|group| - 2] == init[1..];
    }
  }

  // ----- what chunking promises -----

  /** The chunks of one group give the group back. */
  ghost predicate Recovers(chunks: seq<string>, group: seq<string>, drop: nat) {
    || (|chunks| == 1 && Paragraphs(chunks[0]) == group)
    || (|group| == 1 && Rejoin(chunks, drop) == group[0])
  }

  /** Each chunk has some text and at most `maxChars` of it. */
  ghost predicate AllFit(chunks: seq<string>, maxChars: int) {
    forall k :: 0 <= k < |chunks| ==> 0 < |chunks[k]| <= maxChars
  }

  lemma RenderRecovers(group: seq<string>, maxChars: int, overlap: int)
    requires maxChars >= 1 && overlap >= 0 && GoodGroup(group, maxChars) && forall p :: p in group ==> IsParagraph(p)
    ensures Recovers(Render(group, maxChars, overlap), group, maxChars - Step(maxChars, overlap))
    ensures AllFit(Render(group, maxChars, overlap), maxChars)
  {
    if |group| == 1 && |group[0]| > maxChars {
      HardSplitLosesNothingIff(group[0], maxChars, overlap);
      forall k | 0 <= k < |HardSplit(group[0], maxChars, overlap)|
        ensures 0 < |HardSplit(group[0], maxChars, overlap)[k]| <= maxChars
      {
        WindowsFit(group[0], maxChars, Step(maxChars, overlap), 0, k);
      }
    } else {
      JoinedParagraphs(group);
    }
  }

  lemma {:induction false} RenderAllFits(groups: seq<seq<string>>, maxChars: int, overlap: int)
    requires maxChars >= 1 && overlap >= 0
    requires forall g :: g in groups ==> GoodGroup(g, maxChars) && forall p :: p in g ==> IsParagraph(p)
    ensures AllFit(RenderAll(groups, maxChars, overlap), maxChars)
  {
    hide Render, IsParagraph;
    if groups != [] {
      assert groups[0] in groups && forall g :: g in groups[1..] ==> g in groups;
      RenderRecovers(groups[0], maxChars, overlap);
      RenderAllFits(groups[1..], maxChars, overlap);
    }
  }

  lemma {:induction false} InFlatten(groups: seq<seq<string>>, g: seq<string>, p: string)
    requires g in groups && p in g
    ensures p in Flatten(groups)
  {
    if groups[0] != g { InFlatten(groups[1..], g, p); }
  }

  /** The chunks of a text longer than the budget. */
  lemma LongTextLosesNothing(text: string, maxChars: int, overlap: int)
    requires maxChars >= 1 && overlap >= 0 && |Strip(text)| > maxChars
    ensures var paras := Paragraphs(Strip(text)); var groups := Grouped(paras, [], maxChars);
      && ChunkText(text, maxChars, overlap) == RenderAll(groups, maxChars, overlap)
      && Flatten(groups) == paras
      && (forall g :: g in groups ==>
            Recovers(Render(g, maxChars, overlap), g, maxChars - Step(maxChars, overlap)))
      && AllFit(ChunkText(text, maxChars, overlap), maxChars)
  {
    hide Grouped, Pack, Render, RenderAll, Recovers, Paragraphs, IsParagraph;
    var paras := Paragraphs(Strip(text));
    ParagraphsAreParagraphs(Strip(text));
    ParagraphsInked(paras);
    GroupsAreACut(paras, [], maxChars);
    PackRendersGroups(paras, [], maxChars, overlap);
    assert [] + paras == paras;
    var groups := Grouped(paras, [], maxChars);
    forall g | g in groups ensures GoodGroup(g, maxChars) && forall p :: p in g ==> IsParagraph(p) {
      forall p | p in g ensures IsParagraph(p) { InFlatten(groups, g, p); }
    }
    forall g | g in groups
      ensures Recovers(Render(g, maxChars, overlap), g, maxChars - Step(maxChars, overlap))
    {
      RenderRecovers(g, maxChars, overlap);
    }
    RenderAllFits(groups, maxChars, overlap);
  }

  /** The chunks are, in order, those of the groups, and each group is recovered from its own. */
  ghost predicate Restores(chunks: seq<string>, groups: seq<seq<string>>, drop: nat) {
    if groups == [] then chunks == []
    else
      exists n ::
        0 <= n <= |chunks| && Recovers(chunks[..n], groups[0], drop) && Restores(chunks[n..], groups[1..], drop)
  }

  lemma {:induction false} RenderAllRestores(groups: seq<seq<string>>, maxChars: int, overlap: int, drop: nat)
    requires forall g :: g in groups ==> Recovers(Render(g, maxChars, overlap), g, drop)
    ensures Restores(RenderAll(groups, maxChars, overlap), groups, drop)
  {
    hide Render, Recovers;
    if groups != [] {
      assert groups[0] in groups && forall g :: g in groups[1..] ==> g in groups;
      RenderAllRestores(groups[1..], maxChars, overlap, drop);
      var first, rest := Render(groups[0], maxChars, overlap), RenderAll(groups[1..], maxChars, overlap);
      assert (first + rest)[..|first|] == first && (first + rest)[|first|..] == rest;
    }
  }

  /** Which paragraphs of a text share their chunks: a text within the budget is one group. */
  function GroupsOf(text: string, maxChars: int): seq<seq<string>> {
    var cleaned := Strip(text);
    if cleaned == "" then []
    else if |cleaned| <= maxChars then [Paragraphs(cleaned)]
    else Grouped(Paragraphs(cleaned), [], maxChars)
  }

  /** For every text: every chunk has some text and fits, the chunks are those of consecutive
      groups of the paragraphs, and un-joining, or un-overlapping, the chunks of each group
      gives its paragraphs back in order. */
  lemma ChunkingLosesNothing(text: string, maxChars: int, overlap: int)
    requires maxChars >= 1 && overlap >= 0
    ensures Flatten(GroupsOf(text, maxChars)) == Paragraphs(Strip(text))
    ensures Restores(ChunkText(text, maxChars, overlap), GroupsOf(text, maxChars), maxChars - Step(maxChars, overlap))
    ensures AllFit(ChunkText(text, maxChars, overlap), maxChars)
  {
    hide Paragraphs, Recovers, Restores, AllFit, Flatten, RenderAll, Grouped, Pack, Strip;
    var cleaned, drop := Strip(text), maxChars - Step(maxChars, overlap);
    if |cleaned| > maxChars {
      LongTextLosesNothing(text, maxChars, overlap);
      RenderAllRestores(GroupsOf(text, maxChars), maxChars, overlap, drop);
    } else if cleaned != "" {
      OneGroup(cleaned, drop, maxChars);
    } else {
      NoParagraphs(drop, maxChars);
    }
  }

  lemma OneGroup(cleaned: string, drop: nat, maxChars: int)
    requires 0 < |cleaned| <= maxChars
    ensures Restores([cleaned], [Paragraphs(cleaned)], drop) && Flatten([Paragraphs(cleaned)]) == Paragraphs(cleaned)
    ensures AllFit([cleaned], maxChars)
  {
    hide Paragraphs;
    var groups := [Paragraphs(cleaned)];
    assert groups[1..] == [] && [cleaned][..1] == [cleaned] && [cleaned][1..] == [];
    assert Recovers([cleaned], groups[0], drop) && Restores([], [], drop);
  }

  lemma NoParagraphs(drop: nat, maxChars: int)
    ensures Paragraphs("") == [] && Flatten([]) == [] && Restores([], [], drop) && AllFit([], maxChars)
  {
  }

  lemma ParagraphsInked(paras: seq<string>)
    requires forall p :: p in paras ==> IsParagraph(p)
    ensures Inked(paras)
  {
  }

  // ----- no ink is lost between the text and its paragraphs -----

  /** The text without its white space. */
  function Ink(s: string): string {
    if s == "" then "" else (if IsSpace(s[0]) then "" else [s[0]]) + Ink(s[1..])
  }

  function InkOf(paras: seq<string>): string {
    if paras == [] then "" else Ink(paras[0]) + InkOf(paras[1..])
  }

  lemma {:induction false} InkJoins(a: string, b: string)
    ensures Ink(a + b) == Ink(a) + Ink(b)
  {
    if a == "" {
      assert a + b == b;
    } else {
      assert (a + b)[1..] == a[1..] + b;
      InkJoins(a[1..], b);
    }
  }

  lemma {:induction false} BlankHasNoInk(s: string)
    requires Blank(s)
    ensures Ink(s) == ""
  {
    if s != "" { BlankHasNoInk(s[1..]); }
  }

  lemma StripKeepsInk(s: string)
    ensures Ink(Strip(s)) == Ink(s)
  {
    var lo, hi := StripPart(s);
    assert s == s[..lo] + s[lo..hi] + s[hi..];
    InkJoins(s[..lo] + s[lo..hi], s[hi..]);
    InkJoins(s[..lo], s[lo..hi]);
    BlankHasNoInk(s[..lo]);
    BlankHasNoInk(s[hi..]);
  }

  lemma InkOfCons(p: string, paras: seq<string>)
    ensures InkOf([p] + paras) == Ink(p) + InkOf(paras)
  {
    assert ([p] + paras)[1..] == paras;
  }

  lemma {:induction false} KeptKeepInk(pieces: seq<string>)
    ensures InkOf(Kept(pieces)) == InkOf(pieces)
  {
    hide Strip, Ink;
    if pieces != [] {
      var p, rest := Strip(pieces[0]), pieces[1..];
      KeptKeepInk(rest);
      StripKeepsInk(pieces[0]);
      if p == "" {
        NoInk();
        assert Kept(pieces) == Kept(rest) && InkOf(pieces) == "" + InkOf(rest);
      } else {
        InkOfCons(p, Kept(rest));
      }
    }
  }

  lemma NoInk()
    ensures Ink("") == ""
  {
  }

  lemma {:induction false} SplitKeepsInk(s: string)
    ensures InkOf(SplitAtBreaks(s)) == Ink(s)
    decreases |s|
  {
    hide Ink, MatchEnd, FirstMatch;
    var k := FirstMatch(s, 0);
    if k == |s| {
      InkOfCons(s, []);
      assert [s] + [] == [s];
    } else {
      var e := MatchEnd(s, k);
      SplitKeepsInk(s[e..]);
      InkOfCons(s[..k], SplitAtBreaks(s[e..]));
      assert s == s[..k] + s[k..e] + s[e..];
      InkJoins(s[..k] + s[k..e], s[e..]);
      InkJoins(s[..k], s[k..e]);
      BreakIsBlank(s, k, e - 1);
      BlankHasNoInk(s[k..e]);
    }
  }

  lemma BreakIsBlank(s: string, i: int, j: int)
    requires BreakBetween(s, i, j)
    ensures Blank(s[i..j + 1])
  {
  }

  /** The paragraphs hold every character of the text that is not white space, in order. */
  lemma ParagraphsKeepInk(s: string)
    ensures InkOf(Paragraphs(s)) == Ink(s)
  {
    SplitKeepsInk(s);
    KeptKeepInk(SplitAtBreaks(s));
  }

  // ----- the program -----

  lemma WindowsUnfoldAny(text: string, maxChars: int, step: nat, start: nat)
    requires step >= 1 && start < |text|
    ensures var piece := Slice(text, start, start + maxChars);
      WindowsFrom(text, maxChars, step, start) ==
        (if piece == "" then [] else [piece]) +
        (if start + maxChars >= |text| then [] else WindowsFrom(text, maxChars, step, start + step))
  {
  }

  method HardSplitLoop(text: string, maxChars: int, overlap: int) returns (out: seq<string>)
    ensures out == HardSplit(text, maxChars, overlap)
  {
    hide WindowsFrom, Slice;
    var step := Step(maxChars, overlap);
    out := [];
    var start := 0;
    while start < |text|
      invariant out + WindowsFrom(text, maxChars, step, start) == HardSplit(text, maxChars, overlap)
      decreases |text| - start
    {
      WindowsUnfoldAny(text, maxChars, step, start);
      var piece := Slice(text, start, start + maxChars);
      if piece != "" {
        out := out + [piece];
      }
      if start + maxChars >= |text| {
        return;
      }
      start := start + step;
    }
  }

  method ChunkTextLoop(text: string, maxChars: int, overlap: int) returns (chunks: seq<string>)
    ensures chunks == ChunkText(text, maxChars, overlap)
  {
    var cleaned := Strip(text);
    if cleaned == "" { return []; }
    if |cleaned| <= maxChars { return [cleaned]; }
    chunks := PackLoop(Paragraphs(cleaned), maxChars, overlap);
  }

  method PackLoop(paragraphs: seq<string>, maxChars: int, overlap: int) returns (chunks: seq<string>)
    ensures chunks == Pack(paragraphs, "", maxChars, overlap)
  {
    hide HardSplit, Pack;
    chunks := [];
    var current := "";
    assert paragraphs[0..] == paragraphs;
    for i := 0 to |paragraphs|
      invariant chunks + Pack(paragraphs[i..], current, maxChars, overlap) == Pack(paragraphs, "", maxChars, overlap)
    {
      var para := paragraphs[i];
      PackUnfolds(paragraphs, i, current, maxChars, overlap);
      if |para| > maxChars {
        if current != "" {
          chunks := chunks + [current];
          current := "";
        }
        var windows := HardSplitLoop(para, maxChars, overlap);
        chunks := chunks + windows;
        continue;
      }
      var candidate := if current != "" then current + "\n\n" + para else para;
      if |candidate| <= maxChars {
        current := candidate;
      } else {
        if current != "" {
          chunks := chunks + [current];
        }
        current := para;
      }
    }
    assert paragraphs[|paragraphs|..] == [];
    PackEnds(current, maxChars, overlap);
    if current != "" {
      chunks := chunks + [current];
    }
  }

  lemma PackEnds(current: string, maxChars: int, overlap: int)
    ensures Pack([], current, maxChars, overlap) == if current == "" then [] else [current]
  {
  }

  lemma PackUnfolds(paras: seq<string>, i: nat, current: string, maxChars: int, overlap: int)
    requires i < |paras|
    ensures var open, para := if current == "" then [] else [current], paras[i];
      var candidate := if current == "" then para else current + "\n\n" + para;
      Pack(paras[i..], current, maxChars, overlap) ==
        if |para| > maxChars
        then open + HardSplit(para, maxChars, overlap) + Pack(paras[i + 1..], "", maxChars, overlap)
        else if |candidate| <= maxChars then Pack(paras[i + 1..], candidate, maxChars, overlap)
        else open + Pack(paras[i + 1..], para, maxChars, overlap)
  {
    assert paras[i..][1..] == paras[i + 1..];
  }
}
