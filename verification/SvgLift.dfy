/** Lifting bare svg markup out of prose into a fenced block before Markdown is parsed
    (frontend/src/components/Markdown.tsx, liftInlineSvg). */
module SvgLift {

  const GAP := "\n\n"
  const OPENING := "```svg\n"
  const CLOSING := "\n```"

  predicate FenceAt(s: string, k: int) {
    0 <= k && k + 3 <= |s| && s[k] == '`' && s[k + 1] == '`' && s[k + 2] == '`'
  }

  /** `<svg` and `</svg>` in any case. */
  predicate OpenAt(s: string, k: int) {
    0 <= k && k + 4 <= |s| && s[k] == '<' && s[k + 1] in "sS" && s[k + 2] in "vV" && s[k + 3] in "gG"
  }

  predicate CloseAt(s: string, k: int) {
    0 <= k && k + 6 <= |s| && s[k] == '<' && s[k + 1] == '/' && s[k + 2] in "sS" && s[k + 3] in "vV"
    && s[k + 4] in "gG" && s[k + 5] == '>'
  }

  function FindFence(s: string, from: nat): (k: nat)
    requires from <= |s|
    ensures from <= k <= |s|
    ensures k < |s| ==> FenceAt(s, k)
    ensures forall j :: from <= j < k ==> !FenceAt(s, j)
    decreases |s| - from
  {
    if from == |s| || FenceAt(s, from) then from else FindFence(s, from + 1)
  }

  function FindOpen(s: string, from: nat): (k: nat)
    requires from <= |s|
    ensures from <= k <= |s|
    ensures k < |s| ==> OpenAt(s, k)
    ensures forall j :: from <= j < k ==> !OpenAt(s, j)
    decreases |s| - from
  {
    if from == |s| || OpenAt(s, from) then from else FindOpen(s, from + 1)
  }

  function FindClose(s: string, from: nat): (k: nat)
    requires from <= |s|
    ensures from <= k <= |s|
    ensures k < |s| ==> CloseAt(s, k)
    ensures forall j :: from <= j < k ==> !CloseAt(s, j)
    decreases |s| - from
  {
    if from == |s| || CloseAt(s, from) then from else FindClose(s, from + 1)
  }

  /** Start and end of the first complete svg, or the length twice. */
  function FirstSvg(s: string): (span: (nat, nat))
    ensures span.0 <= span.1 <= |s|
    ensures span.0 < |s| ==> span.0 + 10 <= span.1 && OpenAt(s, span.0) && CloseAt(s, span.1 - 6)
  {
    var i := FindOpen(s, 0);
    if i == |s| then (|s|, |s|)
    else
      var j := FindClose(s, i + 4);
      if j == |s| then (|s|, |s|) else (i, j + 6)
  }

  /** The regular expression replacement: leftmost, shortest, not overlapping. */
  function Wrap(s: string): string
    decreases |s|
  {
    var (i, j) := FirstSvg(s);
    if i == |s| then s else s[..i] + (GAP + OPENING) + s[i..j] + (CLOSING + GAP) + Wrap(s[j..])
  }

  /** Splitting on closed fences: the fences are at the odd positions. */
  function Pieces(md: string): (r: seq<string>)
    ensures |r| % 2 == 1
    decreases |md|
  {
    var i := FindFence(md, 0);
    if i == |md| then [md]
    else
      var j := FindFence(md, i + 3);
      if j == |md| then [md] else [md[..i], md[i..j + 3]] + Pieces(md[j + 3..])
  }

  function LiftProse(part: string): string {
    var fence := FindFence(part, 0);
    if fence == |part| then Wrap(part) else Wrap(part[..fence]) + part[fence..]
  }

  function LiftPieces(pieces: seq<string>): string
    requires |pieces| % 2 == 1
  {
    if |pieces| == 1 then LiftProse(pieces[0])
    else LiftProse(pieces[0]) + pieces[1] + LiftPieces(pieces[2..])
  }

  predicate MentionAt(md: string, k: int) { 0 <= k && k + 4 <= |md| && md[k..k + 4] == "<svg" }

  predicate Mentions(md: string) {
    exists k :: 0 <= k <= |md| && MentionAt(md, k)
  }

  function LiftInlineSvg(md: string): string {
    if Mentions(md) then Lift(md) else md
  }

  function Lift(md: string): string { LiftPieces(Pieces(md)) }

  // ----- one element -----

  /** The element starts at the first opening tag and ends with the first closing tag behind it. */
  ghost predicate ElementAt(s: string, i: int, j: int) {
    && 0 <= i && i + 10 <= j <= |s| && OpenAt(s, i) && CloseAt(s, j - 6)
    && (forall k :: 0 <= k < i ==> !OpenAt(s, k))
    && (forall k :: i + 4 <= k < j - 6 ==> !CloseAt(s, k))
  }

  /** It becomes the body of a fence of its own between blank lines; what is before it stays,
      and the rest is treated alike. */
  lemma ElementIsFenced(s: string, i: nat, j: nat)
    requires ElementAt(s, i, j)
    ensures Wrap(s) == s[..i] + "\n\n```svg\n" + s[i..j] + "\n```\n\n" + Wrap(s[j..])
  {
    hide FirstSvg;
    FirstElement(s, i, j);
    Marks();
  }

  lemma FirstElement(s: string, i: nat, j: nat)
    requires ElementAt(s, i, j)
    ensures FirstSvg(s) == (i, j) && i < |s|
  {
    hide FindOpen, FindClose;
    assert FindOpen(s, 0) == i;
    assert FindClose(s, i + 4) == j - 6;
  }

  lemma Marks()
    ensures GAP + OPENING == "\n\n```svg\n" && CLOSING + GAP == "\n```\n\n"
  {
  }

  /** The tags are spelled in either case. */
  lemma TagsInAnyCase(s: string, k: nat)
    ensures OpenAt(s, k) <==>
              k + 4 <= |s| && s[k] == '<' && Letter(s[k + 1], 's') && Letter(s[k + 2], 'v') && Letter(s[k + 3], 'g')
    ensures CloseAt(s, k) <==>
              && k + 6 <= |s| && s[k] == '<' && s[k + 1] == '/' && Letter(s[k + 2], 's') && Letter(s[k + 3], 'v')
              && Letter(s[k + 4], 'g') && s[k + 5] == '>'
  {
  }

  /** The character is the letter, small or capital. */
  predicate Letter(c: char, small: char)
    requires 'a' <= small <= 'z'
  {
    c == small || (c as int) + 32 == small as int
  }

  // ----- fences -----

  predicate NoFence(s: string) { forall k :: 0 <= k < |s| ==> !FenceAt(s, k) }

  /** Three backticks, a body, and the first three backticks after them. */
  predicate ClosedFence(f: string) {
    6 <= |f| && FenceAt(f, 0) && FindFence(f, 3) == |f| - 3
  }

  /** Prose that a fence can follow without growing backwards. */
  predicate Prose(p: string) { NoFence(p) && (p == "" || p[|p| - 1] != '`') }

  lemma FindFenceIs(s: string, from: nat, k: nat)
    requires from <= k <= |s| && (k < |s| ==> FenceAt(s, k))
    requires forall j :: from <= j < k ==> !FenceAt(s, j)
    ensures FindFence(s, from) == k
  {
  }

  lemma FencesOf(p: string, f: string, rest: string)
    requires Prose(p) && ClosedFence(f)
    ensures FindFence(p + f + rest, 0) == |p| && FindFence(p + f + rest, |p| + 3) == |p| + |f| - 3
  {
    hide FindFence;
    var md := p + f + rest;
    assert forall k :: 0 <= k < |f| ==> md[|p| + k] == f[k];
    assert forall k :: 0 <= k < |p| ==> md[k] == p[k];
    forall k | 0 <= k < |p| ensures !FenceAt(md, k) { assert !FenceAt(p, k); }
    FindFenceIs(md, 0, |p|);
    forall k | |p| + 3 <= k < |p| + |f| - 3 ensures !FenceAt(md, k) { assert !FenceAt(f, k - |p|); }
    FindFenceIs(md, |p| + 3, |p| + |f| - 3);
  }

  lemma PiecesAtFence(p: string, f: string, rest: string)
    requires Prose(p) && ClosedFence(f)
    ensures Pieces(p + f + rest) == [p, f] + Pieces(rest)
  {
    hide FindFence, ClosedFence;
    FencesOf(p, f, rest);
    var md := p + f + rest;
    assert md[..|p|] == p && md[|p|..|p| + |f|] == f && md[|p| + |f|..] == rest;
  }

  lemma LiftAtFence(p: string, f: string, rest: string)
    requires Prose(p) && ClosedFence(f)
    ensures Lift(p + f + rest) == Wrap(p) + f + Lift(rest)
  {
    hide FindFence, ClosedFence, Wrap, Pieces;
    PiecesAtFence(p, f, rest);
    var pieces := [p, f] + Pieces(rest);
    assert pieces[2..] == Pieces(rest);
    assert FindFence(p, 0) == |p|;
  }

  lemma LiftWithoutFence(p: string)
    requires NoFence(p)
    ensures Lift(p) == Wrap(p)
  {
    FindFenceIs(p, 0, |p|);
  }

  lemma LiftAtOpenFence(p: string, t: string)
    requires Prose(p) && FenceAt(t, 0) && FindFence(t, 3) == |t|
    ensures Lift(p + t) == Wrap(p) + t
  {
    hide FindFence;
    var md := p + t;
    assert forall k :: 0 <= k < |t| ==> md[|p| + k] == t[k];
    assert forall k :: 0 <= k < |p| ==> md[k] == p[k];
    forall k | 0 <= k < |p| ensures !FenceAt(md, k) { assert !FenceAt(p, k); }
    FindFenceIs(md, 0, |p|);
    forall k | |p| + 3 <= k < |md| ensures !FenceAt(md, k) { assert !FenceAt(t, k - |p|); }
    FindFenceIs(md, |p| + 3, |md|);
    assert Pieces(md) == [md];
    assert md[..|p|] == p && md[|p|..] == t;
  }

  /** A fence that closes: itself, and what is behind it. */
  lemma CutClosed(t: string)
    requires FenceAt(t, 0) && FindFence(t, 3) < |t|
    ensures var n := FindFence(t, 3) + 3; ClosedFence(t[..n]) && t == t[..n] + t[n..]
  {
    hide FindFence, ClosedFence;
    ClosesAt(t, FindFence(t, 3));
    Halves(t, FindFence(t, 3) + 3);
  }

  lemma Halves(t: string, n: nat)
    requires n <= |t|
    ensures t == t[..n] + t[n..]
  {
  }

  lemma ClosesAt(t: string, j: nat)
    requires FenceAt(t, 0) && 3 <= j && FenceAt(t, j) && forall k :: 3 <= k < j ==> !FenceAt(t, k)
    ensures ClosedFence(t[..j + 3])
  {
    hide FindFence;
    FenceInPrefix(t, j + 3);
    FindFenceIs(t[..j + 3], 3, j);
  }

  lemma FenceInPrefix(t: string, n: nat)
    requires n <= |t|
    ensures forall k :: FenceAt(t[..n], k) <==> FenceAt(t, k) && k + 3 <= n
  {
  }

  /** The text up to the first fence. */
  lemma CutProse(md: string)
    ensures var i := FindFence(md, 0); Follows(md[..i], md[i..]) && md == md[..i] + md[i..]
  {
    hide FindFence;
    var i := FindFence(md, 0);
    forall k | 0 <= k < i ensures !FenceAt(md[..i], k) { assert !FenceAt(md, k); }
    assert 0 < i < |md| ==> !FenceAt(md, i - 1);
  }

  /** What may stand behind prose: nothing, or a fence that does not start in the prose. */
  predicate Follows(p: string, rest: string) {
    NoFence(p) && (rest == "" || (FenceAt(rest, 0) && Prose(p)))
  }

  lemma LiftBefore(p: string, rest: string)
    requires Follows(p, rest)
    ensures Lift(p + rest) == Wrap(p) + Lift(rest)
  {
    hide FindFence, Wrap, Lift;
    NoPieces();
    if rest == "" {
      assert p + rest == p;
      LiftWithoutFence(p);
    } else {
      var j := FindFence(rest, 3);
      if j == |rest| {
        LiftAtOpenFence(p, rest);
        LiftAtOpenFence("", rest);
        assert "" + rest == rest;
      } else {
        CutClosed(rest);
        var f, more := rest[..j + 3], rest[j + 3..];
        LiftAtFence(p, f, more);
        LiftAtFence("", f, more);
        assert p + f + more == p + rest && "" + f + more == rest;
        assert Wrap(p) + f + Lift(more) == Wrap(p) + (f + Lift(more));
      }
    }
  }

  lemma NoPieces()
    ensures Lift("") == "" && Wrap("") == ""
  {
  }

  // ----- svg in prose -----

  predicate NoOpen(s: string) { forall k :: 0 <= k < |s| ==> !OpenAt(s, k) }

  lemma ShiftBy(pre: string, s: string)
    requires pre == "" || pre == GAP
    ensures forall k :: 0 <= k < |s| ==> (pre + s)[k + |pre|] == s[k]
    ensures forall k :: 0 <= k < |pre| ==> (pre + s)[k] == '\n'
  {
  }

  lemma OpenMoves(pre: string, s: string)
    requires pre == "" || pre == GAP
    ensures forall k :: OpenAt(pre + s, k) <==> OpenAt(s, k - |pre|)
  {
    ShiftBy(pre, s);
    if pre == "" { assert pre + s == s; }
  }

  lemma CloseMoves(pre: string, s: string)
    requires pre == "" || pre == GAP
    ensures forall k :: CloseAt(pre + s, k) <==> CloseAt(s, k - |pre|)
  {
    ShiftBy(pre, s);
    if pre == "" { assert pre + s == s; }
  }

  lemma FenceMoves(pre: string, s: string)
    requires pre == "" || pre == GAP
    ensures forall k :: FenceAt(pre + s, k) <==> FenceAt(s, k - |pre|)
  {
    ShiftBy(pre, s);
    if pre == "" { assert pre + s == s; }
  }

  /** Prose without a complete svg. */
  lemma NothingToWrap(pre: string, s: string)
    requires pre == "" || pre == GAP
    requires FirstSvg(s).0 == |s|
    ensures Wrap(pre + s) == pre + s
  {
    hide FindOpen, FindClose, CloseAt;
    OpenMoves(pre, s);
    CloseMoves(pre, s);
    var i := FindOpen(s, 0);
    assert FindOpen(pre + s, 0) >= |pre| + i;
  }

  lemma GapIsProse(pre: string, g: string)
    requires pre == "" || pre == GAP
    requires NoOpen(g) && NoFence(g)
    ensures Wrap(pre + g + GAP) == pre + g + GAP && Prose(pre + g + GAP)
  {
    var p := pre + g + GAP;
    OpenMoves(pre, g);
    FenceMoves(pre, g);
    assert forall k :: 0 <= k < |pre + g| ==> p[k] == (pre + g)[k];
    forall k | 0 <= k < |p| ensures !OpenAt(p, k) && !FenceAt(p, k) {
      assert OpenAt(p, k) ==> OpenAt(pre + g, k);
      assert FenceAt(p, k) ==> FenceAt(pre + g, k);
    }
    assert FindOpen(p, 0) == |p|;
  }

  lemma WrappedIsFence(m: string)
    requires NoFence(m)
    ensures ClosedFence(OPENING + m + CLOSING)
  {
    hide FindFence;
    var f := OPENING + m + CLOSING;
    assert forall k :: 0 <= k < |m| ==> f[7 + k] == m[k];
    assert f[0] == '`' && f[1] == '`' && f[2] == '`';
    forall k | 3 <= k < |f| - 3 ensures !FenceAt(f, k) {
      assert f[|f| - 4] == '\n' && f[3] == 's' && f[4] == 'v' && f[5] == 'g' && f[6] == '\n';
      assert FenceAt(f, k) ==> FenceAt(m, k - 7);
    }
    assert FenceAt(f, |f| - 3);
    FindFenceIs(f, 3, |f| - 3);
  }

  lemma NoFenceInside(s: string, i: nat, j: nat)
    requires NoFence(s) && i <= j <= |s|
    ensures NoFence(s[i..j])
  {
    forall k | 0 <= k < j - i ensures !FenceAt(s[i..j], k) { assert !FenceAt(s, i + k); }
  }

  /** The text of one wrapping step. */
  lemma WrapStep(s: string)
    requires FirstSvg(s).0 < |s|
    ensures var (i, j) := FirstSvg(s);
      NoOpen(s[..i]) && Wrap(s) == s[..i] + GAP + (OPENING + s[i..j] + CLOSING) + (GAP + Wrap(s[j..]))
  {
    hide FirstSvg, NoOpen, OpenAt, CloseAt;
    var (i, j) := FirstSvg(s);
    NoneBefore(s);
    Regroup(s[..i], GAP, OPENING, s[i..j], CLOSING, Wrap(s[j..]));
  }

  lemma NoneBefore(s: string)
    requires FirstSvg(s).0 < |s|
    ensures NoOpen(s[..FirstSvg(s).0])
  {
    hide FindOpen, FindClose, CloseAt;
    var i := FirstSvg(s).0;
    assert forall k :: 0 <= k < i && OpenAt(s[..i], k) ==> OpenAt(s, k);
  }

  lemma Regroup(a: string, g: string, o: string, m: string, c: string, w: string)
    ensures a + (g + o) + m + (c + g) + w == a + g + (o + m + c) + (g + w)
  {
  }

  lemma Reassociate(pre: string, a: string, g: string, f: string, w: string, rest: string)
    ensures pre + (a + g + f + w) + rest == pre + a + g + f + (w + rest)
  {
  }

  /** Lifting again leaves wrapped prose as it is and goes on behind it. */
  lemma {:induction false} WrappedSettles(pre: string, s: string, rest: string)
    requires pre == "" || pre == GAP
    requires Follows(s, rest)
    ensures Lift(pre + Wrap(s) + rest) == pre + Wrap(s) + Lift(rest)
    decreases |s|
  {
    hide Lift, Wrap, FirstSvg, ClosedFence, Prose;
    var (i, j) := FirstSvg(s);
    if i == |s| {
      PlainSettles(pre, s, rest);
    } else {
      var p, f, tail := pre + s[..i] + GAP, OPENING + s[i..j] + CLOSING, s[j..];
      WrapStep(s);
      NoFenceInside(s, 0, i);
      NoFenceInside(s, i, j);
      GapIsProse(pre, s[..i]);
      WrappedIsFence(s[i..j]);
      TailFollows(s, j, rest);
      WrappedSettles(GAP, tail, rest);
      LiftAtFence(p, f, GAP + Wrap(tail) + rest);
      Reassociate(pre, s[..i], GAP, f, GAP + Wrap(tail), rest);
      Reassociate(pre, s[..i], GAP, f, GAP + Wrap(tail), Lift(rest));
    }
  }

  lemma TailFollows(s: string, j: nat, rest: string)
    requires Follows(s, rest) && j <= |s|
    ensures Follows(s[j..], rest)
  {
    NoFenceInside(s, j, |s|);
    assert s[j..] == s[j..|s|];
  }

  lemma PlainSettles(pre: string, s: string, rest: string)
    requires pre == "" || pre == GAP
    requires Follows(s, rest) && FirstSvg(s).0 == |s|
    ensures Lift(pre + Wrap(s) + rest) == pre + Wrap(s) + Lift(rest)
  {
    hide Lift, Wrap, Follows, FirstSvg;
    NothingToWrap(pre, s);
    NothingToWrap("", s);
    assert "" + s == s;
    GapBefore(pre, s, rest);
    LiftBefore(pre + s, rest);
  }

  lemma GapBefore(pre: string, s: string, rest: string)
    requires pre == "" || pre == GAP
    requires Follows(s, rest)
    ensures Follows(pre + s, rest)
  {
    FenceMoves(pre, s);
  }

  /** There is something to wrap exactly when an opening tag is followed by a closing one. */
  lemma WrapsIff(s: string)
    ensures FirstSvg(s).0 < |s| <==> exists i, j :: OpenAt(s, i) && CloseAt(s, j) && i + 4 <= j
  {
    hide FindOpen, FindClose;
    var i := FindOpen(s, 0);
    if i < |s| && FindClose(s, i + 4) < |s| {
      assert OpenAt(s, i) && CloseAt(s, FindClose(s, i + 4));
    }
  }

  // ----- idempotence -----

  lemma {:induction false} LiftTwice(md: string)
    ensures Lift(Lift(md)) == Lift(md)
    decreases |md|
  {
    hide Lift, Wrap, FindFence, ClosedFence, Prose;
    var i := FindFence(md, 0);
    var p, rest := md[..i], md[i..];
    CutProse(md);
    LiftBefore(p, rest);
    if rest == "" {
      NoPieces();
      WrappedSettles("", p, "");
      assert "" + Wrap(p) + "" == Wrap(p);
      assert Wrap(p) + Lift("") == Wrap(p);
    } else if FindFence(rest, 3) == |rest| {
      OpenTail(rest);
      WrappedSettles("", p, rest);
      assert "" + Wrap(p) + rest == Wrap(p) + rest;
    } else {
      var n := FindFence(rest, 3) + 3;
      CutClosed(rest);
      LiftClosed(rest[..n], rest[n..]);
      LiftTwice(rest[n..]);
      LiftClosed(rest[..n], Lift(rest[n..]));
      KeepsFollowing(p, rest, rest[..n] + Lift(rest[n..]));
      WrappedSettles("", p, rest[..n] + Lift(rest[n..]));
      assert "" + Wrap(p) + (rest[..n] + Lift(rest[n..])) == Lift(md);
    }
  }

  lemma OpenTail(t: string)
    requires FenceAt(t, 0) && FindFence(t, 3) == |t|
    ensures Lift(t) == t
  {
    hide FindFence, Lift;
    NoPieces();
    LiftAtOpenFence("", t);
    assert "" + t == t;
  }

  lemma LiftClosed(f: string, rest: string)
    requires ClosedFence(f)
    ensures Lift(f + rest) == f + Lift(rest)
  {
    hide ClosedFence, Lift;
    NoPieces();
    LiftAtFence("", f, rest);
    assert "" + f + rest == f + rest;
  }

  lemma KeepsFollowing(p: string, rest: string, other: string)
    requires Follows(p, rest) && FenceAt(rest, 0) && |other| >= 3 && other[..3] == rest[..3]
    ensures Follows(p, other)
  {
    assert forall k :: 0 <= k < 3 ==> other[k] == other[..3][k] == rest[k];
  }

  /** Lifting twice is lifting once. */
  lemma Idempotent(md: string)
    ensures LiftInlineSvg(LiftInlineSvg(md)) == LiftInlineSvg(md)
  {
    LiftTwice(md);
  }

  // ----- nothing is lost -----

  /** What the output is made of: text of the input as it is, and wrapped svg markup. */
  datatype Chunk = Kept(text: string) | Wrapped(svg: string)

  function WrapChunks(s: string): seq<Chunk>
    decreases |s|
  {
    var (i, j) := FirstSvg(s);
    if i == |s| then [Kept(s)] else [Kept(s[..i]), Wrapped(s[i..j])] + WrapChunks(s[j..])
  }

  function Chunks(md: string): seq<Chunk>
    decreases |md|
  {
    var i := FindFence(md, 0);
    if i == |md| then WrapChunks(md)
    else
      var j := FindFence(md, i + 3);
      if j == |md| then WrapChunks(md[..i]) + [Kept(md[i..])]
      else WrapChunks(md[..i]) + [Kept(md[i..j + 3])] + Chunks(md[j + 3..])
  }

  function PlainOf(c: Chunk): string {
    match c case Kept(t) => t case Wrapped(m) => m
  }

  function RenderedOf(c: Chunk): string {
    match c case Kept(t) => t case Wrapped(m) => GAP + OPENING + m + CLOSING + GAP
  }

  /** The chunks without the wrappers. */
  function Plain(chunks: seq<Chunk>): string {
    if chunks == [] then "" else PlainOf(chunks[0]) + Plain(chunks[1..])
  }

  function Rendered(chunks: seq<Chunk>): string {
    if chunks == [] then "" else RenderedOf(chunks[0]) + Rendered(chunks[1..])
  }

  /** One svg element, ending at its first closing tag. */
  predicate CompleteSvg(m: string) {
    10 <= |m| && OpenAt(m, 0) && CloseAt(m, |m| - 6) && forall k :: 4 <= k < |m| - 6 ==> !CloseAt(m, k)
  }

  predicate AllComplete(chunks: seq<Chunk>) {
    forall k :: 0 <= k < |chunks| && chunks[k].Wrapped? ==> CompleteSvg(chunks[k].svg)
  }

  lemma {:induction false} ChunksAppend(a: seq<Chunk>, b: seq<Chunk>)
    ensures Plain(a + b) == Plain(a) + Plain(b) && Rendered(a + b) == Rendered(a) + Rendered(b)
  {
    hide PlainOf, RenderedOf;
    if a == [] {
      assert a + b == b;
    } else {
      assert (a + b)[1..] == a[1..] + b && (a + b)[0] == a[0];
      ChunksAppend(a[1..], b);
      Associate(PlainOf(a[0]), Plain(a[1..]), Plain(b));
      Associate(RenderedOf(a[0]), Rendered(a[1..]), Rendered(b));
    }
  }

  lemma Associate(a: string, b: string, c: string)
    ensures (a + b) + c == a + (b + c)
  {
  }

  lemma OneChunk(c: Chunk)
    ensures Plain([c]) == PlainOf(c) && Rendered([c]) == RenderedOf(c)
  {
    hide PlainOf, RenderedOf;
    assert [c][1..] == [];
  }

  lemma KeptAndWrapped(t: string, m: string)
    ensures Plain([Kept(t), Wrapped(m)]) == t + m
    ensures Rendered([Kept(t), Wrapped(m)]) == t + (GAP + OPENING + m + CLOSING + GAP)
  {
    OneChunk(Kept(t));
    OneChunk(Wrapped(m));
    ChunksAppend([Kept(t)], [Wrapped(m)]);
    assert [Kept(t), Wrapped(m)] == [Kept(t)] + [Wrapped(m)];
  }

  lemma FirstSvgIsComplete(s: string)
    requires FirstSvg(s).0 < |s|
    ensures CompleteSvg(s[FirstSvg(s).0..FirstSvg(s).1])
  {
    hide FindOpen, FindClose;
    var (i, j) := FirstSvg(s);
    var m := s[i..j];
    assert forall k :: 0 <= k < |m| ==> m[k] == s[i + k];
    forall k | 4 <= k < |m| - 6 ensures !CloseAt(m, k) { assert !CloseAt(s, i + k); }
  }

  lemma {:induction false} WrapChunksAreWrap(s: string)
    ensures Plain(WrapChunks(s)) == s && Rendered(WrapChunks(s)) == Wrap(s) && AllComplete(WrapChunks(s))
    decreases |s|
  {
    hide FirstSvg, CompleteSvg, Plain, Rendered, AllComplete;
    var (i, j) := FirstSvg(s);
    if i == |s| {
      OneChunk(Kept(s));
      KeptIsComplete(s);
    } else {
      WrapChunksAreWrap(s[j..]);
      FirstSvgIsComplete(s);
      ThenWrapped(s[..i], s[i..j], WrapChunks(s[j..]));
      assert s == s[..i] + s[i..j] + s[j..];
    }
  }

  lemma KeptIsComplete(t: string)
    ensures AllComplete([Kept(t)])
  {
  }

  lemma ThenWrapped(t: string, m: string, b: seq<Chunk>)
    ensures Plain([Kept(t), Wrapped(m)] + b) == t + m + Plain(b)
    ensures Rendered([Kept(t), Wrapped(m)] + b) == t + (GAP + OPENING) + m + (CLOSING + GAP) + Rendered(b)
    ensures CompleteSvg(m) && AllComplete(b) ==> AllComplete([Kept(t), Wrapped(m)] + b)
  {
    hide Plain, Rendered, CompleteSvg;
    KeptAndWrapped(t, m);
    ChunksAppend([Kept(t), Wrapped(m)], b);
    RegroupRendered(t, m, Rendered(b));
  }

  lemma RegroupRendered(a: string, m: string, w: string)
    ensures a + (GAP + OPENING) + m + (CLOSING + GAP) + w == a + (GAP + OPENING + m + CLOSING + GAP) + w
  {
    Bracket(a, GAP, OPENING, m, CLOSING, w);
  }

  lemma Bracket(a: string, g: string, o: string, m: string, c: string, w: string)
    ensures a + (g + o) + m + (c + g) + w == a + (g + o + m + c + g) + w
  {
  }

  /** Leaving the wrappers out gives the input back, putting them in gives the output, and
      what is wrapped is always one complete svg element. */
  lemma {:induction false} LiftIsConservative(md: string)
    ensures Plain(Chunks(md)) == md && Rendered(Chunks(md)) == Lift(md) && AllComplete(Chunks(md))
    decreases |md|
  {
    hide Wrap, WrapChunks, FindFence, Lift, AllComplete, ClosedFence, Prose, Plain, Rendered, Follows;
    NoChunks();
    var i := FindFence(md, 0);
    var p := md[..i];
    CutProse(md);
    WrapChunksAreWrap(p);
    if i == |md| {
      assert p == md;
      LiftWithoutFence(md);
    } else {
      var j := FindFence(md, i + 3);
      FenceFrom(md, i, j);
      if j == |md| {
        LiftAtOpenFence(p, md[i..]);
        ThenKept(WrapChunks(p), md[i..], []);
        assert WrapChunks(p) + [Kept(md[i..])] + [] == WrapChunks(p) + [Kept(md[i..])];
      } else {
        var f, rest := md[i..j + 3], md[j + 3..];
        LiftIsConservative(rest);
        LiftAtFence(p, f, rest);
        ThenKept(WrapChunks(p), f, Chunks(rest));
        assert md == p + f + rest;
      }
    }
  }

  lemma NoChunks()
    ensures Plain([]) == "" && Rendered([]) == "" && AllComplete([])
  {
  }

  lemma ThenKept(a: seq<Chunk>, t: string, b: seq<Chunk>)
    ensures Plain(a + [Kept(t)] + b) == Plain(a) + t + Plain(b)
    ensures Rendered(a + [Kept(t)] + b) == Rendered(a) + t + Rendered(b)
    ensures AllComplete(a) && AllComplete(b) ==> AllComplete(a + [Kept(t)] + b)
  {
    hide Plain, Rendered, CompleteSvg;
    OneChunk(Kept(t));
    ChunksAppend(a, [Kept(t)]);
    ChunksAppend(a + [Kept(t)], b);
  }

  /** The same fence seen from its own start. */
  lemma FenceFrom(md: string, i: nat, j: nat)
    requires i == FindFence(md, 0) < |md| && j == FindFence(md, i + 3)
    ensures FenceAt(md[i..], 0) && Prose(md[..i])
    ensures j == |md| ==> FindFence(md[i..], 3) == |md[i..]|
    ensures j < |md| ==> ClosedFence(md[i..j + 3])
  {
    hide FindFence;
    CutProse(md);
    var t := md[i..];
    forall k | 3 <= k < j - i ensures !FenceAt(t, k) { assert !FenceAt(md, i + k); }
    if j < |md| {
      assert FenceAt(t, j - i);
      FindFenceIs(t, 3, j - i);
      CutClosed(t);
      assert t[..j - i + 3] == md[i..j + 3];
    } else {
      FindFenceIs(t, 3, |t|);
    }
  }

  function WrappedCount(chunks: seq<Chunk>): nat {
    if chunks == [] then 0 else (if chunks[0].Wrapped? then 1 else 0) + WrappedCount(chunks[1..])
  }

  lemma {:induction false} RenderedLength(chunks: seq<Chunk>)
    ensures |Rendered(chunks)| == |Plain(chunks)| + 15 * WrappedCount(chunks)
    ensures WrappedCount(chunks) == 0 ==> Rendered(chunks) == Plain(chunks)
  {
    if chunks != [] {
      RenderedLength(chunks[1..]);
    }
  }

  /** A lower-case `<svg` stands at k. */
  ghost predicate LowerCaseAt(md: string, k: int) {
    0 <= k && k + 4 <= |md| && md[k] == '<' && md[k + 1] == 's' && md[k + 2] == 'v' && md[k + 3] == 'g'
  }

  lemma MentionsIff(md: string)
    ensures Mentions(md) <==> exists k :: LowerCaseAt(md, k)
  {
    if Mentions(md) {
      var k :| 0 <= k <= |md| && MentionAt(md, k);
      assert md[k..k + 4][0] == '<' && md[k..k + 4][1] == 's' && md[k..k + 4][2] == 'v' && md[k..k + 4][3] == 'g';
      assert LowerCaseAt(md, k);
    }
    if k :| LowerCaseAt(md, k) {
      assert md[k..k + 4] == "<svg";
      assert MentionAt(md, k);
    }
  }

  /** The text stays the same exactly when there is no svg to lift in its prose, or none is
      spelled in lower case anywhere. */
  lemma UnchangedIff(md: string)
    ensures LiftInlineSvg(md) == md <==> (forall k :: !LowerCaseAt(md, k)) || WrappedCount(Chunks(md)) == 0
  {
    MentionsIff(md);
    LiftIsConservative(md);
    RenderedLength(Chunks(md));
  }

  /** After lifting there is nothing left to lift. */
  lemma NothingLeft(md: string)
    ensures WrappedCount(Chunks(Lift(md))) == 0
  {
    LiftTwice(md);
    LiftIsConservative(Lift(md));
    RenderedLength(Chunks(Lift(md)));
  }

  // ----- fences stay -----

  function Join(pieces: seq<string>): string {
    if pieces == [] then "" else pieces[0] + Join(pieces[1..])
  }

  lemma {:induction false} PiecesJoin(md: string)
    ensures Join(Pieces(md)) == md
    decreases |md|
  {
    hide FindFence, Join;
    var i := FindFence(md, 0);
    if i < |md| && FindFence(md, i + 3) < |md| {
      var j := FindFence(md, i + 3);
      PiecesJoin(md[j + 3..]);
      JoinTwo(md[..i], md[i..j + 3], Pieces(md[j + 3..]));
    } else {
      JoinOne(md);
    }
  }

  lemma JoinOne(a: string)
    ensures Join([a]) == a
  {
    assert [a][1..] == [];
  }

  lemma JoinTwo(a: string, b: string, rest: seq<string>)
    ensures Join([a, b] + rest) == a + b + Join(rest)
  {
    var pieces := [a, b] + rest;
    assert pieces[1..] == [b] + rest && pieces[1..][1..] == rest;
  }

  lemma {:induction false} LiftAround(pieces: seq<string>, k: nat)
    requires |pieces| % 2 == 1 && k % 2 == 1 && k < |pieces|
    ensures LiftPieces(pieces) == LiftPieces(pieces[..k]) + pieces[k] + LiftPieces(pieces[k + 1..])
  {
    hide LiftProse;
    if k == 1 {
      assert pieces[..1][0] == pieces[0];
    } else {
      LiftAround(pieces[2..], k - 2);
      assert pieces[2..][..k - 2] == pieces[..k][2..] && pieces[2..][k - 1..] == pieces[k + 1..];
      assert pieces[..k][0] == pieces[0] && pieces[..k][1] == pieces[1];
    }
  }

  lemma {:induction false} JoinAround(pieces: seq<string>, k: nat)
    requires k < |pieces|
    ensures Join(pieces) == Join(pieces[..k]) + pieces[k] + Join(pieces[k + 1..])
  {
    if k > 0 {
      JoinAround(pieces[1..], k - 1);
      assert pieces[1..][..k - 1] == pieces[..k][1..] && pieces[1..][k..] == pieces[k + 1..];
      assert pieces[..k][0] == pieces[0];
      Associate(pieces[0], Join(pieces[1..][..k - 1]), pieces[k]);
    }
  }

  /** Every closed fence stands in the output as it is, between the liftings of what is
      before and behind it. */
  lemma ClosedFencesStay(md: string, k: nat)
    requires k % 2 == 1 && k < |Pieces(md)|
    ensures var pieces := Pieces(md);
      && md == Join(pieces[..k]) + pieces[k] + Join(pieces[k + 1..])
      && Lift(md) == LiftPieces(pieces[..k]) + pieces[k] + LiftPieces(pieces[k + 1..])
  {
    hide Pieces, Join, LiftPieces;
    PiecesJoin(md);
    JoinAround(Pieces(md), k);
    LiftAround(Pieces(md), k);
  }

  /** From a fence that never closes on, the output is the input. */
  lemma {:induction false} OpenFenceStays(p: string, md: string, t: string)
    requires md == p + t && Prose(p) && FenceAt(t, 0) && FindFence(t, 3) == |t|
    ensures Lift(md) == Lift(p) + t
  {
    LiftAtOpenFence(p, t);
    LiftWithoutFence(p);
  }
}
