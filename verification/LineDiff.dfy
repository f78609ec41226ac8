/** The line diff of the tool-call preview (frontend/src/components/DiffView.tsx).

    `DiffLines` fills the table of longest-common-subsequence lengths in place and walks
    it back.  The specification side has three independent notions:
      - `Apply`, which runs a patch against a list of lines and fails on a mismatch;
      - `IsScript`, which says that a patch leads from one list of lines to another;
      - `Lcs`, the length of a longest common subsequence.
    The theorems say that the output is a correct patch in both directions, that no
    patch is cheaper, and in which order a changed hunk lists its lines. */
module LineDiff {
  datatype Kind = Add | Del | Ctx

  datatype DiffLine = DiffLine(kind: Kind, text: string)

  // ----- texts and lines -----

  /** JavaScript's `text.split(sep)` for a one-character separator: never empty. */
  function Split(text: string, sep: char): (lines: seq<string>)
    ensures |lines| > 0
  {
    if text == "" then [""]
    else
      var rest := Split(text[1..], sep);
      if text[0] == sep then [""] + rest else [[text[0]] + rest[0]] + rest[1..]
  }

  function Join(lines: seq<string>, sep: char): string
    requires |lines| > 0
  {
    if |lines| == 1 then lines[0] else lines[0] + [sep] + Join(lines[1..], sep)
  }

  lemma {:induction false} SplitThenJoin(text: string, sep: char)
    ensures Join(Split(text, sep), sep) == text
    ensures forall k :: 0 <= k < |Split(text, sep)| ==> sep !in Split(text, sep)[k]
  {
    if text != "" {
      SplitThenJoin(text[1..], sep);
      var rest := Split(text[1..], sep);
      if text[0] == sep {
        assert ([""] + rest)[1..] == rest;
      } else {
        var lines := [[text[0]] + rest[0]] + rest[1..];
        assert lines[1..] == rest[1..];
        if |rest| > 1 {
          assert Join(lines, sep) == [text[0]] + Join(rest, sep);
        }
      }
    }
  }

  // ----- patches -----

  /** The lines a patch starts from. */
  function Before(s: seq<DiffLine>): seq<string> {
    if s == [] then []
    else Before(s[..|s| - 1]) + (if s[|s| - 1].kind == Add then [] else [s[|s| - 1].text])
  }

  /** The lines a patch leads to. */
  function After(s: seq<DiffLine>): seq<string> {
    if s == [] then []
    else After(s[..|s| - 1]) + (if s[|s| - 1].kind == Del then [] else [s[|s| - 1].text])
  }

  ghost predicate IsScript(s: seq<DiffLine>, a: seq<string>, b: seq<string>) {
    Before(s) == a && After(s) == b
  }

  function Kept(s: seq<DiffLine>): nat {
    if s == [] then 0 else Kept(s[..|s| - 1]) + (if s[|s| - 1].kind == Ctx then 1 else 0)
  }

  /** Additions plus deletions. */
  function Cost(s: seq<DiffLine>): nat {
    if s == [] then 0 else Cost(s[..|s| - 1]) + (if s[|s| - 1].kind == Ctx then 0 else 1)
  }

  function Swap(s: seq<DiffLine>): (t: seq<DiffLine>)
    ensures |t| == |s|
  {
    seq(|s|, i requires 0 <= i < |s| =>
      match s[i].kind
      case Add => s[i].(kind := Del)
      case Del => s[i].(kind := Add)
      case Ctx => s[i])
  }

  /** What running a patch gives: the patched lines, unless they are not the expected ones. */
  datatype Outcome = Conflict | Patched(lines: seq<string>)

  /** Runs a patch front to back against a list of lines. */
  function Apply(s: seq<DiffLine>, lines: seq<string>): Outcome {
    if s == [] then (if lines == [] then Patched([]) else Conflict)
    else match s[0].kind
      case Add =>
        var rest := Apply(s[1..], lines);
        if rest.Patched? then Patched([s[0].text] + rest.lines) else Conflict
      case Del =>
        if lines == [] || lines[0] != s[0].text then Conflict else Apply(s[1..], lines[1..])
      case Ctx =>
        if lines == [] || lines[0] != s[0].text then Conflict
        else
          var rest := Apply(s[1..], lines[1..]);
          if rest.Patched? then Patched([s[0].text] + rest.lines) else Conflict
  }

  lemma {:induction false} BeforeAfterFromFront(s: seq<DiffLine>)
    requires s != []
    ensures Before(s) == (if s[0].kind == Add then [] else [s[0].text]) + Before(s[1..])
    ensures After(s) == (if s[0].kind == Del then [] else [s[0].text]) + After(s[1..])
  {
    if |s| > 1 {
      BeforeAfterFromFront(s[..|s| - 1]);
      assert s[..|s| - 1][1..] == s[1..][..|s| - 2];
    }
  }

  lemma PrependIff(x: string, rest: seq<string>, whole: seq<string>)
    ensures [x] + rest == whole <==> whole != [] && whole[0] == x && rest == whole[1..]
  {
    assert ([x] + rest)[1..] == rest;
  }

  /** Running a patch succeeds on exactly the lines it starts from, and then yields
      exactly the lines it leads to. */
  lemma {:induction false} ApplyIffScript(s: seq<DiffLine>, a: seq<string>, b: seq<string>)
    ensures Apply(s, a) == Patched(b) <==> IsScript(s, a, b)
  {
    if s != [] {
      hide Before, After;
      var line, rest := s[0], s[1..];
      BeforeAfterFromFront(s);
      PrependIff(line.text, Before(rest), a);
      PrependIff(line.text, After(rest), b);
      assert [] + Before(rest) == Before(rest) && [] + After(rest) == After(rest);
      match line.kind
      case Add =>
        if Apply(rest, a).Patched? { PrependIff(line.text, Apply(rest, a).lines, b); }
        if b != [] { ApplyIffScript(rest, a, b[1..]); }
      case Del =>
        if a != [] { ApplyIffScript(rest, a[1..], b); }
      case Ctx =>
        if a != [] {
          if Apply(rest, a[1..]).Patched? { PrependIff(line.text, Apply(rest, a[1..]).lines, b); }
          if b != [] { ApplyIffScript(rest, a[1..], b[1..]); }
        }
    }
  }

  lemma {:induction false} SwapExchangesEnds(s: seq<DiffLine>)
    ensures Before(Swap(s)) == After(s) && After(Swap(s)) == Before(s)
  {
    if s != [] {
      assert Swap(s)[..|s| - 1] == Swap(s[..|s| - 1]);
      SwapExchangesEnds(s[..|s| - 1]);
    }
  }

  // ----- longest common subsequence -----

  function Max(x: nat, y: nat): nat { if x >= y then x else y }

  ghost function Lcs(a: seq<string>, b: seq<string>): nat
    decreases |a| + |b|
  {
    if a == [] || b == [] then 0
    else if a[|a| - 1] == b[|b| - 1] then Lcs(a[..|a| - 1], b[..|b| - 1]) + 1
    else Max(Lcs(a[..|a| - 1], b), Lcs(a, b[..|b| - 1]))
  }

  /** Dropping the last line of one side costs at most one common line. */
  lemma {:induction false} LcsStep(a: seq<string>, b: seq<string>)
    ensures a != [] ==> Lcs(a[..|a| - 1], b) <= Lcs(a, b) <= Lcs(a[..|a| - 1], b) + 1
    ensures b != [] ==> Lcs(a, b[..|b| - 1]) <= Lcs(a, b) <= Lcs(a, b[..|b| - 1]) + 1
    decreases |a| + |b|
  {
    if a != [] && b != [] {
      LcsStep(a[..|a| - 1], b);
      LcsStep(a, b[..|b| - 1]);
    }
  }

  /** Every patch keeps at most `Lcs` lines ... */
  lemma {:induction false} KeptAtMostLcs(s: seq<DiffLine>, a: seq<string>, b: seq<string>)
    requires IsScript(s, a, b)
    ensures Kept(s) <= Lcs(a, b)
  {
    if s != [] {
      var init, last := s[..|s| - 1], s[|s| - 1];
      KeptAtMostLcs(init, Before(init), After(init));
      LcsStep(a, b);
      match last.kind {
        case Ctx =>
          assert a[..|a| - 1] == Before(init) && b[..|b| - 1] == After(init);
        case Del =>
          assert a[..|a| - 1] == Before(init) && b == After(init);
        case Add =>
          assert b[..|b| - 1] == After(init) && a == Before(init);
      }
    }
  }

  /** ... and what it does not keep it pays for. */
  lemma {:induction false} CostFromKept(s: seq<DiffLine>, a: seq<string>, b: seq<string>)
    requires IsScript(s, a, b)
    ensures Cost(s) + 2 * Kept(s) == |a| + |b|
  {
    if s != [] {
      var init := s[..|s| - 1];
      CostFromKept(init, Before(init), After(init));
    }
  }

  // ----- the backtrace -----

  /** The patch that the walk from the bottom-right corner of the table produces. */
  ghost function Trace(a: seq<string>, b: seq<string>): seq<DiffLine>
    decreases |a| + |b|
  {
    var a', b' := if a == [] then [] else a[..|a| - 1], if b == [] then [] else b[..|b| - 1];
    if a != [] && b != [] then
      if a[|a| - 1] == b[|b| - 1] then Trace(a', b') + [DiffLine(Ctx, a[|a| - 1])]
      else if Lcs(a', b) >= Lcs(a, b') then Trace(a', b) + [DiffLine(Del, a[|a| - 1])]
      else Trace(a, b') + [DiffLine(Add, b[|b| - 1])]
    else if a != [] then Trace(a', b) + [DiffLine(Del, a[|a| - 1])]
    else if b != [] then Trace(a, b') + [DiffLine(Add, b[|b| - 1])]
    else []
  }

  /** What appending one line does to a patch. */
  lemma Extend(s: seq<DiffLine>, line: DiffLine, a: seq<string>, b: seq<string>)
    requires IsScript(s, a, b)
    ensures IsScript(s + [line], a + (if line.kind == Add then [] else [line.text]),
                                 b + (if line.kind == Del then [] else [line.text]))
    ensures Kept(s + [line]) == Kept(s) + (if line.kind == Ctx then 1 else 0)
  {
    assert (s + [line])[..|s + [line]| - 1] == s;
  }

  lemma {:induction false} TraceIsScript(a: seq<string>, b: seq<string>)
    ensures IsScript(Trace(a, b), a, b)
    ensures Kept(Trace(a, b)) == Lcs(a, b)
    decreases |a| + |b|
  {
    hide IsScript, Kept;
    var a', b' := if a == [] then [] else a[..|a| - 1], if b == [] then [] else b[..|b| - 1];
    assert a != [] ==> a' + [a[|a| - 1]] == a;
    assert b != [] ==> b' + [b[|b| - 1]] == b;
    if a != [] && b != [] && a[|a| - 1] == b[|b| - 1] {
      TraceIsScript(a', b');
      Extend(Trace(a', b'), DiffLine(Ctx, a[|a| - 1]), a', b');
    } else if a != [] && (b == [] || Lcs(a', b) >= Lcs(a, b')) {
      TraceIsScript(a', b);
      Extend(Trace(a', b), DiffLine(Del, a[|a| - 1]), a', b);
      assert b + [] == b;
    } else if b != [] {
      TraceIsScript(a, b');
      Extend(Trace(a, b'), DiffLine(Add, b[|b| - 1]), a, b');
      assert a + [] == a;
    } else {
      EmptyScript();
    }
  }

  lemma EmptyScript()
    ensures IsScript([], [], []) && Kept([]) == 0
  {
  }

  /** Optimality: no patch between the same lines has fewer additions plus deletions. */
  lemma TraceIsCheapest(a: seq<string>, b: seq<string>, other: seq<DiffLine>)
    requires IsScript(other, a, b)
    ensures Cost(Trace(a, b)) <= Cost(other)
  {
    TraceIsScript(a, b);
    CostFromKept(Trace(a, b), a, b);
    CostFromKept(other, a, b);
    KeptAtMostLcs(other, a, b);
  }

  /** The patch turns a into b and, with additions and deletions exchanged, b into a. */
  lemma TraceRoundTrips(a: seq<string>, b: seq<string>)
    ensures Apply(Trace(a, b), a) == Patched(b)
    ensures Apply(Swap(Trace(a, b)), b) == Patched(a)
  {
    TraceIsScript(a, b);
    ApplyIffScript(Trace(a, b), a, b);
    SwapExchangesEnds(Trace(a, b));
    ApplyIffScript(Swap(Trace(a, b)), b, a);
  }

  ghost predicate EndsWith(s: seq<DiffLine>, kind: Kind) { s != [] && s[|s| - 1].kind == kind }

  /** After a step to the left (an addition) the walk never goes up (a deletion) before it
      meets a common line: the table is constant along that row. */
  lemma {:induction false} TraceAfterAddition(a: seq<string>, b: seq<string>)
    requires a != [] && b != [] && a[|a| - 1] != b[|b| - 1]
    requires Lcs(a[..|a| - 1], b) < Lcs(a, b[..|b| - 1])
    ensures !EndsWith(Trace(a, b[..|b| - 1]), Del)
  {
    var b' := b[..|b| - 1];
    if b' != [] && a[|a| - 1] != b'[|b'| - 1] {
      LcsStep(a[..|a| - 1], b);
      assert Lcs(a[..|a| - 1], b') < Lcs(a, b');
    }
  }

  /** In a changed hunk the additions are listed before the deletions. */
  lemma {:induction false} AdditionsPrecedeDeletions(a: seq<string>, b: seq<string>)
    ensures forall k :: 0 <= k && k + 1 < |Trace(a, b)| ==>
              !(Trace(a, b)[k].kind == Del && Trace(a, b)[k + 1].kind == Add)
    decreases |a| + |b|
  {
    if a != [] && b != [] && a[|a| - 1] == b[|b| - 1] {
      AdditionsPrecedeDeletions(a[..|a| - 1], b[..|b| - 1]);
    } else if a != [] && (b == [] || Lcs(a[..|a| - 1], b) >= Lcs(a, b[..|b| - 1])) {
      AdditionsPrecedeDeletions(a[..|a| - 1], b);
    } else if b != [] {
      AdditionsPrecedeDeletions(a, b[..|b| - 1]);
      if a != [] {
        TraceAfterAddition(a, b);
      } else {
        TraceOfAdditions(b[..|b| - 1]);
      }
    }
  }

  lemma TraceOfAdditions(b: seq<string>)
    ensures !EndsWith(Trace([], b), Del)
  {}

  // ----- the program -----

  function Reversed(s: seq<DiffLine>): seq<DiffLine> {
    seq(|s|, i requires 0 <= i < |s| => s[|s| - 1 - i])
  }

  ghost function LcsAt(a: seq<string>, b: seq<string>, i: int, j: int): nat
    requires 0 <= i <= |a| && 0 <= j <= |b|
  {
    Lcs(a[..i], b[..j])
  }

  lemma LcsAtStep(a: seq<string>, b: seq<string>, i: nat, j: nat)
    requires i < |a| && j < |b|
    ensures LcsAt(a, b, i + 1, j + 1) ==
            if a[i] == b[j] then LcsAt(a, b, i, j) + 1
            else Max(LcsAt(a, b, i, j + 1), LcsAt(a, b, i + 1, j))
  {
    assert a[..i + 1][..i] == a[..i] && b[..j + 1][..j] == b[..j];
  }

  ghost predicate Filled(a: seq<string>, b: seq<string>, dp: array2<nat>)
    reads dp
  {
    && dp.Length0 == |a| + 1 && dp.Length1 == |b| + 1
    && forall i, j :: 0 <= i <= |a| && 0 <= j <= |b| ==> dp[i, j] == LcsAt(a, b, i, j)
  }

  /** Lines 12-24: the table, row by row. */
  method FillTable(a: seq<string>, b: seq<string>) returns (dp: array2<nat>)
    ensures Filled(a, b, dp)
  {
    var m, n := |a|, |b|;
    dp := new nat[m + 1, n + 1]((_, _) => 0);
    for i := 0 to m
      invariant forall p, q :: 0 <= p <= i && 0 <= q <= n ==> dp[p, q] == LcsAt(a, b, p, q)
      invariant forall p :: 0 <= p <= m ==> dp[p, 0] == 0
    {
      for j := 0 to n
        invariant forall p, q :: 0 <= p <= i + 1 && 0 <= q <= n && (p <= i || q <= j) ==>
                    dp[p, q] == LcsAt(a, b, p, q)
        invariant forall p :: 0 <= p <= m ==> dp[p, 0] == 0
      {
        LcsAtStep(a, b, i, j);
        if a[i] == b[j] {
          dp[i + 1, j + 1] := dp[i, j] + 1;
        } else {
          dp[i + 1, j + 1] := Max(dp[i, j + 1], dp[i + 1, j]);
        }
      }
    }
  }

  /** Standing at (i, j), what was pushed so far completes the patch. */
  ghost predicate Walked(a: seq<string>, b: seq<string>, i: int, j: int, pushed: seq<DiffLine>)
    requires 0 <= i <= |a| && 0 <= j <= |b|
  {
    Trace(a, b) == Trace(a[..i], b[..j]) + Reversed(pushed)
  }

  /** One step of the walk. */
  lemma WalkStep(a: seq<string>, b: seq<string>, i: nat, j: nat, pushed: seq<DiffLine>)
    requires i <= |a| && j <= |b| && (i > 0 || j > 0) && Walked(a, b, i, j, pushed)
    ensures if i > 0 && j > 0 && a[i - 1] == b[j - 1]
              then Walked(a, b, i - 1, j - 1, pushed + [DiffLine(Ctx, a[i - 1])])
            else if i > 0 && (j == 0 || LcsAt(a, b, i - 1, j) >= LcsAt(a, b, i, j - 1))
              then Walked(a, b, i - 1, j, pushed + [DiffLine(Del, a[i - 1])])
            else Walked(a, b, i, j - 1, pushed + [DiffLine(Add, b[j - 1])])
  {
    hide Lcs, Reversed;
    if i > 0 { assert a[..i][..i - 1] == a[..i - 1]; }
    if j > 0 { assert b[..j][..j - 1] == b[..j - 1]; }
    var t := Trace(a[..i], b[..j]);
    var init, line := t[..|t| - 1], t[|t| - 1];
    ReversedSnoc(pushed, line);
    assert t == init + [line];
    assert init + [line] + Reversed(pushed) == init + ([line] + Reversed(pushed));
  }

  lemma ReversedSnoc(s: seq<DiffLine>, line: DiffLine)
    ensures Reversed(s + [line]) == [line] + Reversed(s)
  {
  }

  /** Lines 26-50: the walk back, pushing in reverse. */
  method WalkBack(a: seq<string>, b: seq<string>, dp: array2<nat>) returns (result: seq<DiffLine>)
    requires Filled(a, b, dp)
    ensures result == Trace(a, b)
  {
    var pushed: seq<DiffLine> := [];
    var i, j := |a|, |b|;
    assert a[..i] == a && b[..j] == b;
    while i > 0 && j > 0
      invariant 0 <= i <= |a| && 0 <= j <= |b|
      invariant Walked(a, b, i, j, pushed)
    {
      WalkStep(a, b, i, j, pushed);
      if a[i - 1] == b[j - 1] {
        pushed := pushed + [DiffLine(Ctx, a[i - 1])];
        i, j := i - 1, j - 1;
      } else if dp[i - 1, j] >= dp[i, j - 1] {
        pushed := pushed + [DiffLine(Del, a[i - 1])];
        i := i - 1;
      } else {
        pushed := pushed + [DiffLine(Add, b[j - 1])];
        j := j - 1;
      }
    }
    while i > 0
      invariant 0 <= i <= |a| && 0 <= j <= |b| && (i == 0 || j == 0)
      invariant Walked(a, b, i, j, pushed)
    {
      WalkStep(a, b, i, j, pushed);
      pushed := pushed + [DiffLine(Del, a[i - 1])];
      i := i - 1;
    }
    while j > 0
      invariant i == 0 && 0 <= j <= |b|
      invariant Walked(a, b, i, j, pushed)
    {
      WalkStep(a, b, i, j, pushed);
      pushed := pushed + [DiffLine(Add, b[j - 1])];
      j := j - 1;
    }
    result := Reversed(pushed);
  }

  method DiffLines(before: string, after: string) returns (result: seq<DiffLine>)
    ensures result == Trace(Split(before, '\n'), Split(after, '\n'))
    ensures Before(result) != [] && Join(Before(result), '\n') == before
    ensures After(result) != [] && Join(After(result), '\n') == after
    ensures forall other :: IsScript(other, Split(before, '\n'), Split(after, '\n')) ==>
              Cost(result) <= Cost(other)
  {
    var a, b := Split(before, '\n'), Split(after, '\n');
    var dp := FillTable(a, b);
    result := WalkBack(a, b, dp);
    TraceIsScript(a, b);
    SplitThenJoin(before, '\n');
    SplitThenJoin(after, '\n');
    forall other | IsScript(other, a, b) ensures Cost(result) <= Cost(other) {
      TraceIsCheapest(a, b, other);
    }
  }
}
