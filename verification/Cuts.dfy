/**
  Restoring a text in two parts.  The chain of replacements scans restored text again, so a
  placeholder can come about across a cut although none lay across it before; this is when
  the chain nevertheless distributes over the cut.
 */
module Cuts {
  import opened Text
  import opened Restore

  // ---- Fragments of placeholders -----------------------------------------------------

  function UpToClose(s: string): string {
    var i := Index(s, CLOSE);
    if i < 0 then s else s[..i + 1]
  }

  /** The text ends with the first `n` code points of `p`. */
  ghost predicate EndsIn(s: string, p: string, n: int) {
    1 <= n < |p| && n <= |s| && s[|s| - n..] == p[..n]
  }

  /** The text, as far as its first closing bracket, stands in `p` from position `n` on. */
  ghost predicate Continues(s: string, p: string, n: int) {
    1 <= n < |p| && OccursAt(p, UpToClose(s), n)
  }

  /** Restoring `original` can begin, continue or complete the placeholder `p` out of pieces. */
  ghost predicate Assembles(original: string, p: string) {
    (exists n :: Continues(original, p, n)) || (exists n :: EndsIn(original, p, n))
  }

  /** `p` lies across the cut between `a` and `b`. */
  ghost predicate Straddles(a: string, b: string, p: string) {
    exists n :: EndsIn(a, p, n) && p[n..] <= b
  }

  /** From its own turn on, the chain turns the `j`-th placeholder into itself again. */
  ghost predicate SelfRestoring(ms: seq<Mapping>, j: nat)
    requires j < |ms|
  {
    RestoreAll(ms[j..], ms[j].placeholder) == ms[j].placeholder
  }

  /** No original is a fragment of a placeholder restored later. */
  ghost predicate NoAssembly(ms: seq<Mapping>) {
    forall i, j | 0 <= i < j < |ms| :: !Assembles(ms[i].original, ms[j].placeholder)
  }

  /** A placeholder of which an original restored earlier is a fragment restores to itself. */
  ghost predicate HarmlessAssembly(ms: seq<Mapping>) {
    forall i, j | 0 <= i < j < |ms| && Assembles(ms[i].original, ms[j].placeholder) :: SelfRestoring(ms, j)
  }

  /** What continues a placeholder by an original is a fragment of it. */
  lemma {:induction false} Continuation(o: string, p: string, n: nat, rest: string)
    requires Shaped(p) && 1 <= n < |p| && p[n..] <= o + rest
    ensures Continues(o, p, n)
  {
    var v := p[n..];
    if |v| < |o| {
      assert v <= o;
      assert Index(o, CLOSE) == |v| - 1;
    }
    assert UpToClose(o) <= v;
  }

  // ---- Cuts no placeholder can lie across ------------------------------------------------

  lemma {:induction false} OpenStops(a: string, b: string, p: string)
    requires Shaped(p) && b != "" && b[0] == OPEN
    ensures !Straddles(a, b, p)
  {
    assert forall n | 1 <= n < |p| :: p[n..][0] == p[n] != OPEN;
  }

  lemma {:induction false} ClosedStops(a: string, b: string, p: string)
    requires Shaped(p) && a != "" && a[|a| - 1] == CLOSE
    ensures !Straddles(a, b, p)
  {
    forall n
      ensures !EndsIn(a, p, n)
    {
      if 1 <= n < |p| && n <= |a| {
        assert a[|a| - n..][n - 1] == CLOSE && p[..n][n - 1] == p[n - 1];
      }
    }
  }

  lemma {:induction false} OpenFreeStops(a: string, b: string, p: string)
    requires Shaped(p) && OpenFree(a)
    ensures !Straddles(a, b, p)
  {
    forall n
      ensures !EndsIn(a, p, n)
    {
      if 1 <= n < |p| && n <= |a| {
        assert a[|a| - n..][0] == a[|a| - n] && p[..n][0] == OPEN;
      }
    }
  }

  // ---- Texts that are not changed ---------------------------------------------------------

  /** An occurrence of a placeholder shows both of its brackets. */
  lemma {:induction false} OccurrenceShows(s: string, p: string, i: int)
    requires Shaped(p) && OccursAt(s, p, i)
    ensures i < |s| && s[i] == OPEN && i + |p| <= |s| && s[i + |p| - 1] == CLOSE
  {
    assert s[i..][0] == p[0] && s[i..][|p| - 1] == p[|p| - 1];
  }

  lemma {:induction false} OpenFreeAbsent(s: string, p: string)
    requires OpenFree(s) && Shaped(p)
    ensures !Occurs(s, p)
  {
    if i :| OccursAt(s, p, i) {
      OccurrenceShows(s, p, i);
    }
  }

  lemma {:induction false} OpenFreeKept(s: string, p: string, o: string)
    requires Shaped(p) && OpenFree(s)
    ensures ReplaceAll(s, p, o) == s
  {
    OpenFreeAbsent(s, p);
    ReplaceAllAbsent(s, p, o);
  }

  lemma {:induction false} CloseFreeKept(s: string, p: string, o: string)
    requires Shaped(p) && CLOSE !in s
    ensures ReplaceAll(s, p, o) == s
  {
    if i :| OccursAt(s, p, i) {
      OccurrenceShows(s, p, i);
    }
    ReplaceAllAbsent(s, p, o);
  }

  /** A placeholder is not found in another one. */
  lemma {:induction false} OtherKept(t: string, p: string, o: string)
    requires Shaped(p) && Shaped(t) && t != p
    ensures ReplaceAll(t, p, o) == t
  {
    assert t[0..] == t;
    forall i
      ensures !OccursAt(t, p, i)
    {
      if OccursAt(t, p, i) {
        OccurrenceShows(t, p, i);
        ShapedNotNested(p, t, t);
      }
    }
    ReplaceAllAbsent(t, p, o);
  }

  lemma {:induction false} WholeReplaced(p: string, o: string)
    requires p != ""
    ensures ReplaceAll(p, p, o) == o
  {
    ReplaceAllAtHead("", p, o);
    assert p + "" == p && o + "" == o;
  }

  lemma {:induction false} OpenFreeIsInert(ms: seq<Mapping>, s: string)
    requires WellFormed(ms) && OpenFree(s)
    ensures RestoreAll(ms, s) == s
  {
    if ms != [] {
      OpenFreeKept(s, ms[0].placeholder, ms[0].original);
      OpenFreeIsInert(ms[1..], s);
    }
  }

  lemma {:induction false} CloseFreeIsInert(ms: seq<Mapping>, s: string)
    requires WellFormed(ms) && CLOSE !in s
    ensures RestoreAll(ms, s) == s
  {
    if ms != [] {
      CloseFreeKept(s, ms[0].placeholder, ms[0].original);
      CloseFreeIsInert(ms[1..], s);
    }
  }

  // ---- One replacement in two parts ---------------------------------------------------------

  /** A replacement distributes over a cut its placeholder does not lie across. */
  lemma {:induction false} ReplaceParts(a: string, b: string, p: string, o: string)
    requires Shaped(p) && !Straddles(a, b, p)
    ensures ReplaceAll(a + b, p, o) == ReplaceAll(a, p, o) + ReplaceAll(b, p, o)
    decreases |a|
  {
    if a == "" {
      assert a + b == b;
    } else {
      HeadInPart(a, b, p);
      var n := if p <= a then |p| else 1;
      NoneLaterStraddles(a, b, p, n);
      ReplaceParts(a[n..], b, p, o);
      DropConcat(a, b, n);
      ConcatAssoc(if p <= a then o else [a[0]], ReplaceAll(a[n..], p, o), ReplaceAll(b, p, o));
    }
  }

  lemma {:induction false} HeadInPart(a: string, b: string, p: string)
    requires Shaped(p) && a != "" && !Straddles(a, b, p)
    ensures p <= a + b <==> p <= a
  {
    if p <= a + b && |p| > |a| {
      HeadStraddles(a, b, p);
    }
  }

  lemma {:induction false} HeadStraddles(a: string, b: string, p: string)
    requires a != "" && p <= a + b && |p| > |a|
    ensures Straddles(a, b, p)
  {
    BeyondHead(p, a, b);
    assert a[|a| - |a|..] == a;
    assert EndsIn(a, p, |a|);
  }

  lemma {:induction false} NoneLaterStraddles(a: string, b: string, p: string, k: nat)
    requires k <= |a| && !Straddles(a, b, p)
    ensures !Straddles(a[k..], b, p)
  {
    if n :| EndsIn(a[k..], p, n) && p[n..] <= b {
      SuffixEndsIn(a, p, k, n);
    }
  }

  lemma {:induction false} SuffixEndsIn(a: string, p: string, k: nat, n: nat)
    requires k <= |a| && EndsIn(a[k..], p, n)
    ensures EndsIn(a, p, n)
  {
    assert a[|a| - n..] == a[k..][|a[k..]| - n..];
  }

  // ---- Brackets that do not nest ---------------------------------------------------------------

  ghost predicate NoOpenBeforeClose(s: string) {
    forall i | 0 <= i < |s| && s[i] == OPEN :: exists c :: 0 <= c < i && s[c] == CLOSE
  }

  /** A bracket that is open is closed before the next one opens. */
  ghost predicate NoNesting(s: string) {
    forall i | 0 <= i < |s| && s[i] == OPEN :: NoOpenBeforeClose(s[i + 1..])
  }

  lemma {:induction false} ShiftClose(s: string)
    requires s != "" && s[0] != CLOSE && NoOpenBeforeClose(s)
    ensures NoOpenBeforeClose(s[1..])
  {
    forall i | 0 <= i < |s[1..]| && s[1..][i] == OPEN
      ensures exists c :: 0 <= c < i && s[1..][c] == CLOSE
    {
      assert s[i + 1] == OPEN;
      var c :| 0 <= c < i + 1 && s[c] == CLOSE;
      assert s[1..][c - 1] == CLOSE;
    }
  }

  lemma {:induction false} UnshiftClose(c: char, s: string)
    requires c == CLOSE || (c != OPEN && NoOpenBeforeClose(s))
    ensures NoOpenBeforeClose([c] + s)
  {
    var t := [c] + s;
    forall i | 0 <= i < |t| && t[i] == OPEN
      ensures exists c :: 0 <= c < i && t[c] == CLOSE
    {
      if c == CLOSE {
        assert t[0] == CLOSE;
      } else {
        var k :| 0 <= k < i - 1 && s[k] == CLOSE;
        assert t[k + 1] == CLOSE;
      }
    }
  }

  lemma {:induction false} NoNestingSuffix(s: string, n: nat)
    requires n <= |s| && NoNesting(s)
    ensures NoNesting(s[n..])
  {
    var t := s[n..];
    forall i | 0 <= i < |t| && t[i] == OPEN
      ensures NoOpenBeforeClose(t[i + 1..])
    {
      assert s[n + i] == OPEN;
      assert t[i + 1..] == s[n + i + 1..];
    }
  }

  lemma {:induction false} NoNestingPrefix(s: string, n: nat)
    requires n <= |s| && NoNesting(s)
    ensures NoNesting(s[..n])
  {
    var t := s[..n];
    forall i | 0 <= i < |t| && t[i] == OPEN
      ensures NoOpenBeforeClose(t[i + 1..])
    {
      assert s[i] == OPEN && NoOpenBeforeClose(s[i + 1..]);
      var u, v := t[i + 1..], s[i + 1..];
      forall j | 0 <= j < |u| && u[j] == OPEN
        ensures exists c :: 0 <= c < j && u[c] == CLOSE
      {
        assert v[j] == OPEN;
        var c :| 0 <= c < j && v[c] == CLOSE;
        assert u[c] == CLOSE;
      }
    }
  }

  lemma {:induction false} NoNestingConcat(a: string, b: string)
    requires NoNesting(b) && (OpenFree(a) || Shaped(a))
    ensures NoNesting(a + b)
  {
    var s := a + b;
    forall i | 0 <= i < |s| && s[i] == OPEN
      ensures NoOpenBeforeClose(s[i + 1..])
    {
      if i >= |a| {
        assert b[i - |a|] == OPEN;
        assert s[i + 1..] == b[i - |a| + 1..];
      } else {
        assert a[i] == OPEN && i == 0;
        var t, c := s[1..], |a| - 2;
        assert t[c] == CLOSE;
        assert forall k | 0 <= k < c :: t[k] == a[k + 1];
      }
    }
  }

  lemma {:induction false} NoNestingPrepend(c: char, s: string)
    requires NoNesting(s) && (c == OPEN ==> NoOpenBeforeClose(s))
    ensures NoNesting([c] + s)
  {
    if c == OPEN {
      var t := [c] + s;
      forall i | 0 <= i < |t| && t[i] == OPEN
        ensures NoOpenBeforeClose(t[i + 1..])
      {
        assert t[i + 1..] == s[i..];
      }
    } else {
      NoNestingConcat([c], s);
    }
  }

  /** Replacing placeholders by text without opening brackets keeps brackets apart. */
  lemma {:induction false} ReplaceKeepsClose(s: string, p: string, o: string)
    requires Shaped(p) && NoOpenBeforeClose(s)
    ensures NoOpenBeforeClose(ReplaceAll(s, p, o))
  {
    if s != "" {
      assert s[0] != OPEN;
      if s[0] != CLOSE {
        ShiftClose(s);
        ReplaceKeepsClose(s[1..], p, o);
      }
      UnshiftClose(s[0], ReplaceAll(s[1..], p, o));
    }
  }

  lemma {:induction false} ReplaceKeepsNoNesting(s: string, p: string, o: string)
    requires Shaped(p) && OpenFree(o) && NoNesting(s)
    ensures NoNesting(ReplaceAll(s, p, o))
    decreases |s|
  {
    if s != "" {
      var n := if p <= s then |p| else 1;
      NoNestingSuffix(s, n);
      ReplaceKeepsNoNesting(s[n..], p, o);
      if p <= s {
        NoNestingConcat(o, ReplaceAll(s[n..], p, o));
      } else {
        if s[0] == OPEN {
          assert NoOpenBeforeClose(s[0 + 1..]);
          ReplaceKeepsClose(s[1..], p, o);
        }
        NoNestingPrepend(s[0], ReplaceAll(s[1..], p, o));
      }
    }
  }

  // ---- Where a placeholder across a cut comes from ---------------------------------------------

  /** Replacing `p` by `o` does not bring about `q` around the text `s`. */
  ghost predicate NoHelp(o: string, q: string, s: string) {
    !Assembles(o, q) || (OpenFree(o) && NoNesting(s))
  }

  lemma {:induction false} Peel(p: string, n: nat, c: char, rest: string)
    requires n < |p| && p[n..] <= [c] + rest
    ensures p[n] == c && p[n + 1..] <= rest
  {
    assert p[n..][0] == ([c] + rest)[0];
    assert p[n..][1..] == p[n + 1..] && ([c] + rest)[1..] == rest;
  }

  lemma {:induction false} Unpeel(p: string, n: nat, s: string)
    requires n < |p| && s != "" && p[n] == s[0] && p[n + 1..] <= s[1..]
    ensures p[n..] <= s
  {
    assert p[n..] == [s[0]] + p[n + 1..] && s == [s[0]] + s[1..];
  }

  /** What continues `q` after the replacement continued it before, and at the same distance. */
  lemma {:induction false} RestWasThere(s: string, p: string, o: string, q: string, n: nat)
    requires Shaped(p) && Shaped(q) && 1 <= n <= |q|
    requires !Assembles(o, q) || NoOpenBeforeClose(s)
    requires q[n..] <= ReplaceAll(s, p, o)
    ensures q[n..] <= s
  {
    if n < |q| && s != "" {
      if p <= s {
        if !Assembles(o, q) {
          Continuation(o, q, n, ReplaceAll(s[|p|..], p, o));
        }
      } else {
        Peel(q, n, s[0], ReplaceAll(s[1..], p, o));
        if n + 1 < |q| {
          if NoOpenBeforeClose(s) {
            ShiftClose(s);
          }
          RestWasThere(s[1..], p, o, q, n + 1);
        }
        Unpeel(q, n, s);
      }
    }
  }

  lemma {:induction false} MiddlePeel(q: string, n: nat, k: nat, c: char, rest: string)
    requires n <= k <= |q| && q[n..k] == [c] + rest
    ensures n < k && q[n] == c && q[n + 1..k] == rest
  {
    assert |q[n..k]| > 0 && q[n..k][0] == c;
    assert q[n..k][1..] == q[n + 1..k] && ([c] + rest)[1..] == rest;
  }

  lemma {:induction false} MiddleOf(q: string, n: nat, k: nat, o: string, rest: string)
    requires n <= k <= |q| && q[n..k] == o + rest
    ensures q[n..] == o + (rest + q[k..])
  {
    assert q[n..] == q[n..k] + q[k..];
  }

  /** A whole text that is a middle part of `q` after the replacement was that part before. */
  lemma {:induction false} MiddleWasThere(s: string, p: string, o: string, q: string, n: nat, k: nat)
    requires Shaped(p) && Shaped(q) && 1 <= n <= k < |q|
    requires !Assembles(o, q) || NoOpenBeforeClose(s)
    requires ReplaceAll(s, p, o) == q[n..k]
    ensures s == q[n..k]
  {
    if s != "" {
      if p <= s {
        if !Assembles(o, q) {
          MiddleOf(q, n, k, o, ReplaceAll(s[|p|..], p, o));
          Continuation(o, q, n, ReplaceAll(s[|p|..], p, o) + q[k..]);
        }
      } else {
        MiddlePeel(q, n, k, s[0], ReplaceAll(s[1..], p, o));
        if NoOpenBeforeClose(s) {
          ShiftClose(s);
        }
        MiddleWasThere(s[1..], p, o, q, n + 1, k);
        assert s == [s[0]] + s[1..] && q[n..k] == [q[n]] + q[n + 1..k];
      }
    }
  }

  lemma {:induction false} NoOpenParts(u: string, v: string)
    requires NoOpenBeforeClose(u + v)
    ensures NoOpenBeforeClose(u)
    ensures CLOSE !in u ==> NoOpenBeforeClose(v)
  {
    var s := u + v;
    forall i | 0 <= i < |u| && u[i] == OPEN
      ensures exists c :: 0 <= c < i && u[c] == CLOSE
    {
      assert s[i] == OPEN;
      var c :| 0 <= c < i && s[c] == CLOSE;
      assert u[c] == CLOSE;
    }
    if CLOSE !in u {
      forall i | 0 <= i < |v| && v[i] == OPEN
        ensures exists c :: 0 <= c < i && v[c] == CLOSE
      {
        assert s[|u| + i] == OPEN;
        var c :| 0 <= c < |u| + i && s[c] == CLOSE;
        assert c >= |u| && v[c - |u|] == CLOSE;
      }
    }
  }

  /** Where a text ends with the beginning of `q`, the end may reach into its head or not. */
  lemma {:induction false} EndsInConcat(h: string, t: string, q: string, n: nat)
    requires EndsIn(h + t, q, n)
    ensures n <= |t| ==> EndsIn(t, q, n)
    ensures n > |t| ==> EndsIn(h, q, n - |t|) && t == q[n - |t|..n]
  {
    var s := h + t;
    if n <= |t| {
      assert s[|s| - n..] == t[|t| - n..];
    } else {
      var k := n - |t|;
      assert s[|s| - n..] == h[|h| - k..] + t;
      assert q[..n] == q[..k] + q[k..n];
      assert (h[|h| - k..] + t)[..k] == h[|h| - k..] && (q[..k] + q[k..n])[..k] == q[..k];
      assert (h[|h| - k..] + t)[k..] == t && (q[..k] + q[k..n])[k..] == q[k..n];
    }
  }

  /** The placeholder that begins with the first code point of `a` and lies across the cut was there before. */
  lemma {:induction false} HeadWasThere(a: string, b: string, p: string, o: string, q: string, n: nat)
    requires Shaped(p) && Shaped(q) && a != "" && NoHelp(o, q, a + b)
    requires 1 <= n < |q| && a[0] == q[0] && ReplaceAll(a[1..], p, o) == q[1..n] && q[n..] <= ReplaceAll(b, p, o)
    ensures EndsIn(a, q, n) && q[n..] <= b
  {
    if Assembles(o, q) {
      AfterOpen(a, b);
    }
    MiddleWasThere(a[1..], p, o, q, 1, n);
    MiddleCloseFree(q, n);
    RestWasThere(b, p, o, q, n);
    WholeEndsIn(a, q, n);
  }

  lemma {:induction false} AfterOpen(a: string, b: string)
    requires a != "" && a[0] == OPEN && NoNesting(a + b)
    ensures NoOpenBeforeClose(a[1..]) && (CLOSE !in a[1..] ==> NoOpenBeforeClose(b))
  {
    assert (a + b)[0] == OPEN && (a + b)[0 + 1..] == a[1..] + b;
    NoOpenParts(a[1..], b);
  }

  lemma MiddleCloseFree(q: string, n: nat)
    requires Shaped(q) && 1 <= n < |q|
    ensures CLOSE !in q[1..n]
  {
  }

  lemma {:induction false} WholeEndsIn(a: string, q: string, n: nat)
    requires a != "" && 1 <= n < |q| && a[0] == q[0] && a[1..] == q[1..n]
    ensures EndsIn(a, q, n)
  {
    assert a == [a[0]] + a[1..] && q[..n] == [q[0]] + q[1..n];
    assert a[0..] == a;
  }

  /** A placeholder across the cut after the replacement lay across it before, unless the replacement helped. */
  lemma {:induction false} StraddleWasThere(a: string, b: string, p: string, o: string, q: string, n: nat)
    requires Shaped(p) && Shaped(q) && NoHelp(o, q, a + b)
    requires EndsIn(ReplaceAll(a, p, o), q, n) && q[n..] <= ReplaceAll(b, p, o)
    ensures EndsIn(a, q, n) && q[n..] <= b
    decreases |a|
  {
    if a != "" {
      var k := if p <= a then |p| else 1;
      var head, rest := if p <= a then o else [a[0]], ReplaceAll(a[k..], p, o);
      EndsInConcat(head, rest, q, n);
      if n <= |rest| {
        NoHelpLater(a, b, k, o, q);
        StraddleWasThere(a[k..], b, p, o, q, n);
        SuffixEndsIn(a, q, k, n);
      } else {
        EndShowsOpen(head, q, n - |rest|);
        if !(p <= a) {
          OneEndsIn(a[0], q, n - |rest|);
          HeadWasThere(a, b, p, o, q, n);
        }
      }
    }
  }

  lemma {:induction false} OneEndsIn(c: char, q: string, n: nat)
    requires EndsIn([c], q, n)
    ensures n == 1 && c == q[0]
  {
    assert [c][0..] == [c] && q[..1][0] == q[0];
  }

  lemma {:induction false} NoHelpLater(a: string, b: string, k: nat, o: string, q: string)
    requires k <= |a| && NoHelp(o, q, a + b)
    ensures NoHelp(o, q, a[k..] + b)
  {
    DropConcat(a, b, k);
    if NoNesting(a + b) {
      NoNestingSuffix(a + b, k);
    }
  }

  lemma {:induction false} EndShowsOpen(s: string, q: string, n: nat)
    requires Shaped(q) && EndsIn(s, q, n)
    ensures s[|s| - n] == OPEN && Assembles(s, q)
  {
    assert s[|s| - n..][0] == q[..n][0];
  }

  // ---- The chain in two parts -------------------------------------------------------------------

  /** What lies across the cut restores to itself. */
  ghost predicate OpenCut(ms: seq<Mapping>, a: string, b: string) {
    forall j | 0 <= j < |ms| && Straddles(a, b, ms[j].placeholder) :: SelfRestoring(ms, j)
  }

  /** Originals that complete a placeholder do no harm, or cannot meet one that is open. */
  ghost predicate Safe(ms: seq<Mapping>, s: string) {
    HarmlessAssembly(ms) || (OriginalsOpenFree(ms) && NoNesting(s))
  }

  lemma {:induction false} SelfRestoringTail(ms: seq<Mapping>, j: nat)
    requires 1 <= j < |ms|
    ensures SelfRestoring(ms[1..], j - 1) <==> SelfRestoring(ms, j)
  {
    assert ms[1..][j - 1..] == ms[j..];
  }

  lemma {:induction false} HarmlessTail(ms: seq<Mapping>)
    requires ms != [] && HarmlessAssembly(ms)
    ensures HarmlessAssembly(ms[1..])
  {
    var rest := ms[1..];
    forall i, j | 0 <= i < j < |rest| && Assembles(rest[i].original, rest[j].placeholder)
      ensures SelfRestoring(rest, j)
    {
      assert Assembles(ms[i + 1].original, ms[j + 1].placeholder);
      SelfRestoringTail(ms, j + 1);
    }
  }

  lemma {:induction false} WellFormedTail(ms: seq<Mapping>)
    requires ms != [] && WellFormed(ms)
    ensures WellFormed(ms[1..])
  {
  }

  /** The replacement leaves the cut open only to placeholders that restore to themselves. */
  lemma {:induction false} OpenCutStays(ms: seq<Mapping>, a: string, b: string)
    requires ms != [] && WellFormed(ms) && Safe(ms, a + b) && OpenCut(ms, a, b)
    ensures var p, o := ms[0].placeholder, ms[0].original;
            OpenCut(ms[1..], ReplaceAll(a, p, o), ReplaceAll(b, p, o))
  {
    var p, o, rest := ms[0].placeholder, ms[0].original, ms[1..];
    var x, y := ReplaceAll(a, p, o), ReplaceAll(b, p, o);
    forall j | 0 <= j < |rest| && Straddles(x, y, rest[j].placeholder)
      ensures SelfRestoring(rest, j)
    {
      var q := ms[j + 1].placeholder;
      var n :| EndsIn(x, q, n) && q[n..] <= y;
      if !(HarmlessAssembly(ms) && Assembles(o, q)) {
        StraddleWasThere(a, b, p, o, q, n);
        assert Straddles(a, b, ms[j + 1].placeholder);
      }
      assert SelfRestoring(ms, j + 1);
      SelfRestoringTail(ms, j + 1);
    }
  }

  lemma {:induction false} SafeStep(ms: seq<Mapping>, s: string)
    requires ms != [] && WellFormed(ms) && Safe(ms, s)
    ensures Safe(ms[1..], ReplaceAll(s, ms[0].placeholder, ms[0].original))
  {
    if HarmlessAssembly(ms) {
      HarmlessTail(ms);
    } else {
      ReplaceKeepsNoNesting(s, ms[0].placeholder, ms[0].original);
    }
  }

  /** Originals without opening brackets never turn into a placeholder. */
  lemma {:induction false} OpenFreeNeverSelf(ms: seq<Mapping>)
    requires ms != [] && WellFormed(ms) && OriginalsOpenFree(ms)
    ensures !SelfRestoring(ms, 0)
  {
    var p, o := ms[0].placeholder, ms[0].original;
    assert ms[0..] == ms;
    WholeReplaced(p, o);
    OpenFreeIsInert(ms[1..], o);
  }

  lemma {:induction false} SelfRestoringHead(ms: seq<Mapping>)
    requires ms != [] && WellFormed(ms)
    ensures SelfRestoring(ms, 0) <==> RestoreAll(ms[1..], ms[0].original) == ms[0].placeholder
  {
    assert ms[0..] == ms;
    WholeReplaced(ms[0].placeholder, ms[0].original);
  }

  /** Restored originals are joined to what stands before and after them by cuts open to self-restoring placeholders only. */
  lemma {:induction false} AroundOriginal(ms: seq<Mapping>, w: string, z: string)
    requires ms != [] && WellFormed(ms) && HarmlessAssembly(ms)
    ensures OpenCut(ms[1..], w, ms[0].original + z) && OpenCut(ms[1..], ms[0].original, z)
  {
    var o, rest := ms[0].original, ms[1..];
    forall j | 0 <= j < |rest| && (Straddles(w, o + z, rest[j].placeholder) || Straddles(o, z, rest[j].placeholder))
      ensures SelfRestoring(rest, j)
    {
      var q := ms[j + 1].placeholder;
      if Straddles(w, o + z, q) {
        var n :| EndsIn(w, q, n) && q[n..] <= o + z;
        Continuation(o, q, n, z);
      }
      assert Assembles(o, q);
      SelfRestoringTail(ms, j + 1);
    }
  }

  lemma {:induction false} FirmCut(ms: seq<Mapping>, a: string, b: string)
    requires WellFormed(ms)
    requires (b != "" && b[0] == OPEN) || OpenFree(a) || (a != "" && a[|a| - 1] == CLOSE)
    ensures OpenCut(ms, a, b)
  {
    forall j | 0 <= j < |ms|
      ensures !Straddles(a, b, ms[j].placeholder)
    {
      if b != "" && b[0] == OPEN {
        OpenStops(a, b, ms[j].placeholder);
      } else if OpenFree(a) {
        OpenFreeStops(a, b, ms[j].placeholder);
      } else {
        ClosedStops(a, b, ms[j].placeholder);
      }
    }
  }

  /** One replacement around a placeholder cut in two. */
  lemma {:induction false} ReplaceCutToken(w: string, x: string, y: string, z: string, p: string, o: string)
    requires Shaped(p) && p == x + y && x != "" && y != ""
    ensures ReplaceAll(w + p + z, p, o) == ReplaceAll(w, p, o) + (o + ReplaceAll(z, p, o))
    ensures ReplaceAll(w + x, p, o) == ReplaceAll(w, p, o) + x
    ensures ReplaceAll(y + z, p, o) == y + ReplaceAll(z, p, o)
  {
    HalvesOf(p, x, y);
    assert w + p + z == w + (p + z);
    OpenStops(w, p + z, p);
    ReplaceParts(w, p + z, p, o);
    ReplaceAllAtHead(z, p, o);
    OpenStops(w, x, p);
    ReplaceParts(w, x, p, o);
    CloseFreeKept(x, p, o);
    OpenFreeStops(y, z, p);
    ReplaceParts(y, z, p, o);
    OpenFreeKept(y, p, o);
  }

  lemma {:induction false} HalvesOf(p: string, x: string, y: string)
    requires Shaped(p) && p == x + y && x != "" && y != ""
    ensures x[0] == OPEN && CLOSE !in x && OpenFree(y)
  {
    assert forall i | 0 <= i < |x| :: x[i] == p[i];
    assert forall i | 0 <= i < |y| :: y[i] == p[|x| + i];
  }

  /** A self-restoring placeholder may as well be cut in two. */
  lemma {:induction false} CutToken(ms: seq<Mapping>, w: string, x: string, y: string, z: string)
    requires ms != [] && WellFormed(ms) && HarmlessAssembly(ms) && SelfRestoring(ms, 0)
    requires ms[0].placeholder == x + y && x != "" && y != ""
    ensures RestoreAll(ms, w + (x + y) + z) == RestoreAll(ms, w + x) + RestoreAll(ms, y + z)
    decreases |ms|, 0
  {
    var p, o, rest := ms[0].placeholder, ms[0].original, ms[1..];
    var w1, z1 := ReplaceAll(w, p, o), ReplaceAll(z, p, o);
    ReplaceCutToken(w, x, y, z, p, o);
    HalvesOf(p, x, y);
    HarmlessTail(ms);
    WellFormedTail(ms);
    SelfRestoringHead(ms);
    AroundOriginal(ms, w1, z1);
    RestoreParts(rest, w1, o + z1);
    RestoreParts(rest, o, z1);
    FirmCut(rest, w1, x);
    RestoreParts(rest, w1, x);
    CloseFreeIsInert(rest, x);
    FirmCut(rest, y, z1);
    RestoreParts(rest, y, z1);
    OpenFreeIsInert(rest, y);
    Regroup(RestoreAll(rest, w1), x, y, RestoreAll(rest, z1));
  }

  lemma Regroup(a: string, b: string, c: string, d: string)
    ensures a + ((b + c) + d) == (a + b) + (c + d)
  {
  }

  lemma {:induction false} AtStraddle(a: string, b: string, p: string, n: nat) returns (w: string, x: string, y: string, z: string)
    requires EndsIn(a, p, n) && p[n..] <= b
    ensures a == w + x && b == y + z && p == x + y && x != "" && y != ""
    ensures a + b == w + (x + y) + z
  {
    w, x, y, z := a[..|a| - n], p[..n], p[n..], b[|p| - n..];
  }

  /** Restoration distributes over a cut open to self-restoring placeholders only. */
  lemma {:induction false} RestoreParts(ms: seq<Mapping>, a: string, b: string)
    requires WellFormed(ms) && Safe(ms, a + b) && OpenCut(ms, a, b)
    ensures RestoreAll(ms, a + b) == RestoreAll(ms, a) + RestoreAll(ms, b)
    decreases |ms|, 1
  {
    if ms != [] {
      var p, o := ms[0].placeholder, ms[0].original;
      if n :| EndsIn(a, p, n) && p[n..] <= b {
        assert SelfRestoring(ms, 0);
        if OriginalsOpenFree(ms) {
          OpenFreeNeverSelf(ms);
        }
        var w, x, y, z := AtStraddle(a, b, p, n);
        CutToken(ms, w, x, y, z);
      } else {
        ReplaceParts(a, b, p, o);
        SafeStep(ms, a + b);
        OpenCutStays(ms, a, b);
        WellFormedTail(ms);
        RestoreParts(ms[1..], ReplaceAll(a, p, o), ReplaceAll(b, p, o));
      }
    }
  }

  lemma {:induction false} SafeSuffix(ms: seq<Mapping>, a: string, b: string)
    requires Safe(ms, a + b)
    ensures Safe(ms, b)
  {
    if NoNesting(a + b) {
      NoNestingSuffix(a + b, |a|);
      assert (a + b)[|a|..] == b;
    }
  }

  lemma {:induction false} SafePrefix(ms: seq<Mapping>, a: string, b: string)
    requires Safe(ms, a + b)
    ensures Safe(ms, a)
  {
    if NoNesting(a + b) {
      NoNestingPrefix(a + b, |a|);
      assert (a + b)[..|a|] == a;
    }
  }

  /** No placeholder lies across the cut between `a` and `b`. */
  ghost predicate CleanCut(ms: seq<Mapping>, a: string, b: string) {
    forall j, i | 0 <= j < |ms| && 0 <= i < |a| ::
      OccursAt(a + b, ms[j].placeholder, i) ==> i + |ms[j].placeholder| <= |a|
  }

  lemma {:induction false} StraddleOccurs(a: string, b: string, p: string, n: nat)
    requires EndsIn(a, p, n) && p[n..] <= b
    ensures OccursAt(a + b, p, |a| - n)
  {
    assert p == p[..n] + p[n..];
    assert (a + b)[|a| - n..] == a[|a| - n..] + b;
  }

  /** Restoration distributes over a cut that no placeholder straddles. */
  lemma {:induction false} RestoreDistributes(ms: seq<Mapping>, a: string, b: string)
    requires WellFormed(ms) && Safe(ms, a + b) && CleanCut(ms, a, b)
    ensures RestoreAll(ms, a + b) == RestoreAll(ms, a) + RestoreAll(ms, b)
  {
    forall j | 0 <= j < |ms|
      ensures !Straddles(a, b, ms[j].placeholder)
    {
      if n :| EndsIn(a, ms[j].placeholder, n) && ms[j].placeholder[n..] <= b {
        StraddleOccurs(a, b, ms[j].placeholder, n);
      }
    }
    RestoreParts(ms, a, b);
  }

  // ---- The chain as one replacement -----------------------------------------------------------------

  /** The first mapping whose placeholder starts `s`, or |ms|. */
  ghost function Starting(ms: seq<Mapping>, s: string): (j: nat)
    ensures j <= |ms|
    ensures j < |ms| ==> ms[j].placeholder <= s
    ensures forall i | 0 <= i < j :: !(ms[i].placeholder <= s)
  {
    if ms == [] then 0
    else if ms[0].placeholder <= s then 0
    else 1 + Starting(ms[1..], s)
  }

  /** One left-to-right reading of the text, every placeholder in it restored by itself. */
  ghost function Simultaneous(ms: seq<Mapping>, s: string): string
    requires WellFormed(ms)
    decreases |s|
  {
    var j := Starting(ms, s);
    if s == "" then ""
    else if j < |ms| then RestoreAll(ms, ms[j].placeholder) + Simultaneous(ms, s[|ms[j].placeholder|..])
    else [s[0]] + Simultaneous(ms, s[1..])
  }

  lemma {:induction false} OneStraddles(s: string, p: string, n: nat)
    requires s != "" && EndsIn([s[0]], p, n) && p[n..] <= s[1..]
    ensures p <= s
  {
    OneEndsIn(s[0], p, n);
    Unpeel(p, 0, s);
    assert p[0..] == p;
  }

  lemma {:induction false} PlainCut(ms: seq<Mapping>, s: string)
    requires WellFormed(ms) && s != "" && Starting(ms, s) == |ms|
    ensures OpenCut(ms, [s[0]], s[1..])
  {
    forall j | 0 <= j < |ms|
      ensures !Straddles([s[0]], s[1..], ms[j].placeholder)
    {
      if n :| EndsIn([s[0]], ms[j].placeholder, n) && ms[j].placeholder[n..] <= s[1..] {
        OneStraddles(s, ms[j].placeholder, n);
      }
    }
  }

  lemma {:induction false} PlainHead(ms: seq<Mapping>, s: string)
    requires WellFormed(ms) && s != "" && Starting(ms, s) == |ms| && Safe(ms, s)
    ensures RestoreAll(ms, s) == [s[0]] + RestoreAll(ms, s[1..]) && Safe(ms, s[1..])
  {
    HeadTail(s);
    PlainCut(ms, s);
    RestoreParts(ms, [s[0]], s[1..]);
    SafeSuffix(ms, [s[0]], s[1..]);
    if s[0] == CLOSE {
      OpenFreeIsInert(ms, [s[0]]);
    } else {
      CloseFreeIsInert(ms, [s[0]]);
    }
  }

  lemma {:induction false} TokenHead(ms: seq<Mapping>, j: nat, rest: string)
    requires WellFormed(ms) && j < |ms| && Safe(ms, ms[j].placeholder + rest)
    ensures RestoreAll(ms, ms[j].placeholder + rest) == RestoreAll(ms, ms[j].placeholder) + RestoreAll(ms, rest) && Safe(ms, rest)
  {
    FirmCut(ms, ms[j].placeholder, rest);
    RestoreParts(ms, ms[j].placeholder, rest);
    SafeSuffix(ms, ms[j].placeholder, rest);
  }

  /** Under `Safe`, the chain of replacements is one simultaneous replacement. */
  lemma {:induction false} ChainIsSimultaneous(ms: seq<Mapping>, s: string)
    requires WellFormed(ms) && Safe(ms, s)
    ensures RestoreAll(ms, s) == Simultaneous(ms, s)
    decreases |s|
  {
    var j := Starting(ms, s);
    if s == "" {
      OpenFreeIsInert(ms, s);
    } else if j < |ms| {
      var p := ms[j].placeholder;
      assert s == p + s[|p|..];
      TokenHead(ms, j, s[|p|..]);
      ChainIsSimultaneous(ms, s[|p|..]);
    } else {
      PlainHead(ms, s);
      ChainIsSimultaneous(ms, s[1..]);
    }
  }

  // ---- Lists whose originals hold no placeholder ----------------------------------------------------

  /** No original holds its own placeholder or one restored after it. */
  ghost predicate OriginalsInert(ms: seq<Mapping>) {
    forall i, j | 0 <= i <= j < |ms| :: !Occurs(ms[i].original, ms[j].placeholder)
  }

  lemma {:induction false} RestoreAbsent(ms: seq<Mapping>, s: string)
    requires WellFormed(ms) && forall k | 0 <= k < |ms| :: !Occurs(s, ms[k].placeholder)
    ensures RestoreAll(ms, s) == s
  {
    if ms != [] {
      ReplaceAllAbsent(s, ms[0].placeholder, ms[0].original);
      RestoreAbsent(ms[1..], s);
    }
  }

  /** A placeholder of such a list is restored to its original. */
  lemma {:induction false} InertRestored(ms: seq<Mapping>, j: nat)
    requires WellFormed(ms) && OriginalsInert(ms) && j < |ms|
    ensures RestoreAll(ms, ms[j].placeholder) == ms[j].original
  {
    if j == 0 {
      WholeReplaced(ms[0].placeholder, ms[0].original);
      forall k | 0 <= k < |ms[1..]|
        ensures !Occurs(ms[0].original, ms[1..][k].placeholder)
      {
        assert ms[1..][k] == ms[k + 1];
      }
      RestoreAbsent(ms[1..], ms[0].original);
    } else {
      OtherKept(ms[j].placeholder, ms[0].placeholder, ms[0].original);
      InertTail(ms, 1);
      InertRestored(ms[1..], j - 1);
    }
  }

  lemma {:induction false} InertTail(ms: seq<Mapping>, n: nat)
    requires n <= |ms| && WellFormed(ms) && OriginalsInert(ms)
    ensures WellFormed(ms[n..]) && OriginalsInert(ms[n..])
  {
    forall i, j | 0 <= i <= j < |ms[n..]|
      ensures !Occurs(ms[n..][i].original, ms[n..][j].placeholder)
    {
      assert !Occurs(ms[n + i].original, ms[n + j].placeholder);
    }
  }

  lemma {:induction false} InertNeverSelf(ms: seq<Mapping>, j: nat)
    requires WellFormed(ms) && OriginalsInert(ms) && j < |ms|
    ensures !SelfRestoring(ms, j)
  {
    InertTail(ms, j);
    InertRestored(ms[j..], 0);
    OccursInItself(ms[j].placeholder);
  }

  /** For such lists no assembly is harmless. */
  lemma {:induction false} InertHarmless(ms: seq<Mapping>)
    requires WellFormed(ms) && OriginalsInert(ms)
    ensures HarmlessAssembly(ms) <==> NoAssembly(ms)
  {
    forall j | 0 <= j < |ms|
      ensures !SelfRestoring(ms, j)
    {
      InertNeverSelf(ms, j);
    }
  }

  lemma {:induction false} OccursInItself(p: string)
    ensures Occurs(p, p)
  {
    assert p[0..] == p;
    assert OccursAt(p, p, 0);
  }
}
