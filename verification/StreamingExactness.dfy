/** Exactly which mapping lists let every stream be restored as its whole text would be. */
module StreamingExactness {
  import opened Text
  import opened Restore
  import opened Cuts
  import opened TailBuffer

  ghost predicate StreamsAsBatch(ms: seq<Mapping>, upstream: seq<Event>) {
    DoneIsLast(upstream) ==>
      DeltaText(Delivered(ms, "", upstream)) == RestoreAll(ms, DeltaText(upstream))
  }

  // ---- A stream that keeps a placeholder apart ----------------------------------------

  /** Three deltas that keep a placeholder apart from what stands around it. */
  function Fragments(x: string, p: string, y: string): seq<Event>
    requires p != ""
  {
    [Delta(x + [OPEN])] + ([Delta(p[1..])] + ([Delta(y)] + []))
  }

  lemma {:induction false} SplitHoldsOpen(x: string, max: nat)
    requires max >= 3
    ensures SplitPlaceholderTail(x + [OPEN], max) == (x, [OPEN])
  {
    var s := x + [OPEN];
    assert LastIndex(s, OPEN) == |x|;
    assert s[|x|..] == [OPEN] && s[..|x|] == x;
    assert Bytes([OPEN]) == 3 by { assert [OPEN][1..] == ""; }
  }

  lemma {:induction false} SplitReleasesWhole(s: string, max: nat)
    requires Shaped(s) || OpenFree(s)
    ensures SplitPlaceholderTail(s, max) == (s, "")
  {
    if Shaped(s) {
      assert LastIndex(s, OPEN) == 0;
      assert s[0..] == s;
    }
  }

  lemma {:induction false} LongestIsPositive(ms: seq<Mapping>, i: nat)
    requires WellFormed(ms) && i < |ms|
    ensures LongestPlaceholder(ms) >= 3
  {
    var p := ms[i].placeholder;
    assert Bytes(p) >= Utf8Len(p[0]);
  }

  lemma {:induction false} DeltaDelivered(ms: seq<Mapping>, tail: string, d: string, later: seq<Event>)
    ensures var (emit, rest) := if d == "" then ("", tail) else SplitPlaceholderTail(tail + d, LongestPlaceholder(ms));
            DeltaText(Delivered(ms, tail, [Delta(d)] + later))
            == (if d == "" then "" else RestoreAll(ms, emit)) + DeltaText(Delivered(ms, rest, later))
  {
    var es := [Delta(d)] + later;
    assert es[1..] == later;
    var (sent, rest) := Forwarded(ms, tail, es[0]);
    DeltaTextConcat(sent, Delivered(ms, rest, later));
    assert sent == [sent[0]] + [];
    OneDelta(sent[0].text, []);
  }

  lemma {:induction false} FirstFragment(ms: seq<Mapping>, i: nat, x: string, later: seq<Event>)
    requires WellFormed(ms) && i < |ms| && CLOSE !in x
    ensures DeltaText(Delivered(ms, "", [Delta(x + [OPEN])] + later))
         == x + DeltaText(Delivered(ms, [OPEN], later))
  {
    assert "" + (x + [OPEN]) == x + [OPEN];
    LongestIsPositive(ms, i);
    SplitHoldsOpen(x, LongestPlaceholder(ms));
    CloseFreeIsInert(ms, x);
    DeltaDelivered(ms, "", x + [OPEN], later);
  }

  lemma {:induction false} SecondFragment(ms: seq<Mapping>, i: nat, later: seq<Event>)
    requires WellFormed(ms) && i < |ms|
    ensures DeltaText(Delivered(ms, [OPEN], [Delta(ms[i].placeholder[1..])] + later))
         == RestoreAll(ms, ms[i].placeholder) + DeltaText(Delivered(ms, "", later))
  {
    var p := ms[i].placeholder;
    assert [OPEN] + p[1..] == p;
    SplitReleasesWhole(p, LongestPlaceholder(ms));
    DeltaDelivered(ms, [OPEN], p[1..], later);
  }

  lemma {:induction false} LastFragment(ms: seq<Mapping>, y: string)
    requires WellFormed(ms) && OpenFree(y)
    ensures DeltaText(Delivered(ms, "", [Delta(y)] + [])) == y
  {
    assert "" + y == y && y + "" == y;
    SplitReleasesWhole(y, LongestPlaceholder(ms));
    OpenFreeIsInert(ms, y);
    DeltaDelivered(ms, "", y, []);
  }

  lemma {:induction false} FragmentsDelivered(ms: seq<Mapping>, i: nat, x: string, y: string)
    requires WellFormed(ms) && i < |ms|
    requires CLOSE !in x && OpenFree(y)
    ensures DeltaText(Delivered(ms, "", Fragments(x, ms[i].placeholder, y))) == x + (RestoreAll(ms, ms[i].placeholder) + y)
  {
    var third := [Delta(y)] + [];
    var second := [Delta(ms[i].placeholder[1..])] + third;
    FirstFragment(ms, i, x, second);
    SecondFragment(ms, i, third);
    LastFragment(ms, y);
  }

  lemma {:induction false} FragmentsText(x: string, p: string, y: string)
    requires p != "" && p[0] == OPEN
    ensures DeltaText(Fragments(x, p, y)) == x + p + y && DoneIsLast(Fragments(x, p, y))
  {
    var third := [Delta(y)] + [];
    var second := [Delta(p[1..])] + third;
    OneDelta(y, []);
    assert second[1..] == third && ([Delta(x + [OPEN])] + second)[1..] == second;
    assert DeltaText(second) == p[1..] + y;
    assert (x + [OPEN]) + (p[1..] + y) == x + p + y;
  }

  lemma {:induction false} FragmentsAsEvents(ms: seq<Mapping>, i: nat, x: string, y: string) returns (upstream: seq<Event>)
    requires WellFormed(ms) && i < |ms| && CLOSE !in x && OpenFree(y)
    ensures DoneIsLast(upstream) && DeltaText(upstream) == x + ms[i].placeholder + y
    ensures DeltaText(Delivered(ms, "", upstream)) == x + (RestoreAll(ms, ms[i].placeholder) + y)
  {
    upstream := Fragments(x, ms[i].placeholder, y);
    FragmentsText(x, ms[i].placeholder, y);
    FragmentsDelivered(ms, i, x, y);
  }

  // ---- Its batch -----------------------------------------------------------------------

  /** Brackets keep a placeholder apart from close-free text before and open-free text after it. */
  lemma {:induction false} ReplaceAround(x: string, t: string, y: string, p: string, o: string)
    requires Shaped(p) && Shaped(t) && CLOSE !in x && OpenFree(y)
    ensures ReplaceAll(x + t + y, p, o) == x + ReplaceAll(t, p, o) + y
  {
    ReplaceAfter(x, t, p, o);
    ClosedStops(x + t, y, p);
    ReplaceParts(x + t, y, p, o);
    OpenFreeKept(y, p, o);
  }

  lemma {:induction false} ReplaceAfter(x: string, t: string, p: string, o: string)
    requires Shaped(p) && t != "" && t[0] == OPEN && CLOSE !in x
    ensures ReplaceAll(x + t, p, o) == x + ReplaceAll(t, p, o)
  {
    OpenStops(x, t, p);
    ReplaceParts(x, t, p, o);
    CloseFreeKept(x, p, o);
  }

  lemma {:induction false} RestoreAround(ms: seq<Mapping>, i: nat, x: string, y: string)
    requires WellFormed(ms) && i < |ms| && CLOSE !in x && OpenFree(y)
    ensures RestoreAll(ms, x + ms[i].placeholder + y) == RestoreAll(ms[i + 1..], x + ms[i].original + y)
  {
    var p, o, t := ms[0].placeholder, ms[0].original, ms[i].placeholder;
    ReplaceAround(x, t, y, p, o);
    if i == 0 {
      WholeReplaced(p, o);
    } else {
      assert ms[1..][i - 1] == ms[i] && ms[1..][i..] == ms[i + 1..];
      OtherKept(t, p, o);
      WellFormedTail(ms);
      RestoreAround(ms[1..], i - 1, x, y);
    }
  }

  lemma {:induction false} RestoreToken(ms: seq<Mapping>, i: nat)
    requires WellFormed(ms) && i < |ms|
    ensures RestoreAll(ms, ms[i].placeholder) == RestoreAll(ms[i + 1..], ms[i].original)
  {
    RestoreAround(ms, i, "", "");
    assert "" + ms[i].placeholder + "" == ms[i].placeholder && "" + ms[i].original + "" == ms[i].original;
  }

  /** Beyond the `k`-th placeholder assembly does no harm. */
  ghost predicate HarmlessBeyond(ms: seq<Mapping>, k: int) {
    forall i, j | 0 <= i < j < |ms| && j > k && Assembles(ms[i].original, ms[j].placeholder) :: SelfRestoring(ms, j)
  }

  lemma {:induction false} BeyondTail(ms: seq<Mapping>, d: nat, k: nat)
    requires d <= k < |ms| && WellFormed(ms) && HarmlessBeyond(ms, k)
    ensures WellFormed(ms[d..]) && HarmlessBeyond(ms[d..], k - d) && ms[d..][k - d] == ms[k]
    ensures SelfRestoring(ms[d..], k - d) <==> SelfRestoring(ms, k)
  {
    var rest := ms[d..];
    SelfRestoringDrop(ms, d, k - d);
    forall i, j | 0 <= i < j < |rest| && j > k - d && Assembles(rest[i].original, rest[j].placeholder)
      ensures SelfRestoring(rest, j)
    {
      assert Assembles(ms[d + i].original, ms[d + j].placeholder);
      SelfRestoringDrop(ms, d, j);
    }
  }

  lemma {:induction false} SelfRestoringDrop(ms: seq<Mapping>, d: nat, j: nat)
    requires d + j < |ms|
    ensures SelfRestoring(ms[d..], j) <==> SelfRestoring(ms, d + j)
  {
    assert ms[d..][j..] == ms[d + j..];
  }

  lemma {:induction false} OpenFreePasses(ms: seq<Mapping>, u: string, r: string)
    requires WellFormed(ms) && OpenFree(u)
    ensures RestoreAll(ms, u + r) == u + RestoreAll(ms, r)
  {
    if ms != [] {
      var p, o := ms[0].placeholder, ms[0].original;
      OpenFreeStops(u, r, p);
      ReplaceParts(u, r, p, o);
      OpenFreeKept(u, p, o);
      WellFormedTail(ms);
      OpenFreePasses(ms[1..], u, ReplaceAll(r, p, o));
    }
  }

  /** Harmless assembly lets an original be joined to what stands before it, or after it. */
  lemma {:induction false} OriginalJoins(ms: seq<Mapping>, w: string, r: string)
    requires ms != [] && WellFormed(ms) && HarmlessAssembly(ms)
    ensures RestoreAll(ms[1..], w + ms[0].original) == RestoreAll(ms[1..], w) + RestoreAll(ms[1..], ms[0].original)
    ensures RestoreAll(ms[1..], ms[0].original + r) == RestoreAll(ms[1..], ms[0].original) + RestoreAll(ms[1..], r)
  {
    var o := ms[0].original;
    WellFormedTail(ms);
    HarmlessTail(ms);
    AroundOriginal(ms, w, "");
    assert o + "" == o;
    AroundOriginal(ms, w, r);
    RestoreParts(ms[1..], w, o);
    RestoreParts(ms[1..], o, r);
  }

  /** A placeholder cut in two where an original ends is completed in the batch, and only there. */
  lemma {:induction false} EndingDiffers(ms: seq<Mapping>, k: nat, w: string, x: string, y: string)
    requires WellFormed(ms) && k < |ms| && HarmlessBeyond(ms, k) && !SelfRestoring(ms, k)
    requires ms[k].placeholder == x + y && x != "" && y != ""
    ensures RestoreAll(ms, w + x) + y != RestoreAll(ms, w + (x + y))
  {
    var p, o := ms[0].placeholder, ms[0].original;
    HalvesOf(x + y, x, y);
    OpenStops(w, x, p);
    ReplaceParts(w, x, p, o);
    CloseFreeKept(x, p, o);
    OpenStops(w, x + y, p);
    ReplaceParts(w, x + y, p, o);
    var w1 := ReplaceAll(w, p, o);
    if k == 0 {
      WholeReplaced(p, o);
      EndingDiffersHere(ms, w1, x, y);
    } else {
      OtherKept(x + y, p, o);
      BeyondTail(ms, 1, k);
      EndingDiffers(ms[1..], k - 1, w1, x, y);
    }
  }

  lemma {:induction false} EndingDiffersHere(ms: seq<Mapping>, w: string, x: string, y: string)
    requires ms != [] && WellFormed(ms) && HarmlessBeyond(ms, 0) && !SelfRestoring(ms, 0)
    requires ms[0].placeholder == x + y && x != "" && y != ""
    ensures RestoreAll(ms[1..], w + x) + y != RestoreAll(ms[1..], w + ms[0].original)
  {
    HalvesOf(x + y, x, y);
    OriginalJoins(ms, w, "");
    SelfRestoringHead(ms);
    WellFormedTail(ms);
    HarmlessTail(ms);
    FirmCut(ms[1..], w, x);
    RestoreParts(ms[1..], w, x);
    CloseFreeIsInert(ms[1..], x);
    DifferAfter(RestoreAll(ms[1..], w), x, y, RestoreAll(ms[1..], ms[0].original));
  }

  lemma {:induction false} DifferAfter(w: string, x: string, y: string, o: string)
    requires o != x + y
    ensures (w + x) + y != w + o
  {
    assert (w + x) + y == w + (x + y);
    assert (w + (x + y))[|w|..] == x + y && (w + o)[|w|..] == o;
  }

  /** A placeholder completed by an original, with a rest of the original after it. */
  lemma {:induction false} ContinuingDiffers(ms: seq<Mapping>, k: nat, r: string)
    requires WellFormed(ms) && k < |ms| && HarmlessBeyond(ms, k) && !SelfRestoring(ms, k)
    ensures RestoreAll(ms, ms[k].placeholder + r) != ms[k].placeholder + RestoreAll(ms, r)
  {
    var p, o, t := ms[0].placeholder, ms[0].original, ms[k].placeholder;
    ClosedStops(t, r, p);
    ReplaceParts(t, r, p, o);
    if k == 0 {
      WholeReplaced(p, o);
      OriginalJoins(ms, "", ReplaceAll(r, p, o));
      SelfRestoringHead(ms);
      DifferBefore(p, RestoreAll(ms[1..], o), RestoreAll(ms[1..], ReplaceAll(r, p, o)));
    } else {
      OtherKept(t, p, o);
      BeyondTail(ms, 1, k);
      ContinuingDiffers(ms[1..], k - 1, ReplaceAll(r, p, o));
    }
  }

  lemma {:induction false} DifferBefore(p: string, o: string, r: string)
    requires o != p
    ensures o + r != p + r
  {
    if |o| == |p| {
      assert (o + r)[..|o|] == o && (p + r)[..|p|] == p;
    }
  }

  lemma {:induction false} CutOut(p: string, n: nat, u: string)
    requires n < |p| && OccursAt(p, u, n)
    ensures n + |u| <= |p| && p == p[..n] + u + p[n + |u|..]
    ensures u != "" ==> p[n + |u| - 1] == u[|u| - 1]
  {
    assert p[n..][..|u|] == u;
    assert u != "" ==> p[n..][|u| - 1] == u[|u| - 1];
  }

  /** A later placeholder as `x` + `u` + `y`, and the original as `u` + `r`. */
  lemma {:induction false} SplitAround(o: string, p: string, n: nat) returns (x: string, u: string, y: string, r: string)
    requires Shaped(p) && Continues(o, p, n)
    ensures p == x + u + y && o == u + r && (r == "" || y == "")
    ensures CLOSE !in x && OpenFree(u) && OpenFree(y)
  {
    u := UpToClose(o);
    CutOut(p, n, u);
    x, y, r := p[..n], p[n + |u|..], o[|u|..];
    MiddlesOf(p, x, u, y);
    if CLOSE in o {
      MiddleClosed(p, x, u, y);
    }
  }

  lemma {:induction false} MiddlesOf(p: string, x: string, u: string, y: string)
    requires Shaped(p) && p == x + u + y && x != "" && |x| < |p|
    ensures OpenFree(u) && OpenFree(y) && (u + y != "" ==> CLOSE !in x)
  {
    assert forall i | 0 <= i < |x| :: x[i] == p[i];
    assert forall i | 0 <= i < |u| :: u[i] == p[|x| + i];
    assert forall i | 0 <= i < |y| :: y[i] == p[|x| + |u| + i];
  }

  lemma {:induction false} MiddleClosed(p: string, x: string, u: string, y: string)
    requires Shaped(p) && p == x + u + y && x != "" && u != "" && u[|u| - 1] == CLOSE
    ensures y == ""
  {
    assert p[|x| + |u| - 1] == CLOSE;
  }

  lemma {:induction false} ContinuingBreaks(ms: seq<Mapping>, i: nat, k: nat, n: nat) returns (upstream: seq<Event>)
    requires WellFormed(ms) && i < k < |ms| && HarmlessBeyond(ms, k) && !SelfRestoring(ms, k)
    requires Continues(ms[i].original, ms[k].placeholder, n)
    ensures !StreamsAsBatch(ms, upstream)
  {
    var x, u, y, r := SplitAround(ms[i].original, ms[k].placeholder, n);
    BeyondTail(ms, i + 1, k);
    upstream := OriginalApart(ms, i, ms[k].placeholder, x, u, y, r);
    ContinuingDiffers(ms[i + 1..], k - i - 1, r);
  }

  /** An original `u` + `r` streamed apart from `x` and `y` around it, and the same at once. */
  lemma {:induction false} OriginalApart(ms: seq<Mapping>, i: nat, q: string, x: string, u: string, y: string, r: string) returns (upstream: seq<Event>)
    requires WellFormed(ms) && i < |ms| && ms[i].original == u + r && (r == "" || y == "")
    requires CLOSE !in x && OpenFree(u) && OpenFree(y) && q == x + u + y
    ensures DoneIsLast(upstream)
    ensures DeltaText(Delivered(ms, "", upstream)) == q + RestoreAll(ms[i + 1..], r)
    ensures RestoreAll(ms, DeltaText(upstream)) == RestoreAll(ms[i + 1..], q + r)
  {
    upstream := FragmentsAsEvents(ms, i, x, y);
    RestoreToken(ms, i);
    RestoreAround(ms, i, x, y);
    OpenFreePasses(ms[i + 1..], u, r);
    OpenFreeIsInert(ms[i + 1..], "");
    Rejoin(x, u, y, r);
    Rejoin(x, u, y, RestoreAll(ms[i + 1..], r));
  }

  lemma {:induction false} Rejoin(x: string, u: string, y: string, r: string)
    requires r == "" || y == ""
    ensures x + (u + r) + y == (x + u + y) + r
    ensures x + ((u + r) + y) == (x + u + y) + r
  {
    if r == "" {
      assert u + r == u;
    }
  }

  lemma {:induction false} EndingBreaks(ms: seq<Mapping>, i: nat, k: nat, n: nat) returns (upstream: seq<Event>)
    requires WellFormed(ms) && i < k < |ms| && HarmlessBeyond(ms, k) && !SelfRestoring(ms, k)
    requires EndsIn(ms[i].original, ms[k].placeholder, n)
    ensures !StreamsAsBatch(ms, upstream)
  {
    var w, x, y := SeamOf(ms[i].original, ms[k].placeholder, n);
    HalvesOf(ms[k].placeholder, x, y);
    BeyondTail(ms, i + 1, k);
    upstream := TokenApart(ms, i, y);
    EndingDiffers(ms[i + 1..], k - i - 1, w, x, y);
  }

  /** Where a text ends with the beginning of a placeholder. */
  lemma {:induction false} SeamOf(o: string, p: string, n: nat) returns (w: string, x: string, y: string)
    requires EndsIn(o, p, n)
    ensures o == w + x && p == x + y && x != "" && y != "" && o + y == w + (x + y)
  {
    w, x, y := o[..|o| - n], p[..n], p[n..];
  }

  /** A placeholder streamed apart from the text after it, and the same at once. */
  lemma {:induction false} TokenApart(ms: seq<Mapping>, i: nat, y: string) returns (upstream: seq<Event>)
    requires WellFormed(ms) && i < |ms| && OpenFree(y)
    ensures DoneIsLast(upstream)
    ensures DeltaText(Delivered(ms, "", upstream)) == RestoreAll(ms[i + 1..], ms[i].original) + y
    ensures RestoreAll(ms, DeltaText(upstream)) == RestoreAll(ms[i + 1..], ms[i].original + y)
  {
    upstream := FragmentsAsEvents(ms, i, "", y);
    RestoreToken(ms, i);
    RestoreAround(ms, i, "", y);
    NothingBefore(ms[i].original, y);
    NothingBefore(RestoreAll(ms, ms[i].placeholder), y);
  }

  lemma NothingBefore(s: string, y: string)
    ensures "" + s + y == s + y == "" + (s + y)
  {
  }

  // ---- The condition is exact ----------------------------------------------------------

  /** The last placeholder whose assembly does harm. */
  lemma {:induction false} LastHarm(ms: seq<Mapping>, top: int) returns (i: nat, k: nat)
    requires !HarmlessAssembly(ms) && -1 <= top < |ms| && HarmlessBeyond(ms, top)
    ensures i < k < |ms| && Assembles(ms[i].original, ms[k].placeholder) && !SelfRestoring(ms, k) && HarmlessBeyond(ms, k)
    decreases top + 1
  {
    if j: nat :| j < top && Assembles(ms[j].original, ms[top].placeholder) && !SelfRestoring(ms, top) {
      i, k := j, top;
    } else {
      forall a, b | 0 <= a < b < |ms| && b > top - 1 && Assembles(ms[a].original, ms[b].placeholder)
        ensures SelfRestoring(ms, b)
      {
        assert b == top || b > top;
      }
      i, k := LastHarm(ms, top - 1);
    }
  }

  /**
    When an original is a fragment of a placeholder restored after it, and that placeholder
    is not in the end restored to itself, some stream differs from its batch.
   */
  lemma {:induction false} AssemblyBreaksStreaming(ms: seq<Mapping>, i: nat, j: nat) returns (upstream: seq<Event>)
    requires WellFormed(ms) && i < j < |ms|
    requires Assembles(ms[i].original, ms[j].placeholder) && !SelfRestoring(ms, j)
    ensures !StreamsAsBatch(ms, upstream)
  {
    var m, k := LastHarm(ms, |ms| - 1);
    if n :| Continues(ms[m].original, ms[k].placeholder, n) {
      upstream := ContinuingBreaks(ms, m, k, n);
    } else {
      var n :| EndsIn(ms[m].original, ms[k].placeholder, n);
      upstream := EndingBreaks(ms, m, k, n);
    }
  }

  /**
    The exact condition, for every mapping list the mapper can make: every stream reads as
    its batch restoration if and only if each placeholder of which an original restored
    before it is a fragment is in the end restored to itself.
   */
  lemma {:induction false} StreamingExact(ms: seq<Mapping>)
    requires WellFormed(ms)
    ensures HarmlessAssembly(ms) <==> forall upstream: seq<Event> :: StreamsAsBatch(ms, upstream)
  {
    if HarmlessAssembly(ms) {
      forall upstream: seq<Event>
        ensures StreamsAsBatch(ms, upstream)
      {
        if DoneIsLast(upstream) {
          StreamEqualsBatch(ms, "", upstream);
          assert "" + DeltaText(upstream) == DeltaText(upstream);
        }
      }
    } else {
      var i, j :| 0 <= i < j < |ms| && Assembles(ms[i].original, ms[j].placeholder) && !SelfRestoring(ms, j);
      var upstream := AssemblyBreaksStreaming(ms, i, j);
    }
  }
}
