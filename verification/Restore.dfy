/**
  Restoration: the chain of `ReplaceAll` calls that puts originals back in place of
  placeholders, and when it equals one simultaneous replacement.
 */
module Restore {
  import opened Text

  datatype Mapping<Info> = Mapping(placeholder: string, original: string, info: Info)

  /** An opening bracket, a closing bracket, and neither of them in between. */
  ghost predicate Shaped(p: string) {
    && |p| >= 2
    && p[0] == OPEN
    && p[|p| - 1] == CLOSE
    && forall i | 0 < i < |p| - 1 :: p[i] != OPEN && p[i] != CLOSE
  }

  ghost predicate WellFormed(ms: seq<Mapping>) {
    && (forall i | 0 <= i < |ms| :: Shaped(ms[i].placeholder))
    && (forall i, j | 0 <= i < j < |ms| :: ms[i].placeholder != ms[j].placeholder)
  }

  ghost predicate OpenFree(s: string) {
    OPEN !in s
  }

  ghost predicate OriginalsOpenFree(ms: seq<Mapping>) {
    forall i | 0 <= i < |ms| :: OpenFree(ms[i].original)
  }

  /** The loop of `SanitizationResult.Restore`, one mapping after the other. */
  function RestoreAll(ms: seq<Mapping>, text: string): string {
    if ms == [] then text
    else RestoreAll(ms[1..], ReplaceAll(text, ms[0].placeholder, ms[0].original))
  }

  method RestoreText(ms: seq<Mapping>, text: string) returns (restored: string)
    ensures restored == RestoreAll(ms, text)
  {
    restored := text;
    for i := 0 to |ms|
      invariant RestoreAll(ms[i..], restored) == RestoreAll(ms, text)
    {
      restored := ReplaceAll(restored, ms[i].placeholder, ms[i].original);
      assert ms[i..][1..] == ms[i + 1..];
    }
  }

  lemma {:induction false} ShapedNotNested(p: string, q: string, s: string)
    requires Shaped(p) && Shaped(q) && p <= s && q <= s
    ensures p == q
  {
    var n := if |p| < |q| then |p| else |q|;
    assert p[n - 1] == s[n - 1] == q[n - 1];
  }

  // ---- Texts cut into pieces -------------------------------------------------------

  /** A stretch of ordinary text, or one placeholder given by its place in the mapping list. */
  datatype Piece = Plain(text: string) | Token(index: nat)

  ghost predicate Indexed(ms: seq<Mapping>, ps: seq<Piece>) {
    forall i | 0 <= i < |ps| :: ps[i].Token? ==> ps[i].index < |ms|
  }

  /** What a piece reads after the first `k` mappings have been restored. */
  ghost function Shown(ms: seq<Mapping>, p: Piece, k: nat): string
    requires p.Token? ==> p.index < |ms|
  {
    match p
    case Plain(t) => t
    case Token(m) => if m < k then ms[m].original else ms[m].placeholder
  }

  ghost function Render(ms: seq<Mapping>, ps: seq<Piece>, k: nat): string
    requires Indexed(ms, ps)
  {
    if ps == [] then "" else Shown(ms, ps[0], k) + Render(ms, ps[1..], k)
  }

  /** The `k`-th placeholder is found only where a piece says so. */
  ghost predicate Clean(ms: seq<Mapping>, ps: seq<Piece>, k: nat)
    requires Indexed(ms, ps) && k < |ms|
  {
    ps == [] ||
    ((ps[0] == Token(k) || NoneStartsIn(Shown(ms, ps[0], k), Render(ms, ps, k), ms[k].placeholder))
     && Clean(ms, ps[1..], k))
  }

  ghost predicate NoneStartsIn(x: string, s: string, p: string) {
    forall i | 0 <= i < |x| :: !OccursAt(s, p, i)
  }

  lemma {:induction false} OneStage(ms: seq<Mapping>, ps: seq<Piece>, k: nat)
    requires Indexed(ms, ps) && k < |ms| && ms[k].placeholder != "" && Clean(ms, ps, k)
    ensures ReplaceAll(Render(ms, ps, k), ms[k].placeholder, ms[k].original) == Render(ms, ps, k + 1)
  {
    if ps != [] {
      OneStage(ms, ps[1..], k);
      var rest := Render(ms, ps[1..], k);
      if ps[0] == Token(k) {
        ReplaceAllAtHead(rest, ms[k].placeholder, ms[k].original);
      } else {
        ReplaceAllSkips(Shown(ms, ps[0], k), rest, ms[k].placeholder, ms[k].original);
      }
    }
  }

  lemma {:induction false} AllStages(ms: seq<Mapping>, ps: seq<Piece>, k: nat)
    requires Indexed(ms, ps) && WellFormed(ms) && k <= |ms|
    requires forall j | k <= j < |ms| :: Clean(ms, ps, j)
    ensures RestoreAll(ms[k..], Render(ms, ps, k)) == Render(ms, ps, |ms|)
    decreases |ms| - k
  {
    if k < |ms| {
      OneStage(ms, ps, k);
      AllStages(ms, ps, k + 1);
      assert ms[k..][1..] == ms[k + 1..];
    }
  }

  lemma {:induction false} AtHead(x: string, y: string, p: string, i: nat)
    requires i < |x| && OccursAt(x + y, p, i)
    ensures p <= x[i..] + y
  {
    assert (x + y)[i..] == x[i..] + y;
  }

  /** A placeholder cannot start inside a different one. */
  lemma {:induction false} NotInsideToken(ms: seq<Mapping>, m: nat, k: nat, rest: string)
    requires WellFormed(ms) && m < |ms| && k < |ms| && m != k
    ensures NoneStartsIn(ms[m].placeholder, ms[m].placeholder + rest, ms[k].placeholder)
  {
    var p, q := ms[m].placeholder, ms[k].placeholder;
    forall i | 0 <= i < |p|
      ensures !OccursAt(p + rest, q, i)
    {
      if OccursAt(p + rest, q, i) {
        AtHead(p, rest, q, i);
        assert q[0] == p[i];
        ShapedNotNested(p, q, p + rest);
      }
    }
  }

  // ---- Texts that were sanitized: nothing but tokens can match ----------------------

  lemma {:induction false} BeyondHead(v: string, x: string, rest: string)
    requires v <= x + rest && |v| > |x|
    ensures x <= v && v[|x|..] <= rest && v == x + v[|x|..]
  {
    assert (x + rest)[..|x|] == x && (x + rest)[|x|..] == rest;
  }

  lemma {:induction false} JoinHead(v: string, x: string, y: string)
    requires x <= v && v[|x|..] <= y
    ensures v <= x + y
  {
    assert v == x + v[|x|..];
  }

  lemma WithinHead(v: string, x: string, rest: string, y: string)
    requires v <= x + rest && |v| <= |x|
    ensures v <= x + y
  {
  }

  /** Text without an opening bracket that matches now still matches when all is restored. */
  lemma {:induction false} MatchSurvives(ms: seq<Mapping>, ps: seq<Piece>, k: nat, v: string)
    requires Indexed(ms, ps) && WellFormed(ms) && OpenFree(v)
    requires v <= Render(ms, ps, k)
    ensures v <= Render(ms, ps, |ms|)
  {
    if ps != [] && v != "" {
      var x := Shown(ms, ps[0], k);
      var rest := Render(ms, ps[1..], k);
      assert v[0] == (x + rest)[0];
      if !(ps[0].Token? && ps[0].index >= k) {
        if |v| > |x| {
          BeyondHead(v, x, rest);
          MatchSurvives(ms, ps[1..], k, v[|x|..]);
          JoinHead(v, x, Render(ms, ps[1..], |ms|));
        } else {
          WithinHead(v, x, rest, Render(ms, ps[1..], |ms|));
        }
      }
    }
  }

  /** In a sanitized text every placeholder found at any stage is a token. */
  lemma {:induction false} SanitizedIsClean(ms: seq<Mapping>, ps: seq<Piece>, k: nat)
    requires Indexed(ms, ps) && WellFormed(ms) && k < |ms|
    requires !Occurs(Render(ms, ps, |ms|), ms[k].placeholder)
    ensures Clean(ms, ps, k)
  {
    if ps != [] {
      var p := ms[k].placeholder;
      var x, now, final := Shown(ms, ps[0], k), Render(ms, ps[1..], k), Render(ms, ps[1..], |ms|);
      var y := Shown(ms, ps[0], |ms|);
      if Occurs(final, p) {
        var i :| OccursAt(final, p, i);
        assert (y + final)[|y| + i..] == final[i..];
        assert OccursAt(y + final, p, |y| + i);
      }
      SanitizedIsClean(ms, ps[1..], k);
      if ps[0].Token? && ps[0].index > k {
        NotInsideToken(ms, ps[0].index, k, now);
      } else if ps[0] != Token(k) {
        forall i | 0 <= i < |x|
          ensures !OccursAt(x + now, p, i)
        {
          if OccursAt(x + now, p, i) {
            StartsInPlain(ms, ps[1..], k, x, i);
          }
        }
      }
    }
  }

  lemma {:induction false} StartsInPlain(ms: seq<Mapping>, ps: seq<Piece>, k: nat, x: string, i: nat)
    requires Indexed(ms, ps) && WellFormed(ms) && k < |ms|
    requires i < |x| && OccursAt(x + Render(ms, ps, k), ms[k].placeholder, i)
    ensures OccursAt(x + Render(ms, ps, |ms|), ms[k].placeholder, i)
  {
    var p, now, final := ms[k].placeholder, Render(ms, ps, k), Render(ms, ps, |ms|);
    AtHead(x, now, p, i);
    assert (x + final)[i..] == x[i..] + final;
    var n := |x| - i;
    if |p| > n {
      assert p[n..] <= now;
      MatchSurvives(ms, ps, k, p[n..]);
      assert p == x[i..] + p[n..];
    }
  }

  /**
    Round trip for one text: if no placeholder of the final list occurs in the original
    text, restoring its sanitized form gives the original back, whatever else the list holds.
   */
  lemma {:induction false} RoundTrip(ms: seq<Mapping>, ps: seq<Piece>)
    requires Indexed(ms, ps) && WellFormed(ms)
    requires forall k | 0 <= k < |ms| :: !Occurs(Render(ms, ps, |ms|), ms[k].placeholder)
    ensures RestoreAll(ms, Render(ms, ps, 0)) == Render(ms, ps, |ms|)
  {
    forall k | 0 <= k < |ms|
      ensures Clean(ms, ps, k)
    {
      SanitizedIsClean(ms, ps, k);
    }
    AllStages(ms, ps, 0);
    assert ms[0..] == ms;
  }
}
