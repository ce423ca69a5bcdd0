/**
  Text as the gateway sees it: sequences of Unicode code points.  Offsets and lengths
  that the program measures in bytes are measured here in UTF-8 bytes.
 */
module Text {

  const OPEN: char := '\U{3016}'
  const CLOSE: char := '\U{3017}'

  /** Number of bytes of one code point in UTF-8 (section 3 of RFC 3629). */
  function Utf8Len(c: char): nat {
    if c as int < 0x80 then 1
    else if c as int < 0x800 then 2
    else if c as int < 0x10000 then 3
    else 4
  }

  function Bytes(s: string): nat {
    if s == "" then 0 else Utf8Len(s[0]) + Bytes(s[1..])
  }

  lemma {:induction false} BytesConcat(a: string, b: string)
    ensures Bytes(a + b) == Bytes(a) + Bytes(b)
  {
    if a == "" {
      assert a + b == b;
    } else {
      BytesConcat(a[1..], b);
      assert (a + b)[1..] == a[1..] + b;
    }
  }

  /** Index of the code point that starts at byte offset `off`. */
  function CharIndex(s: string, off: int): (i: nat)
    ensures i <= |s|
  {
    if off <= 0 || s == "" then 0 else 1 + CharIndex(s[1..], off - Utf8Len(s[0]))
  }

  lemma {:induction false} CharIndexMonotone(s: string, a: int, b: int)
    requires a <= b
    ensures CharIndex(s, a) <= CharIndex(s, b)
  {
    if a > 0 && s != "" {
      CharIndexMonotone(s[1..], a - Utf8Len(s[0]), b - Utf8Len(s[0]));
    }
  }

  lemma {:induction false} CharIndexEnd(s: string)
    ensures CharIndex(s, Bytes(s)) == |s|
  {
    if s != "" {
      CharIndexEnd(s[1..]);
    }
  }

  /** The program's `text[from:to]` on byte offsets. */
  function Slice(s: string, from: int, to: int): string
    requires from <= to
  {
    CharIndexMonotone(s, from, to);
    s[CharIndex(s, from)..CharIndex(s, to)]
  }

  lemma {:induction false} SliceJoins(s: string, a: int, b: int, c: int)
    requires a <= b <= c
    ensures Slice(s, a, b) + Slice(s, b, c) == Slice(s, a, c)
  {
    CharIndexMonotone(s, a, b);
    CharIndexMonotone(s, b, c);
  }

  lemma {:induction false} SliceWhole(s: string)
    ensures Slice(s, 0, Bytes(s)) == s
  {
    CharIndexEnd(s);
  }

  lemma DropConcat<T>(a: seq<T>, b: seq<T>, n: nat)
    requires n <= |a|
    ensures (a + b)[n..] == a[n..] + b
  {
  }

  lemma ConcatAssoc<T>(a: seq<T>, b: seq<T>, c: seq<T>)
    ensures (a + b) + c == a + (b + c)
  {
  }

  lemma HeadTail<T>(a: seq<T>)
    requires a != []
    ensures [a[0]] + a[1..] == a
  {
  }

  ghost predicate OccursAt(s: string, p: string, i: int) {
    0 <= i <= |s| && p <= s[i..]
  }

  ghost predicate Occurs(s: string, p: string) {
    exists i :: OccursAt(s, p, i)
  }

  /** `strings.ReplaceAll`: leftmost, non-overlapping, replacements are not scanned again. */
  function ReplaceAll(s: string, from: string, to: string): string {
    if from == "" then Interleave(s, to)
    else if s == "" then ""
    else if from <= s then to + ReplaceAll(s[|from|..], from, to)
    else [s[0]] + ReplaceAll(s[1..], from, to)
  }

  /** An empty pattern matches before every code point and at the end. */
  function Interleave(s: string, to: string): string {
    if s == "" then to else to + [s[0]] + Interleave(s[1..], to)
  }

  /** `strings.LastIndex` of a one-code-point needle. */
  function LastIndex(s: string, c: char): (i: int)
    ensures -1 <= i < |s|
    ensures i >= 0 ==> s[i] == c
    ensures forall k | i < k < |s| :: s[k] != c
  {
    if s == "" then -1
    else if s[|s| - 1] == c then |s| - 1
    else LastIndex(s[..|s| - 1], c)
  }

  /** `strings.Index` of a one-code-point needle. */
  function Index(s: string, c: char): (i: int)
    ensures -1 <= i < |s|
    ensures i >= 0 ==> s[i] == c
    ensures forall k | 0 <= k < (if i < 0 then |s| else i) :: s[k] != c
  {
    if s == "" then -1
    else if s[0] == c then 0
    else var j := Index(s[1..], c); if j < 0 then -1 else j + 1
  }

  lemma {:induction false} OccursInTail(s: string, p: string, i: nat)
    requires s != "" && OccursAt(s[1..], p, i)
    ensures OccursAt(s, p, i + 1)
  {
    assert s[1..][i..] == s[i + 1..];
  }

  /** Replacement leaves a stretch alone in which no occurrence starts. */
  lemma {:induction false} ReplaceAllSkips(x: string, rest: string, from: string, to: string)
    requires from != ""
    requires forall i | 0 <= i < |x| :: !OccursAt(x + rest, from, i)
    ensures ReplaceAll(x + rest, from, to) == x + ReplaceAll(rest, from, to)
  {
    if x == "" {
      assert x + rest == rest;
    } else {
      var s, tail := x + rest, x[1..] + rest;
      DropConcat(x, rest, 1);
      NoneLater(x, rest, from);
      ReplaceAllSkips(x[1..], rest, from, to);
      NotAtHead(s, from);
      assert ReplaceAll(s, from, to) == [s[0]] + ReplaceAll(tail, from, to);
      HeadTail(x);
      ConcatAssoc([x[0]], x[1..], ReplaceAll(rest, from, to));
    }
  }

  lemma {:induction false} NotAtHead(s: string, p: string)
    requires !OccursAt(s, p, 0)
    ensures !(p <= s)
  {
    assert s[0..] == s;
  }

  lemma {:induction false} NoneLater(x: string, rest: string, from: string)
    requires x != "" && forall i | 0 <= i < |x| :: !OccursAt(x + rest, from, i)
    ensures forall i | 0 <= i < |x[1..]| :: !OccursAt(x[1..] + rest, from, i)
  {
    DropConcat(x, rest, 1);
    forall i | 0 <= i < |x[1..]|
      ensures !OccursAt(x[1..] + rest, from, i)
    {
      if OccursAt(x[1..] + rest, from, i) {
        OccursInTail(x + rest, from, i);
      }
    }
  }

  lemma {:induction false} ReplaceAllAbsent(s: string, from: string, to: string)
    requires from != "" && !Occurs(s, from)
    ensures ReplaceAll(s, from, to) == s
  {
    assert s + "" == s;
    ReplaceAllSkips(s, "", from, to);
  }

  lemma {:induction false} ReplaceAllAtHead(rest: string, from: string, to: string)
    requires from != ""
    ensures ReplaceAll(from + rest, from, to) == to + ReplaceAll(rest, from, to)
  {
    assert (from + rest)[|from|..] == rest;
  }
}
