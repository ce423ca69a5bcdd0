/** Exactly which message texts survive sanitizing and restoring in every request. */
module RoundTripExactness {
  import opened Text
  import opened Merge
  import opened Restore
  import opened Placeholders
  import opened Mapper
  import opened Processor

  /** The text spells out a name the mapper could hand out. */
  ghost predicate SpellsPlaceholder(text: string) {
    exists t, n :: n >= 1 && Occurs(text, PlaceholderFor(t, n))
  }

  ghost predicate AlwaysComesBack(text: string) {
    forall messages: seq<Message>, hits: seq<seq<Hit>>, k: nat ::
      Recognized(messages, hits) && k < |messages| && messages[k].content == text ==> ComesBack(messages, hits, k)
  }

  lemma {:induction false} NamesAreNumbered(ms: seq<Entry>, i: nat) returns (n: nat)
    requires i < |ms| && RightlyNamed(ms, i)
    ensures n >= 1 && ms[i].placeholder == PlaceholderFor(ms[i].info.entityType, n)
  {
    n := Numbered(ms[..i + 1], ms[i].info.entityType);
    assert ms[..i + 1][i] == ms[i];
  }

  lemma {:induction false} NothingSpelled(messages: seq<Message>, hits: seq<seq<Hit>>, k: nat)
    requires Recognized(messages, hits) && k < |messages| && !SpellsPlaceholder(messages[k].content)
    ensures ComesBack(messages, hits, k)
  {
    EmptyInv();
    SanitizeKeeps(EMPTY, messages, hits, 0);
    var ms := Sanitized(messages, hits).0.mappings;
    forall i | 0 <= i < |ms|
      ensures !Occurs(messages[k].content, ms[i].placeholder)
    {
      var n := NamesAreNumbered(ms, i);
    }
    MessageRoundTrip(messages, hits, k);
  }

  // ---- Counting opening brackets -------------------------------------------------------

  ghost function Opens(s: string): nat {
    if s == "" then 0 else (if s[0] == OPEN then 1 else 0) + Opens(s[1..])
  }

  lemma {:induction false} OpensConcat(a: string, b: string)
    ensures Opens(a + b) == Opens(a) + Opens(b)
  {
    if a == "" {
      assert a + b == b;
    } else {
      DropConcat(a, b, 1);
      OpensConcat(a[1..], b);
    }
  }

  lemma {:induction false} OpensNone(s: string)
    requires OpenFree(s)
    ensures Opens(s) == 0
  {
    if s != "" {
      OpensNone(s[1..]);
    }
  }

  lemma {:induction false} OccursLater(s: string, p: string)
    requires s != "" && Occurs(s, p) && !(p <= s)
    ensures Occurs(s[1..], p)
  {
    var i :| OccursAt(s, p, i);
    assert s[0..] == s;
    assert i > 0;
    assert s[1..][i - 1..] == s[i..];
    assert OccursAt(s[1..], p, i - 1);
  }

  /** Replacing a placeholder by bracket-free text loses an opening bracket, if it occurs. */
  lemma {:induction false} ReplaceLosesOpens(s: string, p: string, o: string)
    requires Shaped(p) && OpenFree(o)
    ensures Opens(ReplaceAll(s, p, o)) <= Opens(s)
    ensures Occurs(s, p) ==> Opens(ReplaceAll(s, p, o)) < Opens(s)
    decreases |s|
  {
    if s == "" {
    } else if p <= s {
      var rest := s[|p|..];
      ReplaceLosesOpens(rest, p, o);
      OpensNone(o);
      OpensConcat(o, ReplaceAll(rest, p, o));
      assert s == p + rest;
      OpensConcat(p, rest);
    } else {
      ReplaceLosesOpens(s[1..], p, o);
      var rest := ReplaceAll(s[1..], p, o);
      assert ([s[0]] + rest)[1..] == rest;
      if Occurs(s, p) {
        OccursLater(s, p);
      }
    }
  }

  lemma {:induction false} RestoreLosesOpens(ms: seq<Mapping>, s: string)
    requires WellFormed(ms) && OriginalsOpenFree(ms)
    ensures Opens(RestoreAll(ms, s)) <= Opens(s)
    ensures !(forall k | 0 <= k < |ms| :: !Occurs(s, ms[k].placeholder)) ==> Opens(RestoreAll(ms, s)) < Opens(s)
  {
    if ms != [] {
      var p, o := ms[0].placeholder, ms[0].original;
      ReplaceLosesOpens(s, p, o);
      RestoreLosesOpens(ms[1..], ReplaceAll(s, p, o));
      if !Occurs(s, p) {
        ReplaceAllAbsent(s, p, o);
        if k :| 0 <= k < |ms| && Occurs(s, ms[k].placeholder) {
          assert ms[1..][k - 1] == ms[k];
        }
      }
    }
  }

  // ---- A request that uses up the numbers 1 .. n of a type -------------------------------

  function As(n: nat): string {
    seq(n, _ => 'a')
  }

  function Filler(t: EntityType, j: nat): Entry {
    Mapping(PlaceholderFor(t, j), As(j), EntityInfo(t, Regex))
  }

  function Fillers(t: EntityType, n: nat): seq<Entry> {
    seq(n, i requires 0 <= i < n => Filler(t, i + 1))
  }

  function FillerHit(t: EntityType, j: nat): Hit {
    Hit(0, j, As(j), t, Regex)
  }

  function FillerMessages(n: nat, text: string): seq<Message> {
    seq(n + 1, i requires 0 <= i <= n => Message(NoRole, if i < n then As(i + 1) else text))
  }

  function FillerHits(t: EntityType, n: nat): seq<seq<Hit>> {
    seq(n + 1, i requires 0 <= i <= n => if i < n then [FillerHit(t, i + 1)] else [])
  }

  lemma {:induction false} BytesAs(n: nat)
    ensures Bytes(As(n)) == n
    ensures Slice(As(n), 0, n) == As(n)
  {
    if n > 0 {
      BytesAs(n - 1);
      assert As(n)[1..] == As(n - 1);
    }
    SliceWhole(As(n));
  }

  lemma {:induction false} NumberedFillers(t: EntityType, n: nat)
    ensures Numbered(Fillers(t, n), t) == n
  {
    if n > 0 {
      NumberedFillers(t, n - 1);
      assert Fillers(t, n)[..n - 1] == Fillers(t, n - 1);
    }
  }

  lemma {:induction false} FillerIsNew(st: State, t: EntityType, i: nat)
    requires Inv(st) && st.mappings == Fillers(t, i)
    ensures Key(t, As(i + 1)) !in st.byOriginal
  {
    var key := Key(t, As(i + 1));
    assert forall k | 0 <= k < i :: |st.mappings[k].original| == k + 1;
    if key in st.byOriginal {
      var e := st.byOriginal[key];
      KeyInjective(e.info.entityType, e.original, t, As(i + 1));
    }
  }

  /** A hit on a whole text does nothing but intern it. */
  lemma {:induction false} ApplyWhole(st: State, text: string, h: Hit, messageIndex: int, role: Role)
    requires h.start == 0 && h.end == Bytes(text) > 0
    ensures Apply(st, text, [h], messageIndex, role).0.mappings == Intern(st, h).0.mappings
  {
    assert StableSort([h], StartsBefore) == [h] + [];
    var st1 := Record(st, h, messageIndex, role).0;
    assert Rewrite(st1, text, h.end, [h][1..], messageIndex, role).0 == st1;
  }

  /** Filler message `i` adds filler `i + 1` to the list. */
  lemma {:induction false} FillOne(st: State, t: EntityType, i: nat)
    requires Inv(st) && st.mappings == Fillers(t, i)
    ensures var next := Apply(st, As(i + 1), [FillerHit(t, i + 1)], i, NoRole).0;
            Inv(next) && next.mappings == Fillers(t, i + 1)
  {
    var h, text := FillerHit(t, i + 1), As(i + 1);
    BytesAs(i + 1);
    NumberedFillers(t, i);
    ApplyKeeps(st, text, [h], i, NoRole);
    ApplyWhole(st, text, h, i, NoRole);
    FillerIsNew(st, t, i);
    FillersGrow(t, i);
  }

  lemma FillersGrow(t: EntityType, i: nat)
    ensures Fillers(t, i + 1) == Fillers(t, i) + [Filler(t, i + 1)]
  {
  }

  lemma {:induction false} FillFrom(st: State, t: EntityType, n: nat, text: string, i: nat)
    requires i <= n && Inv(st) && st.mappings == Fillers(t, i)
    ensures var (last, out) := SanitizeFrom(st, FillerMessages(n, text), FillerHits(t, n), i);
            last.mappings == Fillers(t, n) && |out| == n + 1 - i && out[n - i].content == text
    decreases n - i
  {
    var ms, hits := FillerMessages(n, text), FillerHits(t, n);
    if i < n {
      FillOne(st, t, i);
      FillFrom(Apply(st, ms[i].content, hits[i], i, ms[i].role).0, t, n, text, i + 1);
    } else {
      assert Apply(st, text, [], n, NoRole) == (st, text);
      assert SanitizeFrom(st, ms, hits, n + 1) == (st, []);
    }
  }

  lemma {:induction false} FillersRecognized(text: string, t: EntityType, n: nat)
    ensures Recognized(FillerMessages(n, text), FillerHits(t, n))
  {
    var messages, hits := FillerMessages(n, text), FillerHits(t, n);
    forall i | 0 <= i < |messages|
      ensures AllFromText(messages[i].content, hits[i])
    {
      if i < n {
        BytesAs(i + 1);
      }
    }
  }

  lemma FillersOpenFree(t: EntityType, n: nat)
    ensures OriginalsOpenFree(Fillers(t, n))
  {
  }

  lemma {:induction false} FillersChange(text: string, t: EntityType, n: nat)
    requires n >= 1 && Occurs(text, PlaceholderFor(t, n)) && WellFormed(Fillers(t, n))
    ensures RestoreAll(Fillers(t, n), text) != text
  {
    var fs := Fillers(t, n);
    assert fs[n - 1].placeholder == PlaceholderFor(t, n);
    FillersOpenFree(t, n);
    RestoreLosesOpens(fs, text);
  }

  lemma {:induction false} SpelledIsLost(text: string, t: EntityType, n: nat)
    requires n >= 1 && Occurs(text, PlaceholderFor(t, n))
    ensures Recognized(FillerMessages(n, text), FillerHits(t, n))
    ensures !ComesBack(FillerMessages(n, text), FillerHits(t, n), n)
  {
    var messages, hits := FillerMessages(n, text), FillerHits(t, n);
    var final := Sanitized(messages, hits).0;
    FillersRecognized(text, t, n);
    EmptyInv();
    FillFrom(EMPTY, t, n, text, 0);
    SanitizeKeeps(EMPTY, messages, hits, 0);
    OneToOne(final);
    FillersChange(text, t, n);
    assert messages[n].content == text;
  }

  /**
    Exactly the texts that spell no placeholder name come back from every request,
    whatever the recognizers find and whatever the other messages are.
   */
  lemma {:induction false} RoundTripExact(text: string)
    ensures AlwaysComesBack(text) <==> !SpellsPlaceholder(text)
  {
    if SpellsPlaceholder(text) {
      var t, n :| n >= 1 && Occurs(text, PlaceholderFor(t, n));
      SpelledIsLost(text, t, n);
      assert FillerMessages(n, text)[n].content == text;
    } else {
      forall messages: seq<Message>, hits: seq<seq<Hit>>, k: nat | Recognized(messages, hits) && k < |messages| && messages[k].content == text
        ensures ComesBack(messages, hits, k)
      {
        NothingSpelled(messages, hits, k);
      }
    }
  }

  /** In particular, every text without an opening bracket comes back. */
  lemma {:induction false} OpenFreeComesBack(text: string)
    requires OpenFree(text)
    ensures AlwaysComesBack(text)
  {
    forall t, n, i
      ensures !OccursAt(text, PlaceholderFor(t, n), i)
    {
      PlaceholderShaped(t, n);
      if 0 <= i < |text| {
        assert text[i..][0] == text[i];
      }
    }
    RoundTripExact(text);
  }
}
