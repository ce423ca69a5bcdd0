/** Hits found by the recognizers, and merging of overlapping hits. */
module Merge {

  datatype EntityType =
    | Organization | Person | ProjectCode | SecretKeywordBlacklist | DocumentNumber
    | Amount | IdentityNumber | UnifiedSocialCreditCode | NamedEntity

  datatype Source = Regex | Dictionary | NER | OtherSource

  /** A recognized span; `start` and `end` are byte offsets. */
  datatype Hit = Hit(start: int, end: int, text: string, entityType: EntityType, source: Source) {
    predicate Overlaps(other: Hit) {
      start < other.end && other.start < end
    }

    function Length(): int {
      end - start
    }

    function Priority(): int {
      if entityType == SecretKeywordBlacklist then 4
      else match source
        case Regex => 3
        case Dictionary => 2
        case NER => 1
        case OtherSource => 0
    }

    /** `betterHit(this, existing)`. */
    predicate Better(existing: Hit) {
      if Priority() != existing.Priority() then Priority() > existing.Priority()
      else Length() > existing.Length()
    }

    predicate Nonempty() {
      start < end
    }
  }

  // ---- Stable sorting (`sort.SliceStable`) ------------------------------------------

  /** The order in which hits are offered to the merge. */
  predicate Before(a: Hit, b: Hit) {
    if a.start != b.start then a.start < b.start else a.Better(b)
  }

  predicate StartsBefore(a: Hit, b: Hit) {
    a.start < b.start
  }

  function Insert(h: Hit, sorted: seq<Hit>, less: (Hit, Hit) -> bool): seq<Hit> {
    if sorted == [] || !less(sorted[0], h) then [h] + sorted
    else [sorted[0]] + Insert(h, sorted[1..], less)
  }

  /** Stable: an element goes before the later elements that are not less than it. */
  function StableSort(hits: seq<Hit>, less: (Hit, Hit) -> bool): seq<Hit> {
    if hits == [] then [] else Insert(hits[0], StableSort(hits[1..], less), less)
  }

  ghost predicate Ordered(hits: seq<Hit>) {
    forall i, j | 0 <= i < j < |hits| :: hits[i].start <= hits[j].start
  }

  lemma {:induction false} InsertKeeps(h: Hit, s: seq<Hit>, less: (Hit, Hit) -> bool)
    ensures multiset(Insert(h, s, less)) == multiset(s) + multiset{h}
  {
    if s == [] || !less(s[0], h) {
      assert multiset([h] + s) == multiset{h} + multiset(s);
    } else {
      InsertKeeps(h, s[1..], less);
      assert s == [s[0]] + s[1..];
      assert multiset(s) == multiset{s[0]} + multiset(s[1..]);
    }
  }

  lemma {:induction false} SortKeeps(hits: seq<Hit>, less: (Hit, Hit) -> bool)
    ensures multiset(StableSort(hits, less)) == multiset(hits)
    ensures forall h :: h in StableSort(hits, less) <==> h in hits
  {
    if hits != [] {
      SortKeeps(hits[1..], less);
      InsertKeeps(hits[0], StableSort(hits[1..], less), less);
      assert hits == [hits[0]] + hits[1..];
    }
    assert forall h :: h in StableSort(hits, less) <==> h in multiset(StableSort(hits, less));
    assert forall h :: h in hits <==> h in multiset(hits);
  }

  lemma {:induction false} InsertOrders(h: Hit, s: seq<Hit>, less: (Hit, Hit) -> bool)
    requires Ordered(s) && (less == Before || less == StartsBefore)
    ensures Ordered(Insert(h, s, less))
  {
    if s != [] && less(s[0], h) {
      InsertOrders(h, s[1..], less);
      var t := Insert(h, s[1..], less);
      InsertKeeps(h, s[1..], less);
      forall x | x in t
        ensures s[0].start <= x.start
      {
        assert x in multiset(t);
      }
    }
  }

  lemma {:induction false} SortOrders(hits: seq<Hit>, less: (Hit, Hit) -> bool)
    requires less == Before || less == StartsBefore
    ensures Ordered(StableSort(hits, less))
  {
    if hits != [] {
      SortOrders(hits[1..], less);
      InsertOrders(hits[0], StableSort(hits[1..], less), less);
    }
  }

  /** Spans in strictly increasing position are left as they are. */
  lemma {:induction false} SortFixes(hits: seq<Hit>, less: (Hit, Hit) -> bool)
    requires less == Before || less == StartsBefore
    requires forall i, j | 0 <= i < j < |hits| :: hits[i].start < hits[j].start
    ensures StableSort(hits, less) == hits
  {
    if hits != [] {
      SortFixes(hits[1..], less);
      if |hits| > 1 {
        assert hits[1..][0] == hits[1];
      }
    }
  }

  // ---- Merging ----------------------------------------------------------------------

  /** Nonempty spans, pairwise disjoint, in position order. */
  ghost predicate Disjoint(hits: seq<Hit>) {
    && (forall i | 0 <= i < |hits| :: hits[i].Nonempty())
    && (forall i, j | 0 <= i < j < |hits| :: hits[i].end <= hits[j].start)
  }

  /** Offering one hit: only the last kept hit can be in its way. */
  function Offer(kept: seq<Hit>, h: Hit): seq<Hit> {
    if !h.Nonempty() then kept
    else if kept == [] || !h.Overlaps(kept[|kept| - 1]) then kept + [h]
    else if h.Better(kept[|kept| - 1]) then kept[..|kept| - 1] + [h]
    else kept
  }

  function OfferAll(kept: seq<Hit>, hits: seq<Hit>): seq<Hit>
    decreases |hits|
  {
    if hits == [] then kept else OfferAll(Offer(kept, hits[0]), hits[1..])
  }

  function Merged(hits: seq<Hit>): seq<Hit> {
    OfferAll([], StableSort(hits, Before))
  }

  ghost predicate AllStartBy(hits: seq<Hit>, start: int) {
    forall i | 0 <= i < |hits| :: hits[i].start <= start
  }

  lemma OfferKeepsDisjoint(kept: seq<Hit>, h: Hit)
    requires Disjoint(kept) && AllStartBy(kept, h.start)
    ensures Disjoint(Offer(kept, h)) && AllStartBy(Offer(kept, h), h.start)
  {
  }

  /** While hits come in position order, an overlap can only be with the last kept hit. */
  lemma {:induction false} OnlyLastOverlaps(kept: seq<Hit>, h: Hit, i: nat)
    requires Disjoint(kept) && AllStartBy(kept, h.start) && i < |kept| && h.Overlaps(kept[i])
    ensures i == |kept| - 1
  {
    assert kept[|kept| - 1].start <= h.start < kept[i].end;
  }

  /** The body of the merge loop: search for the first overlap, then append, replace or drop. */
  method OfferHit(merged: seq<Hit>, hit: Hit) returns (next: seq<Hit>)
    requires Disjoint(merged) && AllStartBy(merged, hit.start)
    ensures next == Offer(merged, hit)
  {
    if hit.start >= hit.end {
      return merged;
    }
    var overlapIndex := -1;
    for i := 0 to |merged|
      invariant forall k | 0 <= k < i :: !hit.Overlaps(merged[k])
      invariant overlapIndex == -1
    {
      if hit.Overlaps(merged[i]) {
        overlapIndex := i;
        OnlyLastOverlaps(merged, hit, i);
        break;
      }
    }
    if overlapIndex == -1 {
      return merged + [hit];
    }
    if hit.Better(merged[overlapIndex]) {
      return merged[overlapIndex := hit];
    }
    return merged;
  }

  method MergeHits(hits: seq<Hit>) returns (merged: seq<Hit>)
    ensures merged == Merged(hits) && Disjoint(merged)
  {
    merged := [];
    if |hits| == 0 {
      return;
    }
    var sorted := StableSort(hits, Before);
    SortOrders(hits, Before);
    for n := 0 to |sorted|
      invariant Disjoint(merged)
      invariant n < |sorted| ==> AllStartBy(merged, sorted[n].start)
      invariant OfferAll(merged, sorted[n..]) == Merged(hits)
    {
      assert sorted[n..][1..] == sorted[n + 1..];
      OfferKeepsDisjoint(merged, sorted[n]);
      merged := OfferHit(merged, sorted[n]);
    }
    SortFixes(merged, StartsBefore);
    merged := StableSort(merged, StartsBefore);
  }

  // ---- What merging promises ----------------------------------------------------------

  lemma {:induction false} OfferAllDisjoint(kept: seq<Hit>, hits: seq<Hit>)
    requires Disjoint(kept) && Ordered(hits) && (hits != [] ==> AllStartBy(kept, hits[0].start))
    ensures Disjoint(OfferAll(kept, hits))
    decreases |hits|
  {
    if hits != [] {
      OfferKeepsDisjoint(kept, hits[0]);
      OfferAllDisjoint(Offer(kept, hits[0]), hits[1..]);
    }
  }

  /** The output is disjoint and in position order, for every input. */
  lemma {:induction false} MergedDisjoint(hits: seq<Hit>)
    ensures Disjoint(Merged(hits))
  {
    SortOrders(hits, Before);
    OfferAllDisjoint([], StableSort(hits, Before));
  }

  lemma {:induction false} OfferAllKeepsOnly(kept: seq<Hit>, hits: seq<Hit>)
    ensures multiset(OfferAll(kept, hits)) <= multiset(kept) + multiset(hits)
    decreases |hits|
  {
    if hits != [] {
      var h, n := hits[0], |kept| - 1;
      assert hits == [h] + hits[1..];
      if kept != [] {
        assert kept == kept[..n] + [kept[n]];
      }
      assert multiset(Offer(kept, h)) <= multiset(kept) + multiset{h};
      OfferAllKeepsOnly(Offer(kept, h), hits[1..]);
    }
  }

  /** Every output hit is an input hit, no more often than it came in. */
  lemma {:induction false} MergedFromInput(hits: seq<Hit>)
    ensures multiset(Merged(hits)) <= multiset(hits)
    ensures forall h :: h in Merged(hits) ==> h in hits
  {
    SortKeeps(hits, Before);
    OfferAllKeepsOnly([], StableSort(hits, Before));
    assert forall h :: h in Merged(hits) ==> h in multiset(Merged(hits));
    assert forall h :: h in multiset(hits) ==> h in hits;
  }

  lemma {:induction false} OfferAllFixes(kept: seq<Hit>, hits: seq<Hit>)
    requires Disjoint(kept + hits)
    ensures OfferAll(kept, hits) == kept + hits
    decreases |hits|
  {
    if hits == [] {
      assert kept + hits == kept;
    } else {
      var s, n := kept + hits, |kept|;
      assert s[n] == hits[0] && hits[0].Nonempty();
      assert n > 0 ==> s[n - 1] == kept[n - 1] && s[n - 1].end <= s[n].start;
      assert Offer(kept, hits[0]) == kept + [hits[0]];
      assert (kept + [hits[0]]) + hits[1..] == s;
      OfferAllFixes(kept + [hits[0]], hits[1..]);
    }
  }

  /** Merging what is already merged changes nothing. */
  lemma {:induction false} MergeIdempotent(hits: seq<Hit>)
    ensures Merged(Merged(hits)) == Merged(hits)
  {
    var m := Merged(hits);
    MergedDisjoint(hits);
    forall i, j | 0 <= i < j < |m|
      ensures m[i].start < m[j].start
    {
      assert m[i].Nonempty();
    }
    SortFixes(m, Before);
    assert [] + m == m;
    OfferAllFixes([], m);
  }

  // ---- Domination ---------------------------------------------------------------------

  /** Each hit overlaps the next, and is never better than it. */
  ghost predicate Climbs(path: seq<Hit>) {
    forall i | 0 <= i < |path| - 1 :: path[i].Overlaps(path[i + 1]) && !path[i].Better(path[i + 1])
  }

  ghost predicate PathFrom(path: seq<Hit>, hits: seq<Hit>, h: Hit, top: Hit) {
    && path != [] && path[0] == h && path[|path| - 1] == top
    && Climbs(path)
    && forall i | 0 <= i < |path| :: path[i] in hits
  }

  /** `h` is covered by some kept hit at the end of a climbing path of input hits. */
  ghost predicate Dominated(hits: seq<Hit>, h: Hit, kept: seq<Hit>) {
    exists path, k :: 0 <= k < |kept| && PathFrom(path, hits, h, kept[k])
  }

  lemma {:induction false} OfferDominates(hits: seq<Hit>, h: Hit, kept: seq<Hit>, offered: Hit)
    requires Dominated(hits, h, kept) && offered in hits
    ensures Dominated(hits, h, Offer(kept, offered))
  {
    var path, k :| 0 <= k < |kept| && PathFrom(path, hits, h, kept[k]);
    var next, n := Offer(kept, offered), |kept| - 1;
    if k < n || next == kept || |next| > |kept| {
      assert next[k] == kept[k];
      assert PathFrom(path, hits, h, next[k]);
    } else {
      var longer := path + [offered];
      assert next[n] == offered;
      assert kept[n].Overlaps(offered);
      assert Climbs(longer);
      assert PathFrom(longer, hits, h, next[n]);
    }
  }

  lemma {:induction false} OfferedIsDominated(hits: seq<Hit>, kept: seq<Hit>, h: Hit)
    requires h in hits && h.Nonempty()
    requires forall i | 0 <= i < |kept| :: kept[i] in hits
    ensures Dominated(hits, h, Offer(kept, h))
  {
    var next, n := Offer(kept, h), |kept| - 1;
    if next == kept && kept != [] {
      assert PathFrom([h, kept[n]], hits, h, next[n]);
    } else {
      assert PathFrom([h], hits, h, next[|next| - 1]);
    }
  }

  lemma {:induction false} OfferAllDominates(hits: seq<Hit>, h: Hit, kept: seq<Hit>, rest: seq<Hit>)
    requires forall i | 0 <= i < |kept| :: kept[i] in hits
    requires forall i | 0 <= i < |rest| :: rest[i] in hits
    requires Dominated(hits, h, kept) || (h in rest && h.Nonempty())
    ensures Dominated(hits, h, OfferAll(kept, rest))
    decreases |rest|
  {
    if rest != [] {
      var next := Offer(kept, rest[0]);
      if Dominated(hits, h, kept) {
        OfferDominates(hits, h, kept, rest[0]);
      } else if h == rest[0] {
        OfferedIsDominated(hits, kept, h);
      }
      OfferAllDominates(hits, h, next, rest[1..]);
    }
  }

  /**
    Domination: every nonempty input hit reaches an output hit through input hits that
    overlap one after the other and never get worse in (priority, length).
   */
  lemma {:induction false} MergeDominates(hits: seq<Hit>, h: Hit)
    requires h in hits && h.Nonempty()
    ensures Dominated(hits, h, Merged(hits))
  {
    SortKeeps(hits, Before);
    var sorted := StableSort(hits, Before);
    assert forall i | 0 <= i < |sorted| :: sorted[i] in hits;
    OfferAllDominates(hits, h, [], sorted);
  }

  /** A hit that outranks every other hit it overlaps is kept. */
  lemma {:induction false} StrictlyBestIsKept(hits: seq<Hit>, h: Hit)
    requires h in hits && h.Nonempty()
    requires forall g :: g in hits && g != h && h.Overlaps(g) ==> h.Better(g)
    ensures h in Merged(hits)
  {
    MergeDominates(hits, h);
    var path, k :| 0 <= k < |Merged(hits)| && PathFrom(path, hits, h, Merged(hits)[k]);
    var i := 0;
    while i < |path| - 1
      invariant i < |path| && path[i] == h
    {
      assert path[i + 1] in hits;
      i := i + 1;
    }
  }

  /** Covered within a part of the hits is covered within all of them, in two climbs. */
  lemma {:induction false} DominatedThrough(hits: seq<Hit>, first: seq<Hit>, second: seq<Hit>, h: Hit, between: seq<Hit>, kept: seq<Hit>)
    requires Dominated(first, h, between) && forall g :: g in first ==> g in hits
    requires forall g :: g in second ==> g in hits
    requires forall g :: g in between ==> Dominated(second, g, kept)
    ensures Dominated(hits, h, kept)
  {
    var up, i :| 0 <= i < |between| && PathFrom(up, first, h, between[i]);
    assert between[i] in between;
    var on, k :| 0 <= k < |kept| && PathFrom(on, second, between[i], kept[k]);
    assert PathFrom(up + on[1..], hits, h, kept[k]) by {
      PathsJoin(up, on, hits, h, between[i], kept[k]);
    }
  }

  lemma {:induction false} PathsJoin(up: seq<Hit>, on: seq<Hit>, hits: seq<Hit>, h: Hit, g: Hit, top: Hit)
    requires PathFrom(up, hits, h, g) && PathFrom(on, hits, g, top)
    ensures PathFrom(up + on[1..], hits, h, top)
  {
    var path, n := up + on[1..], |up|;
    forall i | 0 <= i < |path| - 1
      ensures path[i].Overlaps(path[i + 1]) && !path[i].Better(path[i + 1])
    {
      if i >= n - 1 {
        assert path[i] == on[i - n + 1] && path[i + 1] == on[i - n + 2];
      }
    }
    forall i | 0 <= i < |path|
      ensures path[i] in hits
    {
      if i >= n {
        assert path[i] == on[i - n + 1];
      }
    }
    assert path[|path| - 1] == on[|on| - 1];
  }

  // ---- Ranks ----------------------------------------------------------------------------

  predicate Blacklisted(h: Hit) {
    h.entityType == SecretKeywordBlacklist
  }

  /** Blacklisted keywords before all others, and then by source. */
  predicate Outranks(g: Hit, h: Hit) {
    !Blacklisted(h) &&
    (|| Blacklisted(g)
     || (g.source.Regex? && !h.source.Regex?)
     || (g.source.Dictionary? && (h.source.NER? || h.source.OtherSource?))
     || (g.source.NER? && h.source.OtherSource?))
  }

  /** Which of two hits is better: the one that outranks the other, between equals the longer one. */
  lemma BetterExactly(g: Hit, h: Hit)
    ensures g.Better(h) <==> Outranks(g, h) || (!Outranks(h, g) && g.end - g.start > h.end - h.start)
  {
  }

  /** Of two hits: both when they do not overlap, else the better one, between equals the one that comes first. */
  lemma {:induction false} MergedPair(g: Hit, h: Hit)
    requires g.Nonempty() && h.Nonempty() && g.start <= h.start
    ensures Merged([g, h]) ==
      if g.end <= h.start then [g, h]
      else if Outranks(h, g) || (!Outranks(g, h) && h.end - h.start > g.end - g.start) then [h]
      else [g]
  {
    BetterExactly(g, h);
    BetterExactly(h, g);
    PairSorted(g, h);
    PairOffered(g, h);
    PairOffered(h, g);
  }

  lemma {:induction false} PairSorted(g: Hit, h: Hit)
    ensures StableSort([g, h], Before) == if Before(h, g) then [h, g] else [g, h]
  {
    assert [g, h][1..] == [h] && [h][1..] == [];
    assert StableSort([h], Before) == [h] + [] == [h];
    assert StableSort([g, h], Before) == Insert(g, [h], Before);
    assert Insert(g, [], Before) == [g] + [] == [g];
    assert [h] + [g] == [h, g] && [g] + [h] == [g, h];
  }

  lemma PairOffered(g: Hit, h: Hit)
    requires g.Nonempty() && h.Nonempty()
    ensures OfferAll([], [g, h]) == if !h.Overlaps(g) then [g, h] else if h.Better(g) then [h] else [g]
  {
    assert Offer([], g) == [g];
    assert [g, h][1..] == [h] && [h][1..] == [];
    assert OfferAll([g], [h]) == OfferAll(Offer([g], h), []);
    assert [g][..0] + [h] == [h] && [g] + [h] == [g, h];
  }
}
