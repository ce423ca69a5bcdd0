/** The placeholder mapper: one placeholder for each (type, text), shared by all messages. */
module Mapper {
  import opened Text
  import opened Merge
  import opened Restore
  import opened Placeholders

  datatype EntityInfo = EntityInfo(entityType: EntityType, source: Source)
  type Entry = Mapping<EntityInfo>

  datatype Role = System | User | Assistant | NoRole

  datatype MatchDetail = MatchDetail(text: string, entityType: EntityType, source: Source,
                                     start: int, end: int, placeholder: string, messageIndex: int, role: Role)

  /** The mapper's fields as a value. */
  datatype State = State(byOriginal: map<string, Entry>, countByType: map<EntityType, nat>,
                         mappings: seq<Entry>, matches: seq<MatchDetail>)

  const EMPTY: State := State(map[], map[], [], [])

  function Count(st: State, t: EntityType): nat {
    if t in st.countByType then st.countByType[t] else 0
  }

  function KeyOf(e: Entry): string {
    Key(e.info.entityType, e.original)
  }

  // ---- Specification -----------------------------------------------------------------

  /** The entry for a hit, made when there is none yet. */
  function Intern(st: State, h: Hit): (State, Entry) {
    var key := Key(h.entityType, h.text);
    if key in st.byOriginal then (st, st.byOriginal[key])
    else
      var n := Count(st, h.entityType) + 1;
      var e := Mapping(PlaceholderFor(h.entityType, n), h.text, EntityInfo(h.entityType, h.source));
      (st.(byOriginal := st.byOriginal[key := e],
           countByType := st.countByType[h.entityType := n],
           mappings := st.mappings + [e]), e)
  }

  predicate Skipped(text: string, cursor: int, h: Hit) {
    h.start < cursor || h.start < 0 || h.end > Bytes(text) || h.start >= h.end
  }

  function Detail(h: Hit, e: Entry, messageIndex: int, role: Role): MatchDetail {
    MatchDetail(h.text, h.entityType, h.source, h.start, h.end, e.placeholder, messageIndex, role)
  }

  /** Interning a hit and recording the match. */
  function Record(st: State, h: Hit, messageIndex: int, role: Role): (State, Entry) {
    var (st1, e) := Intern(st, h);
    (st1.(matches := st1.matches + [Detail(h, e, messageIndex, role)]), e)
  }

  /** Rewriting the text from byte `cursor` on, for hits in position order. */
  function Rewrite(st: State, text: string, cursor: nat, hits: seq<Hit>, messageIndex: int, role: Role): (State, string)
    requires cursor <= Bytes(text)
    decreases |hits|
  {
    if hits == [] then (st, Slice(text, cursor, Bytes(text)))
    else
      var h := hits[0];
      if Skipped(text, cursor, h) then Rewrite(st, text, cursor, hits[1..], messageIndex, role)
      else
        var (st1, e) := Record(st, h, messageIndex, role);
        var (st2, rest) := Rewrite(st1, text, h.end, hits[1..], messageIndex, role);
        (st2, Slice(text, cursor, h.start) + (e.placeholder + rest))
  }

  function Apply(st: State, text: string, hits: seq<Hit>, messageIndex: int, role: Role): (State, string) {
    if hits == [] then (st, text)
    else Rewrite(st, text, 0, StableSort(hits, StartsBefore), messageIndex, role)
  }

  // ---- The mapper ----------------------------------------------------------------------

  class PlaceholderMapper {
    var byOriginal: map<string, Entry>
    var countByType: map<EntityType, nat>
    var mappings: seq<Entry>
    var matches: seq<MatchDetail>

    ghost function View(): State
      reads this
    {
      State(byOriginal, countByType, mappings, matches)
    }

    constructor ()
      ensures View() == EMPTY
    {
      byOriginal, countByType, mappings, matches := map[], map[], [], [];
    }

    method InternHit(hit: Hit) returns (mapping: Entry)
      modifies this
      ensures (View(), mapping) == Intern(old(View()), hit)
    {
      var key := Key(hit.entityType, hit.text);
      if key in byOriginal {
        return byOriginal[key];
      }
      var n := if hit.entityType in countByType then countByType[hit.entityType] + 1 else 1;
      countByType := countByType[hit.entityType := n];
      mapping := Mapping(PlaceholderFor(hit.entityType, n), hit.text, EntityInfo(hit.entityType, hit.source));
      byOriginal := byOriginal[key := mapping];
      mappings := mappings + [mapping];
    }

    method RecordHit(hit: Hit, messageIndex: int, role: Role) returns (mapping: Entry)
      modifies this
      ensures (View(), mapping) == Record(old(View()), hit, messageIndex, role)
    {
      mapping := InternHit(hit);
      matches := matches + [Detail(hit, mapping, messageIndex, role)];
    }

    method ApplyWithMessageContext(text: string, hits: seq<Hit>, messageIndex: int, role: Role) returns (out: string)
      modifies this
      ensures (View(), out) == Apply(old(View()), text, hits, messageIndex, role)
    {
      if |hits| == 0 {
        return text;
      }
      var sorted := StableSort(hits, StartsBefore);
      ghost var goal := Apply(View(), text, hits, messageIndex, role);
      var builder, cursor := "", 0;
      assert sorted[0..] == sorted && builder + goal.1 == goal.1;
      for i := 0 to |sorted|
        invariant 0 <= cursor <= Bytes(text)
        invariant var (st, rest) := Rewrite(View(), text, cursor, sorted[i..], messageIndex, role);
                  goal == (st, builder + rest)
      {
        var hit := sorted[i];
        assert sorted[i..][1..] == sorted[i + 1..];
        if hit.start < cursor || hit.start < 0 || hit.end > Bytes(text) || hit.start >= hit.end {
          continue;
        }
        var clear := Slice(text, cursor, hit.start);
        var mapping := RecordHit(hit, messageIndex, role);
        ghost var rest := Rewrite(View(), text, hit.end, sorted[i + 1..], messageIndex, role).1;
        ConcatAssoc(builder, clear, mapping.placeholder + rest);
        ConcatAssoc(builder + clear, mapping.placeholder, rest);
        builder := builder + clear;
        builder := builder + mapping.placeholder;
        cursor := hit.end;
      }
      out := builder + Slice(text, cursor, Bytes(text));
    }
  }

  // ---- The mapper's invariant ----------------------------------------------------------

  function Numbered(ms: seq<Entry>, t: EntityType): nat {
    if ms == [] then 0
    else Numbered(ms[..|ms| - 1], t) + if ms[|ms| - 1].info.entityType == t then 1 else 0
  }

  /** Entry `i` carries the number of its place among the entries of its type. */
  ghost predicate RightlyNamed(ms: seq<Entry>, i: nat)
    requires i < |ms|
  {
    var t := ms[i].info.entityType;
    ms[i].placeholder == PlaceholderFor(t, Numbered(ms[..i + 1], t))
  }

  ghost predicate Named(ms: seq<Entry>) {
    forall i | 0 <= i < |ms| :: RightlyNamed(ms, i)
  }

  /** The map and the list hold the same entries, each under its own key. */
  ghost predicate Catalogued(byOriginal: map<string, Entry>, ms: seq<Entry>) {
    && (forall e | e in ms :: KeyOf(e) in byOriginal && byOriginal[KeyOf(e)] == e)
    && (forall key | key in byOriginal :: KeyOf(byOriginal[key]) == key && byOriginal[key] in ms)
  }

  ghost predicate Inv(st: State) {
    && Named(st.mappings)
    && Catalogued(st.byOriginal, st.mappings)
    && Counted(st.countByType, st.mappings)
  }

  ghost predicate Counted(countByType: map<EntityType, nat>, ms: seq<Entry>) {
    forall t :: (if t in countByType then countByType[t] else 0) == Numbered(ms, t)
  }

  lemma {:induction false} NumberedAppend(ms: seq<Entry>, e: Entry, t: EntityType)
    ensures Numbered(ms + [e], t) == Numbered(ms, t) + if e.info.entityType == t then 1 else 0
  {
    assert (ms + [e])[..|ms|] == ms;
  }

  lemma {:induction false} NamedStays(ms: seq<Entry>, e: Entry, i: nat)
    requires i < |ms| && RightlyNamed(ms, i)
    ensures RightlyNamed(ms + [e], i)
  {
    assert (ms + [e])[..i + 1] == ms[..i + 1];
  }

  lemma {:induction false} NamedAppend(ms: seq<Entry>, e: Entry)
    requires Named(ms)
    requires e.placeholder == PlaceholderFor(e.info.entityType, Numbered(ms, e.info.entityType) + 1)
    ensures Named(ms + [e])
  {
    forall i | 0 <= i < |ms| + 1
      ensures RightlyNamed(ms + [e], i)
    {
      if i < |ms| {
        NamedStays(ms, e, i);
      } else {
        assert (ms + [e])[..|ms| + 1] == ms + [e];
        NumberedAppend(ms, e, e.info.entityType);
      }
    }
  }

  lemma {:induction false} CataloguedAppend(byOriginal: map<string, Entry>, ms: seq<Entry>, e: Entry)
    requires Catalogued(byOriginal, ms) && KeyOf(e) !in byOriginal
    ensures Catalogued(byOriginal[KeyOf(e) := e], ms + [e])
  {
    var more := ms + [e];
    assert more[|ms|] == e;
    forall x | x in ms
      ensures x in more
    {
    }
  }

  /** Interning keeps the invariant, only adds to the list, and finds the hit's own entry. */
  lemma {:induction false} InternKeeps(st: State, h: Hit)
    requires Inv(st)
    ensures var (next, e) := Intern(st, h);
            && Inv(next)
            && st.mappings <= next.mappings
            && e in next.mappings
            && e.info.entityType == h.entityType && e.original == h.text
  {
    var key := Key(h.entityType, h.text);
    if key in st.byOriginal {
      var e := st.byOriginal[key];
      KeyInjective(e.info.entityType, e.original, h.entityType, h.text);
    } else {
      InternNew(st.byOriginal, st.countByType, st.mappings, Intern(st, h).1);
    }
  }

  lemma {:induction false} InternNew(byOriginal: map<string, Entry>, countByType: map<EntityType, nat>, ms: seq<Entry>, e: Entry)
    requires Named(ms) && Catalogued(byOriginal, ms) && Counted(countByType, ms) && KeyOf(e) !in byOriginal
    requires e.placeholder == PlaceholderFor(e.info.entityType, Numbered(ms, e.info.entityType) + 1)
    ensures Named(ms + [e]) && Catalogued(byOriginal[KeyOf(e) := e], ms + [e]) && e in ms + [e]
    ensures Counted(countByType[e.info.entityType := Numbered(ms, e.info.entityType) + 1], ms + [e])
  {
    NamedAppend(ms, e);
    CataloguedAppend(byOriginal, ms, e);
    forall t
      ensures Numbered(ms + [e], t) == Numbered(ms, t) + if e.info.entityType == t then 1 else 0
    {
      NumberedAppend(ms, e, t);
    }
    assert (ms + [e])[|ms|] == e;
  }

  lemma {:induction false} NumberedGrows(ms: seq<Entry>, i: nat, j: nat, t: EntityType)
    requires i <= j <= |ms|
    ensures Numbered(ms[..i], t) <= Numbered(ms[..j], t)
  {
    if i < j {
      NumberedGrows(ms, i, j - 1, t);
      assert ms[..j][..j - 1] == ms[..j - 1];
    }
  }

  lemma {:induction false} PlaceholdersDiffer(ms: seq<Entry>, i: nat, j: nat)
    requires i < j < |ms| && RightlyNamed(ms, i) && RightlyNamed(ms, j)
    ensures ms[i].placeholder != ms[j].placeholder
  {
    var t, u := ms[i].info.entityType, ms[j].info.entityType;
    var n, m := Numbered(ms[..i + 1], t), Numbered(ms[..j + 1], u);
    if ms[i].placeholder == ms[j].placeholder {
      NumberedGrows(ms, i + 1, j, t);
      assert ms[..j + 1][..j] == ms[..j];
      PlaceholderInjective(t, n, u, m);
    }
  }

  /**
    One to one: entries, (type, text) pairs and placeholders determine each other, and the
    placeholders are well formed.
   */
  lemma {:induction false} OneToOne(st: State)
    requires Inv(st)
    ensures WellFormed(st.mappings)
    ensures forall i, j | 0 <= i < j < |st.mappings| :: KeyOf(st.mappings[i]) != KeyOf(st.mappings[j])
  {
    var ms := st.mappings;
    forall i | 0 <= i < |ms|
      ensures Shaped(ms[i].placeholder)
    {
      assert RightlyNamed(ms, i);
      PlaceholderShaped(ms[i].info.entityType, Numbered(ms[..i + 1], ms[i].info.entityType));
    }
    forall i, j | 0 <= i < j < |ms|
      ensures ms[i].placeholder != ms[j].placeholder
    {
      PlaceholdersDiffer(ms, i, j);
    }
  }

  ghost predicate Used(ms: seq<Entry>, t: EntityType, n: nat) {
    exists i :: 0 <= i < |ms| && ms[i].info.entityType == t && ms[i].placeholder == PlaceholderFor(t, n)
  }

  lemma {:induction false} UsedInRange(ms: seq<Entry>, t: EntityType, n: nat, i: nat)
    requires i < |ms| && RightlyNamed(ms, i)
    requires ms[i].info.entityType == t && ms[i].placeholder == PlaceholderFor(t, n)
    ensures 1 <= n <= Numbered(ms, t)
  {
    PlaceholderInjective(t, n, t, Numbered(ms[..i + 1], t));
    NumberedGrows(ms, i + 1, |ms|, t);
    assert ms[..|ms|] == ms;
    assert ms[..i + 1][i] == ms[i];
  }

  /** The numbers used for a type are exactly 1 .. its count. */
  lemma {:induction false} NumbersAreExact(st: State, t: EntityType, n: nat)
    requires Inv(st)
    ensures 1 <= n <= Count(st, t) <==> Used(st.mappings, t, n)
  {
    var ms := st.mappings;
    if 1 <= n <= Count(st, t) {
      var i := Nth(ms, t, n);
      assert RightlyNamed(ms, i);
    }
    if Used(ms, t, n) {
      var i :| 0 <= i < |ms| && ms[i].info.entityType == t && ms[i].placeholder == PlaceholderFor(t, n);
      UsedInRange(ms, t, n, i);
    }
  }

  lemma {:induction false} Nth(ms: seq<Entry>, t: EntityType, n: nat) returns (i: nat)
    requires 1 <= n <= Numbered(ms, t)
    ensures i < |ms| && ms[i].info.entityType == t && Numbered(ms[..i + 1], t) == n
  {
    var last := |ms| - 1;
    if Numbered(ms[..last], t) < n {
      i := last;
      assert ms[..last + 1] == ms;
    } else {
      i := Nth(ms[..last], t, n);
      assert ms[..last][..i + 1] == ms[..i + 1];
    }
  }

  /** A text of a type that has no entry yet gets one, from the source that found it first; one that has keeps it. */
  lemma {:induction false} InternExactly(st: State, h: Hit)
    requires Inv(st)
    ensures var (next, e) := Intern(st, h);
      if exists x :: x in st.mappings && x.info.entityType == h.entityType && x.original == h.text then next == st
      else
        && next.mappings == st.mappings + [e] && e.info.source == h.source
        && e.placeholder == PlaceholderFor(h.entityType, Numbered(st.mappings, h.entityType) + 1)
  {
    var key := Key(h.entityType, h.text);
    if key in st.byOriginal {
      var x := st.byOriginal[key];
      KeyInjective(x.info.entityType, x.original, h.entityType, h.text);
    } else {
      assert forall x | x in st.mappings :: KeyOf(x) in st.byOriginal;
      assert Count(st, h.entityType) == Numbered(st.mappings, h.entityType);
    }
  }
}
