/** The derived index and the outbox that keeps it in step with the authority store. */
module Outbox {
  import opened Wrappers

  datatype StoredChunk = StoredChunk(chunkID: string, documentID: string, chunkIndex: int, contentText: string,
                                     classification: string, documentType: string, documentNumber: string,
                                     organizationName: string, isDeleted: bool, denseVector: seq<real>)

  datatype EventType = IndexChunk | SoftDelete | RebuildChunk | AdoptionIngest
  datatype Event = Event(eventID: int, eventType: EventType, chunkID: string, payload: map<string, string>)

  datatype Error = UnsupportedEvent | SourceFailed | EmbedFailed | DimensionMismatch | ProfileMismatch | IndexFailed | MarkFailed | EnqueueFailed | ListingFailed

  type Chunks = map<string, StoredChunk>

  /** Every chunk is filed under its own id. */
  ghost predicate Filed(chunks: Chunks) {
    forall id | id in chunks :: chunks[id].chunkID == id
  }

  // ---- Embedding and projection ---------------------------------------------------------

  datatype Embedding = Embedding(values: seq<real>, model: string)
  datatype Profile = Profile(dimensions: int, model: string)

  predicate IsSpace(c: char) {
    c in {'\U{9}', '\U{A}', '\U{B}', '\U{C}', '\U{D}', ' ', '\U{85}', '\U{A0}', '\U{1680}', '\U{2028}', '\U{2029}', '\U{202F}',
          '\U{205F}', '\U{3000}'} || '\U{2000}' <= c <= '\U{200A}'
  }

  function TrimLeft(s: string): string {
    if s == "" || !IsSpace(s[0]) then s else TrimLeft(s[1..])
  }

  function TrimRight(s: string): string {
    if s == "" || !IsSpace(s[|s| - 1]) then s else TrimRight(s[..|s| - 1])
  }

  /** `strings.TrimSpace` */
  function TrimSpace(s: string): string {
    TrimRight(TrimLeft(s))
  }

  predicate Blank(s: string) {
    forall i | 0 <= i < |s| :: IsSpace(s[i])
  }

  lemma {:induction false} TrimLeftSplits(s: string) returns (a: string)
    ensures s == a + TrimLeft(s) && Blank(a) && (TrimLeft(s) == "" || !IsSpace(TrimLeft(s)[0]))
  {
    if s == "" || !IsSpace(s[0]) {
      a := "";
    } else {
      var rest := TrimLeftSplits(s[1..]);
      a := [s[0]] + rest;
    }
  }

  lemma {:induction false} TrimRightSplits(s: string) returns (b: string)
    ensures s == TrimRight(s) + b && Blank(b) && (TrimRight(s) == "" || !IsSpace(TrimRight(s)[|TrimRight(s)| - 1]))
  {
    if s == "" || !IsSpace(s[|s| - 1]) {
      b := "";
    } else {
      var rest := TrimRightSplits(s[..|s| - 1]);
      b := rest + [s[|s| - 1]];
    }
  }

  /** Trimming takes white space off both ends, all of it and nothing else. */
  lemma {:induction false} TrimSpaceSplits(s: string) returns (a: string, b: string)
    ensures s == a + TrimSpace(s) + b && Blank(a) && Blank(b)
    ensures var t := TrimSpace(s); t == "" || (!IsSpace(t[0]) && !IsSpace(t[|t| - 1]))
  {
    a := TrimLeftSplits(s);
    b := TrimRightSplits(TrimLeft(s));
    assert TrimSpace(s) != "" ==> TrimLeft(s)[0] == TrimSpace(s)[0];
  }

  function EmbedStoredChunk(profile: Profile, reply: Result<Embedding, Error>, chunk: StoredChunk): Result<StoredChunk, Error> {
    if reply.Err? then Err(EmbedFailed)
    else if profile.dimensions <= 0 || |reply.value.values| != profile.dimensions then Err(DimensionMismatch)
    else if TrimSpace(profile.model) == "" || TrimSpace(reply.value.model) == "" || reply.value.model != profile.model then Err(ProfileMismatch)
    else Ok(chunk.(denseVector := reply.value.values))
  }

  /** `token` stands for the salted hash of an identifier. */
  datatype IdentifierPolicy = IdentifierPolicy(protectDocumentNumber: bool, protectOrganizationName: bool,
                                               token: (string, string) -> string)

  function ProjectChunk(chunk: StoredChunk, policy: IdentifierPolicy): StoredChunk {
    var p := if policy.protectDocumentNumber then chunk.(documentNumber := policy.token("document_number", chunk.documentNumber)) else chunk;
    if policy.protectOrganizationName then p.(organizationName := policy.token("organization_name", chunk.organizationName)) else p
  }

  // ---- Processing one event --------------------------------------------------------------

  /** What a processor was built with. */
  datatype Parts = Parts(hasStatus: bool, hasIndex: bool, hasSource: bool, hasEmbedder: bool,
                         profile: Profile, policy: IdentifierPolicy)

  /** An event handed to the processor, and how its surroundings answer this time. */
  datatype Delivery = Delivery(event: Event, sourceFails: bool, embedding: Result<Embedding, Error>, indexFails: bool, markFails: bool)

  function Delete(index: Chunks, id: string, fails: bool): Result<Chunks, Error> {
    if fails then Err(IndexFailed) else Ok(index - {id})
  }

  function Store(index: Chunks, chunk: StoredChunk, fails: bool): Result<Chunks, Error> {
    if fails then Err(IndexFailed) else Ok(index[chunk.chunkID := chunk])
  }

  function Apply(parts: Parts, authority: Chunks, index: Chunks, d: Delivery): Result<Chunks, Error> {
    match d.event.eventType
    case SoftDelete => Delete(index, d.event.chunkID, d.indexFails)
    case AdoptionIngest => Err(UnsupportedEvent)
    case _ =>
      if !parts.hasSource || !parts.hasEmbedder then Err(UnsupportedEvent)
      else if d.sourceFails || d.event.chunkID !in authority then Err(SourceFailed)
      else
        var chunk := authority[d.event.chunkID];
        if chunk.isDeleted then Delete(index, d.event.chunkID, d.indexFails)
        else
          var embedded := EmbedStoredChunk(parts.profile, d.embedding, chunk);
          if embedded.Err? then Err(embedded.error)
          else Store(index, ProjectChunk(embedded.value, parts.policy), d.indexFails)
  }

  datatype Mark = Succeeded(eventID: int) | MarkedFailed(eventID: int, error: Error)

  class OutboxProcessor {
    const parts: Parts
    var index: Chunks
    var marks: seq<Mark>

    constructor (parts: Parts, index: Chunks)
      ensures this.parts == parts && this.index == index && marks == []
    {
      this.parts, this.index := parts, index;
      marks := [];
    }

    /** A failed event leaves the index as it was and is marked failed; errors of that mark are dropped. */
    method Process(authority: Chunks, d: Delivery) returns (r: Result<(), Error>)
      modifies this
      ensures !(parts.hasStatus && parts.hasIndex) ==> r == Err(UnsupportedEvent) && index == old(index) && marks == old(marks)
      ensures parts.hasStatus && parts.hasIndex ==>
        var a := Apply(parts, authority, old(index), d);
        if a.Err? then
          r == Err(a.error) && index == old(index)
          && marks == if d.markFails then old(marks) else old(marks) + [MarkedFailed(d.event.eventID, a.error)]
        else
          index == a.value
          && (if d.markFails then r == Err(MarkFailed) && marks == old(marks)
              else r == Ok(()) && marks == old(marks) + [Succeeded(d.event.eventID)])
      ensures index == Handled(parts, authority, old(index), d)
    {
      if !parts.hasStatus || !parts.hasIndex {
        return Err(UnsupportedEvent);
      }
      var next: Result<Chunks, Error> := Err(UnsupportedEvent);
      match d.event.eventType {
        case IndexChunk | RebuildChunk =>
          if parts.hasSource && parts.hasEmbedder {
            if d.sourceFails || d.event.chunkID !in authority {
              next := Err(SourceFailed);
            } else {
              var chunk := authority[d.event.chunkID];
              if chunk.isDeleted {
                next := Delete(index, d.event.chunkID, d.indexFails);
              } else {
                var embedded := EmbedStoredChunk(parts.profile, d.embedding, chunk);
                if embedded.Err? {
                  next := Err(embedded.error);
                } else {
                  next := Store(index, ProjectChunk(embedded.value, parts.policy), d.indexFails);
                }
              }
            }
          }
        case SoftDelete =>
          next := Delete(index, d.event.chunkID, d.indexFails);
        case AdoptionIngest =>
      }
      if next.Err? {
        if !d.markFails {
          marks := marks + [MarkedFailed(d.event.eventID, next.error)];
        }
        return Err(next.error);
      }
      index := next.value;
      if d.markFails {
        return Err(MarkFailed);
      }
      marks := marks + [Succeeded(d.event.eventID)];
      return Ok(());
    }
  }

  /** The index after one event was handed to a processor built with `parts`. */
  function Handled(parts: Parts, authority: Chunks, index: Chunks, d: Delivery): Chunks {
    var a := Apply(parts, authority, index, d);
    if parts.hasStatus && parts.hasIndex && a.Ok? then a.value else index
  }

  // ---- Agreement ----------------------------------------------------------------------------

  ghost predicate Live(authority: Chunks, id: string) {
    id in authority && !authority[id].isDeleted
  }

  ghost predicate SameState(a: StoredChunk, b: StoredChunk) {
    a.classification == b.classification && a.documentType == b.documentType && a.isDeleted == b.isDeleted
  }

  /** The index is right about this id. */
  ghost predicate AgreesAt(authority: Chunks, index: Chunks, id: string) {
    if Live(authority, id) then id in index && SameState(index[id], authority[id]) else id !in index
  }

  /** The index holds exactly the live chunks, in matching state. */
  ghost predicate Agrees(authority: Chunks, index: Chunks) {
    forall id: string :: AgreesAt(authority, index, id)
  }

  ghost function Disagreement(authority: Chunks, index: Chunks): set<string> {
    set id | id in authority.Keys + index.Keys && !AgreesAt(authority, index, id)
  }

  // ---- Reconciliation -------------------------------------------------------------------------

  datatype ChunkState = ChunkState(chunkID: string, classification: string, documentType: string, isDeleted: bool)

  datatype Tally = Tally(missing: nat, inconsistent: nat, shouldDelete: nat) {
    function Total(): nat {
      missing + inconsistent + shouldDelete
    }
  }

  datatype Finding = Fine | Missing | Inconsistent | ShouldDelete

  /** A map filled from a list in order. */
  function StatesByID(derived: seq<ChunkState>): map<string, ChunkState> {
    if derived == [] then map[]
    else
      var n := |derived| - 1;
      StatesByID(derived[..n])[derived[n].chunkID := derived[n]]
  }

  function ChunksByID(chunks: seq<StoredChunk>): Chunks {
    if chunks == [] then map[]
    else
      var n := |chunks| - 1;
      ChunksByID(chunks[..n])[chunks[n].chunkID := chunks[n]]
  }

  function FindingFor(chunk: StoredChunk, states: map<string, ChunkState>): Finding {
    var ok := chunk.chunkID in states;
    if chunk.isDeleted then (if ok then ShouldDelete else Fine)
    else if !ok then Missing
    else
      var s := states[chunk.chunkID];
      if s.classification != chunk.classification || s.documentType != chunk.documentType || s.isDeleted != chunk.isDeleted
      then Inconsistent else Fine
  }

  function OrphanFinding(state: ChunkState, authority: Chunks): Finding {
    if state.chunkID in authority then Fine else ShouldDelete
  }

  function EventFor(finding: Finding, id: string): seq<Event> {
    match finding
    case Fine => []
    case ShouldDelete => [Event(0, SoftDelete, id, map[])]
    case _ => [Event(0, RebuildChunk, id, map[])]
  }

  function Count(t: Tally, finding: Finding): Tally {
    match finding
    case Fine => t
    case Missing => t.(missing := t.missing + 1)
    case Inconsistent => t.(inconsistent := t.inconsistent + 1)
    case ShouldDelete => t.(shouldDelete := t.shouldDelete + 1)
  }

  /** Findings in the order in which `Reconcile` comes upon them: the authority list, then the derived list. */
  function Findings(chunks: seq<StoredChunk>, derived: seq<ChunkState>): (fs: seq<(Finding, string)>)
    ensures |fs| == |chunks| + |derived|
  {
    var states, authority := StatesByID(derived), ChunksByID(chunks);
    seq(|chunks|, i requires 0 <= i < |chunks| => (FindingFor(chunks[i], states), chunks[i].chunkID))
    + seq(|derived|, i requires 0 <= i < |derived| => (OrphanFinding(derived[i], authority), derived[i].chunkID))
  }

  function EventsFor(fs: seq<(Finding, string)>): seq<Event> {
    if fs == [] then []
    else EventsFor(fs[..|fs| - 1]) + EventFor(fs[|fs| - 1].0, fs[|fs| - 1].1)
  }

  function TallyFor(fs: seq<(Finding, string)>): Tally {
    if fs == [] then Tally(0, 0, 0) else Count(TallyFor(fs[..|fs| - 1]), fs[|fs| - 1].0)
  }

  /** What a reconciliation without failures enqueues. */
  function Plan(chunks: seq<StoredChunk>, derived: seq<ChunkState>): seq<Event> {
    EventsFor(Findings(chunks, derived))
  }

  class Reconciler {
    var events: seq<Event>

    constructor ()
      ensures events == []
    {
      events := [];
    }

    /** Counts a finding and enqueues its event; the count comes first, as failures show. */
    method Report(finding: Finding, id: string, tally: Tally, fails: bool) returns (next: Tally, ok: bool)
      modifies this
      ensures next == Count(tally, finding) && ok == (finding == Fine || !fails)
      ensures events == if ok then old(events) + EventFor(finding, id) else old(events)
    {
      next := Count(tally, finding);
      if finding == Fine {
        return next, true;
      }
      if fails {
        return next, false;
      }
      events := events + EventFor(finding, id);
      ok := true;
    }

    /** The loop over the authority list. */
    method ReportChunks(chunks: seq<StoredChunk>, states: map<string, ChunkState>, enqueueFails: nat -> bool, ghost fs: seq<(Finding, string)>)
      returns (tally: Tally, ok: bool, ghost seen: nat)
      requires |chunks| <= |fs|
      requires forall i | 0 <= i < |chunks| :: fs[i] == (FindingFor(chunks[i], states), chunks[i].chunkID)
      modifies this
      ensures Reported(fs, |chunks|, old(events), events, tally, ok, seen, enqueueFails)
    {
      tally, ok, seen := Tally(0, 0, 0), true, 0;
      for i := 0 to |chunks|
        invariant ok && seen == i && Reported(fs, i, old(events), events, tally, ok, seen, enqueueFails)
      {
        ghost var counted, queue := tally, events;
        tally, ok := Report(FindingFor(chunks[i], states), chunks[i].chunkID, tally, enqueueFails(|events|));
        ReportedStep(fs, i, old(events), queue, counted, events, tally, ok, enqueueFails);
        seen := i + 1;
        if !ok {
          return;
        }
      }
    }

    /** The loop over the derived list, after the `base` findings of the other one. */
    method ReportOrphans(derived: seq<ChunkState>, authority: Chunks, counted: Tally, enqueueFails: nat -> bool,
                         ghost fs: seq<(Finding, string)>, ghost base: nat, ghost before: seq<Event>)
      returns (tally: Tally, ok: bool, ghost seen: nat)
      requires |fs| == base + |derived|
      requires forall i | 0 <= i < |derived| :: fs[base + i] == (OrphanFinding(derived[i], authority), derived[i].chunkID)
      requires Reported(fs, base, before, events, counted, true, base, enqueueFails)
      modifies this
      ensures Reported(fs, |fs|, before, events, tally, ok, seen, enqueueFails)
    {
      tally, ok, seen := counted, true, base;
      for i := 0 to |derived|
        invariant ok && seen == base + i && Reported(fs, seen, before, events, tally, ok, seen, enqueueFails)
      {
        ghost var sofar, queue := tally, events;
        tally, ok := Report(OrphanFinding(derived[i], authority), derived[i].chunkID, tally, enqueueFails(|events|));
        assert fs[base + i] == (OrphanFinding(derived[i], authority), derived[i].chunkID);
        ReportedStep(fs, base + i, before, queue, sofar, events, tally, ok, enqueueFails);
        seen := base + i + 1;
        if !ok {
          return;
        }
      }
    }

    method ReportAll(chunks: seq<StoredChunk>, derived: seq<ChunkState>, authorityByID: Chunks, derivedByID: map<string, ChunkState>,
                     enqueueFails: nat -> bool, ghost fs: seq<(Finding, string)>)
      returns (tally: Tally, ok: bool, ghost seen: nat)
      requires |fs| == |chunks| + |derived|
      requires forall i | 0 <= i < |chunks| :: fs[i] == (FindingFor(chunks[i], derivedByID), chunks[i].chunkID)
      requires forall i | 0 <= i < |derived| ::
        fs[|chunks| + i] == (OrphanFinding(derived[i], authorityByID), derived[i].chunkID)
      modifies this
      ensures Reported(fs, |fs|, old(events), events, tally, ok, seen, enqueueFails)
    {
      ghost var before := events;
      tally, ok, seen := ReportChunks(chunks, derivedByID, enqueueFails, fs);
      if ok {
        tally, ok, seen := ReportOrphans(derived, authorityByID, tally, enqueueFails, fs, |chunks|, before);
      }
    }

    /** `enqueueFails(n)`: the outbox refuses the event that would be its `n`-th. */
    method Reconcile(authority: Result<seq<StoredChunk>, Error>, derived: Result<seq<ChunkState>, Error>, enqueueFails: nat -> bool)
      returns (tally: Tally, r: Result<(), Error>, ghost seen: nat)
      modifies this
      ensures authority.Err? ==> r == Err(authority.error) && tally == Tally(0, 0, 0) && events == old(events)
      ensures authority.Ok? && derived.Err? ==> r == Err(derived.error) && tally == Tally(0, 0, 0) && events == old(events)
      ensures authority.Ok? && derived.Ok? ==>
        && (r.Ok? || r == Err(EnqueueFailed))
        && (r.Ok? ==> events == old(events) + Plan(authority.value, derived.value))
        && var fs := Findings(authority.value, derived.value);
           Reported(fs, |fs|, old(events), events, tally, r.Ok?, seen, enqueueFails)
    {
      tally, seen := Tally(0, 0, 0), 0;
      if authority.Err? {
        return tally, Err(authority.error), seen;
      }
      if derived.Err? {
        return tally, Err(derived.error), seen;
      }
      var authorityByID := IndexChunks(authority.value);
      var derivedByID := IndexStates(derived.value);
      ghost var fs := Findings(authority.value, derived.value);
      var ok;
      tally, ok, seen := ReportAll(authority.value, derived.value, authorityByID, derivedByID, enqueueFails, fs);
      AllReported(fs, old(events), events, tally, ok, seen, enqueueFails);
      r := if ok then Ok(()) else Err(EnqueueFailed);
    }
  }

  /** After `seen` of the first `n` findings: all of them, or up to one whose event was refused. */
  ghost predicate Reported(fs: seq<(Finding, string)>, n: nat, before: seq<Event>, events: seq<Event>, tally: Tally, ok: bool,
                           seen: nat, enqueueFails: nat -> bool)
  {
    && seen <= n <= |fs|
    && tally == TallyFor(fs[..seen])
    && if ok then seen == n && events == before + EventsFor(fs[..seen])
       else seen > 0 && fs[seen - 1].0 != Fine && events == before + EventsFor(fs[..seen - 1]) && enqueueFails(|events|)
  }

  method IndexChunks(chunks: seq<StoredChunk>) returns (byID: Chunks)
    ensures byID == ChunksByID(chunks)
  {
    byID := map[];
    for i := 0 to |chunks|
      invariant byID == ChunksByID(chunks[..i])
    {
      assert chunks[..i + 1][..i] == chunks[..i];
      byID := byID[chunks[i].chunkID := chunks[i]];
    }
    assert chunks[..|chunks|] == chunks;
  }

  method IndexStates(derived: seq<ChunkState>) returns (byID: map<string, ChunkState>)
    ensures byID == StatesByID(derived)
  {
    byID := map[];
    for i := 0 to |derived|
      invariant byID == StatesByID(derived[..i])
    {
      assert derived[..i + 1][..i] == derived[..i];
      byID := byID[derived[i].chunkID := derived[i]];
    }
    assert derived[..|derived|] == derived;
  }

  lemma {:induction false} ReportedStep(fs: seq<(Finding, string)>, n: nat, before: seq<Event>, events: seq<Event>, tally: Tally,
                                        after: seq<Event>, next: Tally, ok: bool, enqueueFails: nat -> bool)
    requires n < |fs| && Reported(fs, n, before, events, tally, true, n, enqueueFails)
    requires next == Count(tally, fs[n].0) && ok == (fs[n].0 == Fine || !enqueueFails(|events|))
    requires after == if ok then events + EventFor(fs[n].0, fs[n].1) else events
    ensures Reported(fs, n + 1, before, after, next, ok, n + 1, enqueueFails)
  {
    assert fs[..n + 1][..n] == fs[..n];
    assert (before + EventsFor(fs[..n])) + EventFor(fs[n].0, fs[n].1) == before + (EventsFor(fs[..n]) + EventFor(fs[n].0, fs[n].1));
  }

  lemma {:induction false} AllReported(fs: seq<(Finding, string)>, before: seq<Event>, events: seq<Event>, tally: Tally, ok: bool,
                                       seen: nat, enqueueFails: nat -> bool)
    requires Reported(fs, |fs|, before, events, tally, ok, seen, enqueueFails)
    ensures ok ==> events == before + EventsFor(fs)
  {
    assert fs[..|fs|] == fs;
  }

  // ---- What a plan says ----------------------------------------------------------------------------

  /** A listing of the authority store: its rows, each once (the chunk id is the primary key). */
  ghost predicate ListsAuthority(chunks: seq<StoredChunk>, authority: Chunks) {
    && (forall i | 0 <= i < |chunks| :: chunks[i].chunkID in authority && authority[chunks[i].chunkID] == chunks[i])
    && (forall id | id in authority :: exists i :: 0 <= i < |chunks| && chunks[i].chunkID == id)
    && (forall i, j | 0 <= i < j < |chunks| :: chunks[i].chunkID != chunks[j].chunkID)
  }

  ghost predicate StateIs(s: ChunkState, chunk: StoredChunk) {
    s.classification == chunk.classification && s.documentType == chunk.documentType && s.isDeleted == chunk.isDeleted
  }

  /** A listing of the derived index, each entry once. */
  ghost predicate ListsIndex(derived: seq<ChunkState>, index: Chunks) {
    && (forall i | 0 <= i < |derived| :: derived[i].chunkID in index && StateIs(derived[i], index[derived[i].chunkID]))
    && (forall id | id in index :: exists i :: 0 <= i < |derived| && derived[i].chunkID == id)
    && (forall i, j | 0 <= i < j < |derived| :: derived[i].chunkID != derived[j].chunkID)
  }

  lemma {:induction false} ChunksByIDHolds(chunks: seq<StoredChunk>, id: string)
    ensures id in ChunksByID(chunks) <==> exists i :: 0 <= i < |chunks| && chunks[i].chunkID == id
  {
    if chunks != [] {
      var n := |chunks| - 1;
      ChunksByIDHolds(chunks[..n], id);
      if i :| 0 <= i < n && chunks[i].chunkID == id {
        assert chunks[..n][i] == chunks[i];
      }
    }
  }

  lemma {:induction false} StatesByIDHolds(derived: seq<ChunkState>, index: Chunks, id: string)
    requires forall i | 0 <= i < |derived| :: derived[i].chunkID in index && StateIs(derived[i], index[derived[i].chunkID])
    ensures id in StatesByID(derived) <==> exists i :: 0 <= i < |derived| && derived[i].chunkID == id
    ensures id in StatesByID(derived) ==> id in index && StateIs(StatesByID(derived)[id], index[id])
  {
    if derived != [] {
      var n := |derived| - 1;
      assert forall i | 0 <= i < n :: derived[..n][i] == derived[i];
      StatesByIDHolds(derived[..n], index, id);
      if i :| 0 <= i < n && derived[i].chunkID == id {
        assert derived[..n][i] == derived[i];
      }
    }
  }

  /** What a finding says about its id. */
  ghost predicate Tells(authority: Chunks, index: Chunks, f: (Finding, string)) {
    match f.0
    case Fine => true
    case ShouldDelete => !Live(authority, f.1) && f.1 in index
    case Missing => Live(authority, f.1) && f.1 !in index
    case Inconsistent => Live(authority, f.1) && f.1 in index && !SameState(index[f.1], authority[f.1])
  }

  lemma {:induction false} ChunkFinding(chunks: seq<StoredChunk>, derived: seq<ChunkState>, authority: Chunks, index: Chunks, i: nat)
    requires ListsAuthority(chunks, authority) && ListsIndex(derived, index) && i < |chunks|
    ensures var f := FindingFor(chunks[i], StatesByID(derived)); var id := chunks[i].chunkID;
      Tells(authority, index, (f, id)) && (f == Fine <==> AgreesAt(authority, index, id))
  {
    StatesByIDHolds(derived, index, chunks[i].chunkID);
  }

  lemma {:induction false} DerivedFinding(chunks: seq<StoredChunk>, derived: seq<ChunkState>, authority: Chunks, index: Chunks, i: nat)
    requires ListsAuthority(chunks, authority) && ListsIndex(derived, index) && i < |derived|
    ensures var f := OrphanFinding(derived[i], ChunksByID(chunks)); var id := derived[i].chunkID;
      Tells(authority, index, (f, id)) && (f == Fine <==> id in authority)
  {
    ChunksByIDHolds(chunks, derived[i].chunkID);
  }

  ghost predicate Bad(fs: seq<(Finding, string)>, i: int) {
    0 <= i < |fs| && fs[i].0 != Fine
  }

  /** All findings tell the truth, the bad ones name each disagreeing id exactly once. */
  ghost predicate Exact(authority: Chunks, index: Chunks, fs: seq<(Finding, string)>) {
    && (forall i | 0 <= i < |fs| :: Tells(authority, index, fs[i]))
    && (forall id :: !AgreesAt(authority, index, id) ==> exists i :: Bad(fs, i) && fs[i].1 == id)
    && DistinctBad(fs)
  }

  ghost predicate DistinctBad(fs: seq<(Finding, string)>) {
    forall i, j | 0 <= i < j < |fs| && fs[i].0 != Fine && fs[j].0 != Fine :: fs[i].1 != fs[j].1
  }

  lemma FindingsAt(chunks: seq<StoredChunk>, derived: seq<ChunkState>, i: nat)
    requires i < |chunks| + |derived|
    ensures Findings(chunks, derived)[i] ==
      if i < |chunks| then (FindingFor(chunks[i], StatesByID(derived)), chunks[i].chunkID)
      else (OrphanFinding(derived[i - |chunks|], ChunksByID(chunks)), derived[i - |chunks|].chunkID)
  {
  }

  lemma {:induction false} FindingsTell(chunks: seq<StoredChunk>, derived: seq<ChunkState>, authority: Chunks, index: Chunks, i: nat)
    requires ListsAuthority(chunks, authority) && ListsIndex(derived, index) && i < |chunks| + |derived|
    ensures var f := Findings(chunks, derived)[i];
      && Tells(authority, index, f)
      && f.1 == (if i < |chunks| then chunks[i].chunkID else derived[i - |chunks|].chunkID)
      && (f.0 != Fine ==> (i < |chunks| <==> f.1 in authority))
      && (i < |chunks| ==> (f.0 == Fine <==> AgreesAt(authority, index, f.1)))
      && (i >= |chunks| ==> (f.0 == Fine <==> f.1 in authority))
  {
    FindingsAt(chunks, derived, i);
    if i < |chunks| {
      ChunkFinding(chunks, derived, authority, index, i);
    } else {
      DerivedFinding(chunks, derived, authority, index, i - |chunks|);
    }
  }

  lemma {:induction false} DisagreementIsFound(chunks: seq<StoredChunk>, derived: seq<ChunkState>, authority: Chunks, index: Chunks, id: string)
    returns (i: nat)
    requires ListsAuthority(chunks, authority) && ListsIndex(derived, index) && !AgreesAt(authority, index, id)
    ensures Bad(Findings(chunks, derived), i) && Findings(chunks, derived)[i].1 == id
  {
    if id in authority {
      i :| 0 <= i < |chunks| && chunks[i].chunkID == id;
    } else {
      var j: nat :| j < |derived| && derived[j].chunkID == id;
      i := |chunks| + j;
    }
    FindingsTell(chunks, derived, authority, index, i);
  }

  lemma {:induction false} FindingsExact(chunks: seq<StoredChunk>, derived: seq<ChunkState>, authority: Chunks, index: Chunks)
    requires ListsAuthority(chunks, authority) && ListsIndex(derived, index)
    ensures Exact(authority, index, Findings(chunks, derived))
  {
    var fs := Findings(chunks, derived);
    forall i | 0 <= i < |fs|
      ensures Tells(authority, index, fs[i])
    {
      FindingsTell(chunks, derived, authority, index, i);
    }
    forall id | !AgreesAt(authority, index, id)
      ensures exists i :: Bad(fs, i) && fs[i].1 == id
    {
      var i := DisagreementIsFound(chunks, derived, authority, index, id);
    }
    forall i, j | 0 <= i < j < |fs| && fs[i].0 != Fine && fs[j].0 != Fine
      ensures fs[i].1 != fs[j].1
    {
      FindingsTell(chunks, derived, authority, index, i);
      FindingsTell(chunks, derived, authority, index, j);
    }
  }

  lemma {:induction false} EventsOf(fs: seq<(Finding, string)>, e: Event)
    ensures e in EventsFor(fs) <==> exists i :: Bad(fs, i) && EventFor(fs[i].0, fs[i].1) == [e]
  {
    if fs != [] {
      var n := |fs| - 1;
      EventsOf(fs[..n], e);
      assert forall i | 0 <= i < n :: fs[..n][i] == fs[i];
      assert forall i :: Bad(fs[..n], i) ==> Bad(fs, i);
      assert forall i :: Bad(fs, i) && i < n ==> Bad(fs[..n], i);
      if e in EventFor(fs[n].0, fs[n].1) {
        assert Bad(fs, n);
      }
    }
  }

  /** Findings and events correspond: the counters add up to the number of events. */
  lemma {:induction false} TallyCountsEvents(fs: seq<(Finding, string)>)
    ensures TallyFor(fs).Total() == |EventsFor(fs)|
  {
    if fs != [] {
      TallyCountsEvents(fs[..|fs| - 1]);
    }
  }

  ghost function BadIDs(fs: seq<(Finding, string)>): set<string> {
    set i | 0 <= i < |fs| && fs[i].0 != Fine :: fs[i].1
  }

  lemma {:induction false} BadIDsStep(front: seq<(Finding, string)>, f: (Finding, string))
    ensures BadIDs(front + [f]) == BadIDs(front) + if f.0 == Fine then {} else {f.1}
  {
    var fs, n := front + [f], |front|;
    assert fs[n] == f;
    forall id
      ensures id in BadIDs(fs) <==> id in BadIDs(front) || (f.0 != Fine && id == f.1)
    {
      if id in BadIDs(front) {
        var i :| 0 <= i < n && front[i].0 != Fine && front[i].1 == id;
        assert fs[i] == front[i];
      }
      if id in BadIDs(fs) {
        var i :| 0 <= i < n + 1 && fs[i].0 != Fine && fs[i].1 == id;
        assert i < n ==> fs[i] == front[i];
      }
    }
  }

  lemma {:induction false} BadIDsCount(fs: seq<(Finding, string)>)
    requires DistinctBad(fs)
    ensures |BadIDs(fs)| == |EventsFor(fs)|
  {
    if fs != [] {
      var n := |fs| - 1;
      DistinctFront(fs, n);
      BadIDsCount(fs[..n]);
      BadIDsStep(fs[..n], fs[n]);
    }
  }

  lemma DistinctFront(fs: seq<(Finding, string)>, n: nat)
    requires |fs| == n + 1 && DistinctBad(fs)
    ensures DistinctBad(fs[..n]) && fs[..n] + [fs[n]] == fs
    ensures fs[n].0 != Fine ==> fs[n].1 !in BadIDs(fs[..n])
  {
  }

  lemma {:induction false} BadIDsDisagree(fs: seq<(Finding, string)>, authority: Chunks, index: Chunks)
    requires Exact(authority, index, fs)
    ensures BadIDs(fs) == Disagreement(authority, index)
  {
    forall id | id in BadIDs(fs)
      ensures id in Disagreement(authority, index)
    {
      var i :| 0 <= i < |fs| && fs[i].0 != Fine && fs[i].1 == id;
      assert Tells(authority, index, fs[i]);
    }
    forall id | id in Disagreement(authority, index)
      ensures id in BadIDs(fs)
    {
      var i :| Bad(fs, i) && fs[i].1 == id;
    }
  }

  /**
    Accounting: the three counters add up to the number of events and to the number of ids
    on which index and authority disagree.
   */
  lemma {:induction false} ReconcileAccounting(chunks: seq<StoredChunk>, derived: seq<ChunkState>, authority: Chunks, index: Chunks)
    requires ListsAuthority(chunks, authority) && ListsIndex(derived, index)
    ensures TallyFor(Findings(chunks, derived)).Total() == |Plan(chunks, derived)| == |Disagreement(authority, index)|
  {
    FindingsExact(chunks, derived, authority, index);
    TallyCountsEvents(Findings(chunks, derived));
    BadIDsCount(Findings(chunks, derived));
    BadIDsDisagree(Findings(chunks, derived), authority, index);
  }

  /** Planned events name exactly the disagreeing ids; deletions only ids that are not live. */
  lemma {:induction false} PlanExact(chunks: seq<StoredChunk>, derived: seq<ChunkState>, authority: Chunks, index: Chunks)
    requires ListsAuthority(chunks, authority) && ListsIndex(derived, index)
    ensures forall e | e in Plan(chunks, derived) :: Proper(authority, e) && !AgreesAt(authority, index, e.chunkID)
    ensures forall id :: !AgreesAt(authority, index, id) ==> exists e :: e in Plan(chunks, derived) && e.chunkID == id
  {
    var fs := Findings(chunks, derived);
    FindingsExact(chunks, derived, authority, index);
    forall e | e in Plan(chunks, derived)
      ensures Proper(authority, e) && !AgreesAt(authority, index, e.chunkID)
    {
      EventsOf(fs, e);
      var i :| Bad(fs, i) && EventFor(fs[i].0, fs[i].1) == [e];
      assert Tells(authority, index, fs[i]);
    }
    forall id | !AgreesAt(authority, index, id)
      ensures exists e :: e in Plan(chunks, derived) && e.chunkID == id
    {
      var i :| Bad(fs, i) && fs[i].1 == id;
      var e := EventFor(fs[i].0, fs[i].1)[0];
      EventsOf(fs, e);
    }
  }

  // ---- Counters by class, events by kind ---------------------------------------------------------------

  ghost function ClassIDs(fs: seq<(Finding, string)>, f: Finding): set<string> {
    set i | 0 <= i < |fs| && fs[i].0 == f :: fs[i].1
  }

  function CountOf(t: Tally, f: Finding): nat {
    match f
    case Fine => 0
    case Missing => t.missing
    case Inconsistent => t.inconsistent
    case ShouldDelete => t.shouldDelete
  }

  lemma {:induction false} ClassStep(front: seq<(Finding, string)>, g: (Finding, string), f: Finding)
    ensures ClassIDs(front + [g], f) == ClassIDs(front, f) + if g.0 == f then {g.1} else {}
  {
    var fs, n := front + [g], |front|;
    assert fs[n] == g;
    forall id
      ensures id in ClassIDs(fs, f) <==> id in ClassIDs(front, f) || (g.0 == f && id == g.1)
    {
      if id in ClassIDs(front, f) {
        var i :| 0 <= i < n && front[i].0 == f && front[i].1 == id;
        assert fs[i] == front[i];
      }
      if id in ClassIDs(fs, f) {
        var i :| 0 <= i < n + 1 && fs[i].0 == f && fs[i].1 == id;
        assert i < n ==> fs[i] == front[i];
      }
    }
  }

  lemma {:induction false} ClassCount(fs: seq<(Finding, string)>, f: Finding)
    requires f != Fine && DistinctBad(fs)
    ensures |ClassIDs(fs, f)| == CountOf(TallyFor(fs), f)
  {
    if fs != [] {
      var n := |fs| - 1;
      DistinctFront(fs, n);
      ClassCount(fs[..n], f);
      ClassStep(fs[..n], fs[n], f);
      assert ClassIDs(fs[..n], f) <= BadIDs(fs[..n]);
    }
  }

  ghost function MissingIDs(authority: Chunks, index: Chunks): set<string> {
    set id | id in authority.Keys && Live(authority, id) && id !in index
  }

  ghost function InconsistentIDs(authority: Chunks, index: Chunks): set<string> {
    set id | id in authority.Keys && Live(authority, id) && id in index && !SameState(index[id], authority[id])
  }

  ghost function StaleIDs(authority: Chunks, index: Chunks): set<string> {
    set id | id in index.Keys && !Live(authority, id)
  }

  lemma {:induction false} ClassIs(fs: seq<(Finding, string)>, authority: Chunks, index: Chunks, f: Finding, id: string)
    requires Exact(authority, index, fs) && f != Fine
    ensures id in ClassIDs(fs, f) <==> !AgreesAt(authority, index, id) && Tells(authority, index, (f, id))
  {
    if id in ClassIDs(fs, f) {
      var i :| 0 <= i < |fs| && fs[i].0 == f && fs[i].1 == id;
      assert Tells(authority, index, fs[i]);
    }
    if !AgreesAt(authority, index, id) && Tells(authority, index, (f, id)) {
      var i :| Bad(fs, i) && fs[i].1 == id;
      assert Tells(authority, index, fs[i]);
    }
  }

  lemma {:induction false} ClassesAre(fs: seq<(Finding, string)>, authority: Chunks, index: Chunks)
    requires Exact(authority, index, fs)
    ensures ClassIDs(fs, Missing) == MissingIDs(authority, index)
    ensures ClassIDs(fs, Inconsistent) == InconsistentIDs(authority, index)
    ensures ClassIDs(fs, ShouldDelete) == StaleIDs(authority, index)
  {
    forall id
      ensures id in ClassIDs(fs, Missing) <==> id in MissingIDs(authority, index)
      ensures id in ClassIDs(fs, Inconsistent) <==> id in InconsistentIDs(authority, index)
      ensures id in ClassIDs(fs, ShouldDelete) <==> id in StaleIDs(authority, index)
    {
      ClassIs(fs, authority, index, Missing, id);
      ClassIs(fs, authority, index, Inconsistent, id);
      ClassIs(fs, authority, index, ShouldDelete, id);
    }
  }

  /** Each counter is the number of ids of its kind: missing, in the wrong state, and to be deleted. */
  lemma {:induction false} CountersByClass(chunks: seq<StoredChunk>, derived: seq<ChunkState>, authority: Chunks, index: Chunks)
    requires ListsAuthority(chunks, authority) && ListsIndex(derived, index)
    ensures var t := TallyFor(Findings(chunks, derived));
      && t.missing == |MissingIDs(authority, index)|
      && t.inconsistent == |InconsistentIDs(authority, index)|
      && t.shouldDelete == |StaleIDs(authority, index)|
  {
    var fs := Findings(chunks, derived);
    FindingsExact(chunks, derived, authority, index);
    ClassesAre(fs, authority, index);
    ClassCount(fs, Missing);
    ClassCount(fs, Inconsistent);
    ClassCount(fs, ShouldDelete);
  }

  lemma {:induction false} EventsDiffer(fs: seq<(Finding, string)>)
    requires DistinctBad(fs)
    ensures forall i, j | 0 <= i < j < |EventsFor(fs)| :: EventsFor(fs)[i].chunkID != EventsFor(fs)[j].chunkID
  {
    if fs != [] {
      var n := |fs| - 1;
      DistinctFront(fs, n);
      EventsDiffer(fs[..n]);
      forall e | e in EventsFor(fs[..n])
        ensures e.chunkID in BadIDs(fs[..n])
      {
        EventsOf(fs[..n], e);
        var i :| Bad(fs[..n], i) && EventFor(fs[..n][i].0, fs[..n][i].1) == [e];
      }
    }
  }

  /** A live chunk is ordered to be rebuilt, any other to be deleted, and no id gets two orders. */
  lemma {:induction false} PlanByKind(chunks: seq<StoredChunk>, derived: seq<ChunkState>, authority: Chunks, index: Chunks)
    requires ListsAuthority(chunks, authority) && ListsIndex(derived, index)
    ensures var plan := Plan(chunks, derived);
      && (forall e | e in plan :: e.eventType == (if Live(authority, e.chunkID) then RebuildChunk else SoftDelete))
      && (forall i, j | 0 <= i < j < |plan| :: plan[i].chunkID != plan[j].chunkID)
  {
    var fs := Findings(chunks, derived);
    FindingsExact(chunks, derived, authority, index);
    EventsDiffer(fs);
    forall e | e in Plan(chunks, derived)
      ensures e.eventType == if Live(authority, e.chunkID) then RebuildChunk else SoftDelete
    {
      EventsOf(fs, e);
      var i :| Bad(fs, i) && EventFor(fs[i].0, fs[i].1) == [e];
      assert Tells(authority, index, fs[i]);
    }
  }

  // ---- Convergence ----------------------------------------------------------------------------------

  /** An event that does not delete what is live. */
  ghost predicate Proper(authority: Chunks, e: Event) {
    (e.eventType == SoftDelete ==> !Live(authority, e.chunkID)) && e.eventType != AdoptionIngest
  }

  /** Whether a delivery succeeds does not depend on the index. */
  ghost predicate Succeeds(parts: Parts, authority: Chunks, d: Delivery) {
    Apply(parts, authority, map[], d).Ok?
  }

  /** The delivery ends as reported, in the same error if in one; the index does not matter. */
  ghost predicate Answers(parts: Parts, authority: Chunks, d: Delivery, r: Result<(), Error>) {
    var a := Apply(parts, authority, map[], d);
    if r.Ok? then a.Ok? else a.Err? && a.error == r.error
  }

  ghost function AfterOne(parts: Parts, authority: Chunks, index: Chunks, d: Delivery): Chunks {
    var a := Apply(parts, authority, index, d);
    if a.Ok? then a.value else index
  }

  /** The index after the processor was handed event after event. */
  ghost function HandledAll(parts: Parts, authority: Chunks, index: Chunks, ds: seq<Delivery>): Chunks
    decreases |ds|
  {
    if ds == [] then index else HandledAll(parts, authority, Handled(parts, authority, index, ds[0]), ds[1..])
  }

  lemma {:induction false} HandledAllApplies(parts: Parts, authority: Chunks, index: Chunks, ds: seq<Delivery>)
    requires parts.hasStatus && parts.hasIndex
    ensures HandledAll(parts, authority, index, ds) == AfterAll(parts, authority, index, ds)
    decreases |ds|
  {
    if ds != [] {
      HandledAllApplies(parts, authority, AfterOne(parts, authority, index, ds[0]), ds[1..]);
    }
  }

  /** An event as it was enqueued, under whatever id the outbox gave it. */
  ghost predicate SameOrder(e: Event, planned: Event) {
    e.eventType == planned.eventType && e.chunkID == planned.chunkID
  }

  /** Every delivery is of an event of the plan, and each event of the plan succeeds at least once. */
  ghost predicate Carries(parts: Parts, authority: Chunks, plan: seq<Event>, ds: seq<Delivery>) {
    && (forall d | d in ds :: Planned(plan, d))
    && (forall e | e in plan :: Achieved(parts, authority, ds, e))
  }

  ghost predicate Planned(plan: seq<Event>, d: Delivery) {
    exists e :: e in plan && SameOrder(d.event, e)
  }

  ghost predicate Achieved(parts: Parts, authority: Chunks, ds: seq<Delivery>, e: Event) {
    exists d :: d in ds && SameOrder(d.event, e) && Succeeds(parts, authority, d)
  }

  ghost function AfterAll(parts: Parts, authority: Chunks, index: Chunks, ds: seq<Delivery>): Chunks
    decreases |ds|
  {
    if ds == [] then index else AfterAll(parts, authority, AfterOne(parts, authority, index, ds[0]), ds[1..])
  }

  lemma OneDelivery(parts: Parts, authority: Chunks, index: Chunks, d: Delivery, id: string)
    requires Filed(authority) && Proper(authority, d.event)
    ensures AgreesAt(authority, index, id) ==> AgreesAt(authority, AfterOne(parts, authority, index, d), id)
    ensures d.event.chunkID == id && Succeeds(parts, authority, d) ==> AgreesAt(authority, AfterOne(parts, authority, index, d), id)
    ensures !Succeeds(parts, authority, d) ==> AfterOne(parts, authority, index, d) == index
  {
  }

  /** An embedding that fits the profile: as many numbers as it has dimensions, from the model it names. */
  predicate EmbeddingFits(profile: Profile, reply: Result<Embedding, Error>) {
    && reply.Ok? && 0 < profile.dimensions == |reply.value.values|
    && reply.value.model == profile.model && TrimSpace(profile.model) != ""
  }

  /**
    What the index holds of a chunk: its text, place and state as in the authority, protected
    identifiers as tokens only, and the vector of the embedding.
   */
  ghost predicate Carried(parts: Parts, authority: Chunks, index: Chunks, id: string) {
    && id in authority && id in index
    && var a, x := authority[id], index[id];
    && x.chunkID == a.chunkID && x.documentID == a.documentID && x.chunkIndex == a.chunkIndex && x.contentText == a.contentText
    && x.classification == a.classification && x.documentType == a.documentType && x.isDeleted == a.isDeleted
    && x.documentNumber == (if parts.policy.protectDocumentNumber then parts.policy.token("document_number", a.documentNumber) else a.documentNumber)
    && x.organizationName ==
         (if parts.policy.protectOrganizationName then parts.policy.token("organization_name", a.organizationName) else a.organizationName)
    && |x.denseVector| == parts.profile.dimensions
  }

  predicate Writes(e: Event) {
    e.eventType == IndexChunk || e.eventType == RebuildChunk
  }

  /** When a delivery succeeds, and all it then does to the index. */
  lemma {:induction false} DeliveryExactly(parts: Parts, authority: Chunks, index: Chunks, d: Delivery)
    requires Filed(authority)
    ensures var e := d.event;
      Succeeds(parts, authority, d) <==>
        && !d.indexFails
        && (e.eventType == SoftDelete
            || (Writes(e) && parts.hasSource && parts.hasEmbedder && !d.sourceFails && e.chunkID in authority
                && (Live(authority, e.chunkID) ==> EmbeddingFits(parts.profile, d.embedding))))
    ensures var id, after := d.event.chunkID, AfterOne(parts, authority, index, d);
      Succeeds(parts, authority, d) ==>
        && (forall other | other != id :: (other in after <==> other in index) && (other in index ==> after[other] == index[other]))
        && (if Writes(d.event) && Live(authority, id)
            then Carried(parts, authority, after, id) && after[id].denseVector == d.embedding.value.values
            else id !in after)
  {
  }

  lemma {:induction false} CarriedStays(parts: Parts, authority: Chunks, index: Chunks, d: Delivery, id: string)
    requires Filed(authority) && Proper(authority, d.event) && Live(authority, id)
    ensures Carried(parts, authority, index, id) ==> Carried(parts, authority, AfterOne(parts, authority, index, d), id)
    ensures d.event.chunkID == id && Succeeds(parts, authority, d) ==> Carried(parts, authority, AfterOne(parts, authority, index, d), id)
  {
    DeliveryExactly(parts, authority, index, d);
    if !Succeeds(parts, authority, d) {
      OneDelivery(parts, authority, index, d, id);
    }
  }

  /** A live chunk delivered with success is carried whole from then on, whatever else is delivered. */
  lemma {:induction false} CarriedAfter(parts: Parts, authority: Chunks, index: Chunks, ds: seq<Delivery>, id: string)
    requires Filed(authority) && Live(authority, id) && forall d | d in ds :: Proper(authority, d.event)
    requires Carried(parts, authority, index, id)
          || exists d :: d in ds && d.event.chunkID == id && Succeeds(parts, authority, d)
    ensures Carried(parts, authority, AfterAll(parts, authority, index, ds), id)
    decreases |ds|
  {
    if ds != [] {
      CarriedStays(parts, authority, index, ds[0], id);
      if !Carried(parts, authority, index, id) {
        var d :| d in ds && d.event.chunkID == id && Succeeds(parts, authority, d);
        assert d == ds[0] || d in ds[1..];
      }
      CarriedAfter(parts, authority, AfterOne(parts, authority, index, ds[0]), ds[1..], id);
    }
  }

  /** Processing proper events never adds a disagreement. */
  lemma {:induction false} DisagreementShrinks(parts: Parts, authority: Chunks, index: Chunks, d: Delivery)
    requires Filed(authority) && Proper(authority, d.event)
    ensures Disagreement(authority, AfterOne(parts, authority, index, d)) <= Disagreement(authority, index)
  {
    forall id | id in Disagreement(authority, AfterOne(parts, authority, index, d))
      ensures id in Disagreement(authority, index)
    {
      OneDelivery(parts, authority, index, d, id);
    }
  }

  lemma {:induction false} ConvergesAt(parts: Parts, authority: Chunks, index: Chunks, ds: seq<Delivery>, id: string)
    requires Filed(authority) && forall d | d in ds :: Proper(authority, d.event)
    requires AgreesAt(authority, index, id)
          || exists d :: d in ds && d.event.chunkID == id && Succeeds(parts, authority, d)
    ensures AgreesAt(authority, AfterAll(parts, authority, index, ds), id)
    decreases |ds|
  {
    if ds != [] {
      OneDelivery(parts, authority, index, ds[0], id);
      if !AgreesAt(authority, index, id) {
        var d :| d in ds && d.event.chunkID == id && Succeeds(parts, authority, d);
        assert d == ds[0] || d in ds[1..];
      }
      ConvergesAt(parts, authority, AfterOne(parts, authority, index, ds[0]), ds[1..], id);
    }
  }

  lemma {:induction false} CarriedProper(parts: Parts, authority: Chunks, plan: seq<Event>, ds: seq<Delivery>)
    requires Carries(parts, authority, plan, ds) && forall e | e in plan :: Proper(authority, e)
    ensures forall d | d in ds :: Proper(authority, d.event)
  {
    forall d | d in ds
      ensures Proper(authority, d.event)
    {
      assert Planned(plan, d);
      var e :| e in plan && SameOrder(d.event, e);
    }
  }

  lemma {:induction false} IndexConverges(parts: Parts, chunks: seq<StoredChunk>, derived: seq<ChunkState>,
                                          authority: Chunks, index: Chunks, ds: seq<Delivery>)
    requires Filed(authority) && ListsAuthority(chunks, authority) && ListsIndex(derived, index)
    requires Carries(parts, authority, Plan(chunks, derived), ds)
    ensures Agrees(authority, AfterAll(parts, authority, index, ds))
  {
    var plan := Plan(chunks, derived);
    PlanExact(chunks, derived, authority, index);
    CarriedProper(parts, authority, plan, ds);
    forall id: string
      ensures AgreesAt(authority, AfterAll(parts, authority, index, ds), id)
    {
      if !AgreesAt(authority, index, id) {
        var e :| e in plan && e.chunkID == id;
        assert Achieved(parts, authority, ds, e);
      }
      ConvergesAt(parts, authority, index, ds, id);
    }
  }

  lemma {:induction false} NothingToDo(chunks: seq<StoredChunk>, derived: seq<ChunkState>, authority: Chunks, index: Chunks)
    requires ListsAuthority(chunks, authority) && ListsIndex(derived, index) && Agrees(authority, index)
    ensures Plan(chunks, derived) == []
  {
    PlanExact(chunks, derived, authority, index);
    var plan := Plan(chunks, derived);
    assert |plan| > 0 ==> plan[0] in plan && !AgreesAt(authority, index, plan[0].chunkID);
  }

  /**
    Convergence: hand the events of one reconciliation to the processor in any order, any
    number of times, under any ids, with any failures in between; once each has succeeded at
    least once, the index agrees with the authority and another reconciliation finds nothing
    to do.
   */
  lemma {:induction false} ReconcileConverges(parts: Parts, chunks: seq<StoredChunk>, derived: seq<ChunkState>,
                                              authority: Chunks, index: Chunks, ds: seq<Delivery>, derivedAfter: seq<ChunkState>)
    requires Filed(authority) && ListsAuthority(chunks, authority) && ListsIndex(derived, index)
    requires Carries(parts, authority, Plan(chunks, derived), ds)
    requires parts.hasStatus && parts.hasIndex
    requires ListsIndex(derivedAfter, HandledAll(parts, authority, index, ds))
    ensures Agrees(authority, HandledAll(parts, authority, index, ds))
    ensures Plan(chunks, derivedAfter) == []
  {
    HandledAllApplies(parts, authority, index, ds);
    IndexConverges(parts, chunks, derived, authority, index, ds);
    NothingToDo(chunks, derivedAfter, authority, AfterAll(parts, authority, index, ds));
  }

  /** What a reconciliation orders to be rebuilt is, in the end, carried whole. */
  lemma {:induction false} ReconcileCarries(parts: Parts, chunks: seq<StoredChunk>, derived: seq<ChunkState>,
                                            authority: Chunks, index: Chunks, ds: seq<Delivery>, id: string)
    requires Filed(authority) && ListsAuthority(chunks, authority) && ListsIndex(derived, index)
    requires Carries(parts, authority, Plan(chunks, derived), ds) && parts.hasStatus && parts.hasIndex
    requires Live(authority, id) && !AgreesAt(authority, index, id)
    ensures Carried(parts, authority, HandledAll(parts, authority, index, ds), id)
  {
    var plan := Plan(chunks, derived);
    HandledAllApplies(parts, authority, index, ds);
    PlanExact(chunks, derived, authority, index);
    CarriedProper(parts, authority, plan, ds);
    var e :| e in plan && e.chunkID == id;
    assert Achieved(parts, authority, ds, e);
    CarriedAfter(parts, authority, index, ds, id);
  }

  // ---- Rebuilding ------------------------------------------------------------------------------------

  datatype RebuildResult = RebuildResult(reindexed: nat, deleted: nat)

  /** A rebuild does for the `i`-th chunk what delivering a rebuild event for it would do. */
  function RebuildDelivery(chunk: StoredChunk, embedding: Result<Embedding, Error>, fails: bool): Delivery {
    Delivery(Event(0, RebuildChunk, chunk.chunkID, map[]), false, embedding, fails, false)
  }

  function RebuildDeliveries(chunks: seq<StoredChunk>, embeddings: seq<Result<Embedding, Error>>, fails: seq<bool>): (ds: seq<Delivery>)
    requires |chunks| == |embeddings| == |fails|
    ensures |ds| == |chunks|
  {
    seq(|chunks|, i requires 0 <= i < |chunks| => RebuildDelivery(chunks[i], embeddings[i], fails[i]))
  }

  class Rebuilder {
    const parts: Parts
    var index: Chunks

    constructor (parts: Parts, index: Chunks)
      ensures this.parts == parts && this.index == index
    {
      this.parts, this.index := parts, index;
    }

    /** One turn of the loop. */
    method RebuildOne(chunk: StoredChunk, embedding: Result<Embedding, Error>, fails: bool, ghost authority: Chunks) returns (r: Result<(), Error>)
      requires parts.hasSource && parts.hasEmbedder
      requires chunk.chunkID in authority && authority[chunk.chunkID] == chunk
      modifies this
      ensures index == AfterOne(parts, authority, old(index), RebuildDelivery(chunk, embedding, fails))
      ensures Answers(parts, authority, RebuildDelivery(chunk, embedding, fails), r)
    {
      var next;
      if chunk.isDeleted {
        next := Delete(index, chunk.chunkID, fails);
      } else {
        var embedded := EmbedStoredChunk(parts.profile, embedding, chunk);
        if embedded.Err? {
          return Err(embedded.error);
        }
        next := Store(index, ProjectChunk(embedded.value, parts.policy), fails);
      }
      if next.Err? {
        return Err(next.error);
      }
      index := next.value;
      r := Ok(());
    }

    /** The loop over the listing. */
    method RebuildEach(chunks: seq<StoredChunk>, embeddings: seq<Result<Embedding, Error>>, fails: seq<bool>,
                       ghost authority: Chunks, ghost ds: seq<Delivery>)
      returns (result: RebuildResult, r: Result<(), Error>)
      requires parts.hasSource && parts.hasEmbedder
      requires |chunks| == |embeddings| == |fails| == |ds| && ListsAuthority(chunks, authority)
      requires forall i | 0 <= i < |ds| :: ds[i] == RebuildDelivery(chunks[i], embeddings[i], fails[i])
      modifies this
      ensures RebuiltTo(parts, authority, old(index), index, chunks, ds, result, r)
    {
      result, r := RebuildResult(0, 0), Ok(());
      for i := 0 to |chunks|
        invariant r.Ok? && Progress(parts, authority, old(index), index, chunks, ds, result, i)
      {
        ghost var before := index;
        r := RebuildOne(chunks[i], embeddings[i], fails[i], authority);
        if r.Err? {
          FailedLeaves(parts, authority, before, ds[i]);
          return;
        }
        ProgressStep(parts, authority, old(index), before, chunks, ds, result, i);
        if chunks[i].isDeleted {
          result := result.(deleted := result.deleted + 1);
        } else {
          result := result.(reindexed := result.reindexed + 1);
        }
      }
    }

    /** `embeddings[i]` and `fails[i]` are the answers for the `i`-th chunk listed; the first error ends the rebuild. */
    method RebuildAll(listing: Result<seq<StoredChunk>, Error>, embeddings: seq<Result<Embedding, Error>>, fails: seq<bool>,
                      ghost authority: Chunks)
      returns (result: RebuildResult, r: Result<(), Error>)
      requires listing.Ok? ==> |listing.value| == |embeddings| == |fails| && ListsAuthority(listing.value, authority)
      modifies this
      ensures !(parts.hasSource && parts.hasIndex && parts.hasEmbedder) ==>
        r == Err(UnsupportedEvent) && index == old(index) && result == RebuildResult(0, 0)
      ensures parts.hasSource && parts.hasIndex && parts.hasEmbedder ==>
        if listing.Err? then r == Err(listing.error) && index == old(index) && result == RebuildResult(0, 0)
        else RebuiltTo(parts, authority, old(index), index, listing.value,
                       RebuildDeliveries(listing.value, embeddings, fails), result, r)
    {
      if !(parts.hasSource && parts.hasIndex && parts.hasEmbedder) {
        return RebuildResult(0, 0), Err(UnsupportedEvent);
      }
      if listing.Err? {
        return RebuildResult(0, 0), Err(listing.error);
      }
      result, r := RebuildEach(listing.value, embeddings, fails, authority, RebuildDeliveries(listing.value, embeddings, fails));
    }
  }

  ghost function Deleted(chunks: seq<StoredChunk>): nat {
    if chunks == [] then 0
    else Deleted(chunks[..|chunks| - 1]) + if chunks[|chunks| - 1].isDeleted then 1 else 0
  }

  /** The first `n` chunks have been dealt with, all successfully. */
  ghost predicate Progress(parts: Parts, authority: Chunks, before: Chunks, after: Chunks, chunks: seq<StoredChunk>,
                           ds: seq<Delivery>, result: RebuildResult, n: nat)
    requires n <= |ds| == |chunks|
  {
    && result.reindexed + result.deleted == n
    && result.deleted == Deleted(chunks[..n])
    && after == AfterAll(parts, authority, before, ds[..n])
    && (forall i | 0 <= i < n :: Succeeds(parts, authority, ds[i]))
  }

  /** The rebuild got through all chunks if it reports success, and otherwise up to one that ends in the error reported. */
  ghost predicate RebuiltTo(parts: Parts, authority: Chunks, before: Chunks, after: Chunks, chunks: seq<StoredChunk>,
                            ds: seq<Delivery>, result: RebuildResult, r: Result<(), Error>)
    requires |ds| == |chunks|
  {
    var n := result.reindexed + result.deleted;
    && n <= |chunks| && (r.Ok? <==> n == |chunks|)
    && Progress(parts, authority, before, after, chunks, ds, result, n)
    && (r.Err? ==> Answers(parts, authority, ds[n], r))
  }

  lemma {:induction false} ProgressStep(parts: Parts, authority: Chunks, before: Chunks, index: Chunks, chunks: seq<StoredChunk>,
                                        ds: seq<Delivery>, result: RebuildResult, i: nat)
    requires i < |ds| == |chunks| && Progress(parts, authority, before, index, chunks, ds, result, i)
    requires Succeeds(parts, authority, ds[i])
    ensures Progress(parts, authority, before, AfterOne(parts, authority, index, ds[i]), chunks, ds,
      if chunks[i].isDeleted then result.(deleted := result.deleted + 1) else result.(reindexed := result.reindexed + 1), i + 1)
  {
    AfterOneMore(parts, authority, before, ds[..i], ds[i]);
    assert ds[..i + 1] == ds[..i] + [ds[i]];
    assert chunks[..i + 1][..i] == chunks[..i];
  }

  lemma FailedLeaves(parts: Parts, authority: Chunks, index: Chunks, d: Delivery)
    requires !Succeeds(parts, authority, d)
    ensures AfterOne(parts, authority, index, d) == index
  {
  }

  lemma {:induction false} AfterOneMore(parts: Parts, authority: Chunks, index: Chunks, ds: seq<Delivery>, d: Delivery)
    ensures AfterAll(parts, authority, index, ds + [d]) == AfterOne(parts, authority, AfterAll(parts, authority, index, ds), d)
    decreases |ds|
  {
    if ds == [] {
      assert ds + [d] == [d];
    } else {
      assert (ds + [d])[1..] == ds[1..] + [d];
      AfterOneMore(parts, authority, AfterOne(parts, authority, index, ds[0]), ds[1..], d);
    }
  }

  lemma {:induction false} OthersUntouched(parts: Parts, authority: Chunks, index: Chunks, ds: seq<Delivery>, id: string)
    requires Filed(authority) && forall d | d in ds :: d.event.chunkID != id
    ensures id in AfterAll(parts, authority, index, ds) <==> id in index
    decreases |ds|
  {
    if ds != [] {
      assert ds[0] in ds;
      OthersUntouched(parts, authority, AfterOne(parts, authority, index, ds[0]), ds[1..], id);
    }
  }

  /**
    A rebuild that ends without error makes the index agree if and only if it held no chunk
    unknown to the authority: those are not cleaned up.
   */
  lemma {:induction false} RebuildAgrees(parts: Parts, chunks: seq<StoredChunk>, embeddings: seq<Result<Embedding, Error>>, fails: seq<bool>,
                                         authority: Chunks, index: Chunks)
    requires |chunks| == |embeddings| == |fails| && Filed(authority) && ListsAuthority(chunks, authority)
    requires forall i | 0 <= i < |chunks| :: Succeeds(parts, authority, RebuildDeliveries(chunks, embeddings, fails)[i])
    ensures var after := AfterAll(parts, authority, index, RebuildDeliveries(chunks, embeddings, fails));
      Agrees(authority, after) <==> index.Keys <= authority.Keys
  {
    var ds := RebuildDeliveries(chunks, embeddings, fails);
    var after := AfterAll(parts, authority, index, ds);
    forall id: string
      ensures if id in authority then AgreesAt(authority, after, id) else (id in after <==> id in index)
    {
      if id in authority {
        var i :| 0 <= i < |chunks| && chunks[i].chunkID == id;
        assert ds[i] in ds;
        ConvergesAt(parts, authority, index, ds, id);
      } else {
        OthersUntouched(parts, authority, index, ds, id);
      }
    }
    if Agrees(authority, after) {
      forall id | id in index
        ensures id in authority
      {
        assert AgreesAt(authority, after, id);
      }
    }
  }

  /** And every live chunk is carried whole after it. */
  lemma {:induction false} RebuildCarries(parts: Parts, chunks: seq<StoredChunk>, embeddings: seq<Result<Embedding, Error>>, fails: seq<bool>,
                                          authority: Chunks, index: Chunks, id: string)
    requires |chunks| == |embeddings| == |fails| && Filed(authority) && ListsAuthority(chunks, authority) && Live(authority, id)
    requires forall i | 0 <= i < |chunks| :: Succeeds(parts, authority, RebuildDeliveries(chunks, embeddings, fails)[i])
    ensures Carried(parts, authority, AfterAll(parts, authority, index, RebuildDeliveries(chunks, embeddings, fails)), id)
  {
    var ds := RebuildDeliveries(chunks, embeddings, fails);
    var i :| 0 <= i < |chunks| && chunks[i].chunkID == id;
    assert ds[i] in ds;
    CarriedAfter(parts, authority, index, ds, id);
  }

  // ---- Classification downgrade ---------------------------------------------------------------------

  function PlanClassificationDowngrade(chunk: StoredChunk, newClassification: string): seq<Event> {
    var previous := TrimSpace(chunk.classification);
    [Event(0, SoftDelete, chunk.chunkID, map["classification" := previous]),
     Event(0, RebuildChunk, chunk.chunkID, map["document_id" := chunk.documentID, "previous_classification" := previous,
                                               "classification" := TrimSpace(newClassification)])]
  }

  /**
    The two events of a downgrade, both successful, leave a live chunk right in the order
    planned and missing in the other order.  Right means as the authority has it: what the
    payload announces as the new classification plays no part.
   */
  lemma {:induction false} DowngradeOrder(parts: Parts, authority: Chunks, index: Chunks, chunk: StoredChunk, newClassification: string,
                                          first: Delivery, second: Delivery)
    requires Filed(authority) && Live(authority, chunk.chunkID)
    requires [first.event, second.event] == PlanClassificationDowngrade(chunk, newClassification)
    requires Succeeds(parts, authority, first) && Succeeds(parts, authority, second)
    ensures var after := AfterAll(parts, authority, index, [first, second]);
      chunk.chunkID in after && SameState(after[chunk.chunkID], authority[chunk.chunkID])
    ensures chunk.chunkID !in AfterAll(parts, authority, index, [second, first])
  {
    var plan := PlanClassificationDowngrade(chunk, newClassification);
    assert first.event == plan[0] && second.event == plan[1];
    OneDelivery(parts, authority, AfterOne(parts, authority, index, first), second, chunk.chunkID);
    AfterOneMore(parts, authority, index, [first], second);
    AfterOneMore(parts, authority, index, [second], first);
    assert [first] + [second] == [first, second] && [second] + [first] == [second, first];
  }
}
