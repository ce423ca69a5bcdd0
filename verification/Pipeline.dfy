/** The whole way: sanitize a request, stream the answer back through the tail buffer. */
module Pipeline {
  import opened Text
  import opened Merge
  import opened Restore
  import opened Placeholders
  import opened Mapper
  import opened Processor
  import opened RoundTripExactness
  import opened Cuts
  import opened TailBuffer
  import opened StreamingExactness

  ghost predicate AllOpenFree(messages: seq<Message>) {
    forall i | 0 <= i < |messages| :: OpenFree(messages[i].content)
  }

  /** No message holds a placeholder of the request's final list. */
  ghost predicate AllUnambiguous(messages: seq<Message>, hits: seq<seq<Hit>>)
    requires |messages| == |hits|
  {
    forall i | 0 <= i < |messages| :: Unambiguous(Sanitized(messages, hits).0.mappings, messages[i].content)
  }

  // ---- Originals are parts of messages ---------------------------------------------------

  /** A property of texts that every part of a text shares with the whole. */
  ghost predicate Inherited(p: string -> bool) {
    forall text: string, i, j | 0 <= i <= j <= |text| && p(text) :: p(text[i..j])
  }

  ghost predicate AllHave(p: string -> bool, ms: seq<Entry>) {
    forall i | 0 <= i < |ms| :: p(ms[i].original)
  }

  lemma {:induction false} RewriteInherits(p: string -> bool, st: State, text: string, cursor: nat, hits: seq<Hit>, messageIndex: int, role: Role)
    requires cursor <= Bytes(text) && AllFromText(text, hits) && Inherited(p) && p(text) && AllHave(p, st.mappings)
    ensures AllHave(p, Rewrite(st, text, cursor, hits, messageIndex, role).0.mappings)
    decreases |hits|
  {
    if hits != [] {
      var h := hits[0];
      if Skipped(text, cursor, h) {
        RewriteInherits(p, st, text, cursor, hits[1..], messageIndex, role);
      } else {
        assert FromText(text, h);
        CharIndexMonotone(text, h.start, h.end);
        RewriteInherits(p, Record(st, h, messageIndex, role).0, text, h.end, hits[1..], messageIndex, role);
      }
    }
  }

  lemma {:induction false} SanitizeInherits(p: string -> bool, st: State, messages: seq<Message>, hits: seq<seq<Hit>>, i: nat)
    requires Recognized(messages, hits) && i <= |messages| && Inherited(p) && AllHave(p, st.mappings)
    requires forall k | 0 <= k < |messages| :: p(messages[k].content)
    ensures AllHave(p, SanitizeFrom(st, messages, hits, i).0.mappings)
    decreases |messages| - i
  {
    if i < |messages| {
      var text, sorted := messages[i].content, StableSort(hits[i], StartsBefore);
      SortKeeps(hits[i], StartsBefore);
      RewriteInherits(p, st, text, 0, sorted, i, messages[i].role);
      SanitizeInherits(p, Apply(st, text, hits[i], i, messages[i].role).0, messages, hits, i + 1);
    }
  }

  lemma OpenFreeInherited(p: string -> bool)
    requires forall s :: p(s) <==> OpenFree(s)
    ensures Inherited(p)
  {
  }

  lemma {:induction false} AbsentInPart(s: string, i: nat, j: nat, p: string)
    requires i <= j <= |s| && !Occurs(s, p)
    ensures !Occurs(s[i..j], p)
  {
    if k :| OccursAt(s[i..j], p, k) {
      OccursInPart(s, i, j, p, k);
    }
  }

  lemma {:induction false} OccursInPart(s: string, i: nat, j: nat, p: string, k: nat)
    requires i <= j <= |s| && OccursAt(s[i..j], p, k)
    ensures OccursAt(s, p, i + k)
  {
    assert s[i..j][k..] <= s[i + k..];
  }

  lemma {:induction false} UnambiguousInherited(p: string -> bool, final: seq<Entry>)
    requires forall s :: p(s) <==> Unambiguous(final, s)
    ensures Inherited(p)
  {
    forall text: string, i, j | 0 <= i <= j <= |text| && p(text)
      ensures p(text[i..j])
    {
      forall k | 0 <= k < |final|
        ensures !Occurs(text[i..j], final[k].placeholder)
      {
        AbsentInPart(text, i, j, final[k].placeholder);
      }
    }
  }

  /** Placeholders of the request are in no original when they are in no message. */
  lemma {:induction false} MappingsOfRequest(messages: seq<Message>, hits: seq<seq<Hit>>)
    requires Recognized(messages, hits) && AllUnambiguous(messages, hits)
    ensures WellFormed(Sanitized(messages, hits).0.mappings)
    ensures OriginalsInert(Sanitized(messages, hits).0.mappings)
  {
    var final := Sanitized(messages, hits).0.mappings;
    ListIsWellFormed(messages, hits);
    var p: string -> bool := s => Unambiguous(final, s);
    UnambiguousInherited(p, final);
    SanitizeInherits(p, EMPTY, messages, hits, 0);
  }

  lemma {:induction false} ListIsWellFormed(messages: seq<Message>, hits: seq<seq<Hit>>)
    requires |messages| == |hits|
    ensures WellFormed(Sanitized(messages, hits).0.mappings)
  {
    EmptyInv();
    SanitizeKeeps(EMPTY, messages, hits, 0);
    OneToOne(Sanitized(messages, hits).0);
  }

  /** The mapping list of a request whose messages hold no opening bracket. */
  lemma {:induction false} OpenFreeRequest(messages: seq<Message>, hits: seq<seq<Hit>>)
    requires Recognized(messages, hits) && AllOpenFree(messages)
    ensures AllUnambiguous(messages, hits) && OriginalsOpenFree(Sanitized(messages, hits).0.mappings)
  {
    var final := Sanitized(messages, hits).0.mappings;
    ListIsWellFormed(messages, hits);
    var p: string -> bool := s => OpenFree(s);
    OpenFreeInherited(p);
    SanitizeInherits(p, EMPTY, messages, hits, 0);
    forall i, k | 0 <= i < |messages| && 0 <= k < |final|
      ensures !Occurs(messages[i].content, final[k].placeholder)
    {
      OpenFreeAbsent(messages[i].content, final[k].placeholder);
    }
  }

  // ---- Sanitized messages do not nest brackets -------------------------------------------

  ghost predicate PlainOpenFree(ps: seq<Piece>) {
    forall i | 0 <= i < |ps| :: ps[i].Plain? ==> OpenFree(ps[i].text)
  }

  lemma {:induction false} RenderDoesNotNest(ms: seq<Entry>, ps: seq<Piece>)
    requires WellFormed(ms) && Indexed(ms, ps) && PlainOpenFree(ps)
    ensures NoNesting(Render(ms, ps, 0))
  {
    if ps != [] {
      RenderDoesNotNest(ms, ps[1..]);
      NoNestingConcat(Shown(ms, ps[0], 0), Render(ms, ps[1..], 0));
    }
  }

  lemma {:induction false} PlainFromFinal(ms: seq<Entry>, ps: seq<Piece>)
    requires Indexed(ms, ps) && OpenFree(Render(ms, ps, |ms|))
    ensures PlainOpenFree(ps)
  {
    if ps != [] {
      var x, y := Shown(ms, ps[0], |ms|), Render(ms, ps[1..], |ms|);
      assert forall c :: c in x || c in y ==> c in x + y;
      PlainFromFinal(ms, ps[1..]);
      assert forall i | 1 <= i < |ps| :: ps[i] == ps[1..][i - 1];
    }
  }

  lemma {:induction false} AppliedDoesNotNest(st: State, text: string, hits: seq<Hit>, messageIndex: int, role: Role)
    requires Inv(st) && AllFromText(text, hits) && OpenFree(text)
    ensures NoNesting(Apply(st, text, hits, messageIndex, role).1)
  {
    if hits != [] {
      var sorted := StableSort(hits, StartsBefore);
      var next := Apply(st, text, hits, messageIndex, role).0;
      SortKeeps(hits, StartsBefore);
      ApplyKeeps(st, text, hits, messageIndex, role);
      var ps := RewritePieces(st, text, 0, sorted, messageIndex, role, next.mappings);
      SliceWhole(text);
      OneToOne(next);
      PlainFromFinal(next.mappings, ps);
      RenderDoesNotNest(next.mappings, ps);
    }
  }

  lemma {:induction false} SanitizedDoesNotNest(st: State, messages: seq<Message>, hits: seq<seq<Hit>>, i: nat, k: nat)
    requires i <= k < |messages| && Recognized(messages, hits) && Inv(st) && AllOpenFree(messages)
    ensures NoNesting(SanitizeFrom(st, messages, hits, i).1[k - i].content)
    decreases |messages| - i
  {
    var text := messages[i].content;
    ApplyKeeps(st, text, hits[i], i, messages[i].role);
    if i == k {
      AppliedDoesNotNest(st, text, hits[i], i, messages[i].role);
    } else {
      SanitizedDoesNotNest(Apply(st, text, hits[i], i, messages[i].role).0, messages, hits, i + 1, k);
    }
  }

  // ---- Main results ------------------------------------------------------------------------

  /**
    What a client reads of any stream is what it would get at once: for every answer when
    assembly does no harm in the request's mapping list, and otherwise for requests without
    opening brackets and answers that do not nest them.
   */
  lemma {:induction false} RequestStreams(messages: seq<Message>, hits: seq<seq<Hit>>, upstream: seq<Event>)
    requires |messages| == |hits| && DoneIsLast(upstream)
    requires HarmlessAssembly(Sanitized(messages, hits).0.mappings)
          || (Recognized(messages, hits) && AllOpenFree(messages) && NoNesting(DeltaText(upstream)))
    ensures var ms := Sanitized(messages, hits).0.mappings;
            DeltaText(Delivered(ms, "", upstream)) == RestoreAll(ms, DeltaText(upstream))
  {
    ListIsWellFormed(messages, hits);
    if !HarmlessAssembly(Sanitized(messages, hits).0.mappings) {
      OpenFreeRequest(messages, hits);
    }
    var text := DeltaText(upstream);
    assert "" + text == text;
    StreamEqualsBatch(Sanitized(messages, hits).0.mappings, "", upstream);
  }

  /**
    For every request: all answers stream as they would come at once if and only if assembly
    does no harm; if no message spells a placeholder of the request, that is if and only if
    no original is a fragment of a placeholder restored after it.
   */
  lemma {:induction false} RequestStreamsExactly(messages: seq<Message>, hits: seq<seq<Hit>>)
    requires |messages| == |hits|
    ensures var ms := Sanitized(messages, hits).0.mappings;
      && (HarmlessAssembly(ms) <==> forall upstream: seq<Event> :: StreamsAsBatch(ms, upstream))
      && (Recognized(messages, hits) && AllUnambiguous(messages, hits) ==> (HarmlessAssembly(ms) <==> NoAssembly(ms)))
  {
    var ms := Sanitized(messages, hits).0.mappings;
    ListIsWellFormed(messages, hits);
    StreamingExact(ms);
    if Recognized(messages, hits) && AllUnambiguous(messages, hits) {
      MappingsOfRequest(messages, hits);
      InertHarmless(ms);
    }
  }

  /**
    Echo: when the model streams a sanitized message back, in whatever deltas, the client
    reads the original message, whatever originals the mapping list holds.
   */
  lemma {:induction false} EchoComesBack(messages: seq<Message>, hits: seq<seq<Hit>>, k: nat, upstream: seq<Event>)
    requires Recognized(messages, hits) && AllOpenFree(messages) && k < |messages|
    requires DoneIsLast(upstream)
    requires DeltaText(upstream) == Sanitized(messages, hits).1[k].content
    ensures DeltaText(Delivered(Sanitized(messages, hits).0.mappings, "", upstream)) == messages[k].content
  {
    EmptyInv();
    SanitizedDoesNotNest(EMPTY, messages, hits, 0, k);
    OpenFreeRequest(messages, hits);
    RequestStreams(messages, hits, upstream);
    OpenFreeComesBack(messages[k].content);
    assert ComesBack(messages, hits, k);
  }

  // ---- Where the hypotheses matter ---------------------------------------------------------

  /** A text that is one hit as a whole. */
  function WholeHit(text: string, t: EntityType): Hit {
    Hit(0, Bytes(text), text, t, Dictionary)
  }

  lemma {:induction false} ApplyWholeHit(st: State, text: string, t: EntityType, i: nat)
    requires Bytes(text) > 0
    ensures Apply(st, text, [WholeHit(text, t)], i, NoRole).0.mappings == Intern(st, WholeHit(text, t)).0.mappings
    ensures AllFromText(text, [WholeHit(text, t)])
  {
    ApplyWhole(st, text, WholeHit(text, t), i, NoRole);
    SliceWhole(text);
  }

  function NameOf(t: EntityType, text: string): Entry {
    Mapping(PlaceholderFor(t, 1), text, EntityInfo(t, Dictionary))
  }

  /** A request of two messages, each one entity as a whole, of different types. */
  lemma {:induction false} TwoWholeHits(a: string, t: EntityType, b: string, u: EntityType)
    requires Bytes(a) > 0 && Bytes(b) > 0 && t != u
    ensures var messages, hits := [Message(NoRole, a), Message(NoRole, b)], [[WholeHit(a, t)], [WholeHit(b, u)]];
      Recognized(messages, hits) && Sanitized(messages, hits).0.mappings == [NameOf(t, a), NameOf(u, b)]
  {
    var messages, hits := [Message(NoRole, a), Message(NoRole, b)], [[WholeHit(a, t)], [WholeHit(b, u)]];
    var st1 := Apply(EMPTY, a, hits[0], 0, NoRole).0;
    EmptyInv();
    ApplyWholeHit(EMPTY, a, t, 0);
    ApplyKeeps(EMPTY, a, hits[0], 0, NoRole);
    assert st1.mappings == [NameOf(t, a)];
    SecondIsNew(st1, a, t, b, u);
    ApplyWholeHit(st1, b, u, 1);
    SanitizeSplits(EMPTY, messages, hits, 0);
    SanitizeSplits(st1, messages, hits, 1);
  }

  lemma {:induction false} SecondIsNew(st: State, a: string, t: EntityType, b: string, u: EntityType)
    requires Inv(st) && st.mappings == [NameOf(t, a)] && t != u
    ensures Intern(st, WholeHit(b, u)).0.mappings == [NameOf(t, a), NameOf(u, b)]
  {
    var key := Key(u, b);
    if key in st.byOriginal {
      assert st.byOriginal[key] == NameOf(t, a);
      KeyInjective(t, a, u, b);
    }
    assert Numbered([NameOf(t, a)], u) == 0 by {
      assert [NameOf(t, a)][..0] == [];
    }
    assert Count(st, u) == 0;
  }

  /**
    A request with the project code "01" in one message and the person "5" in the next: the
    code, mapped first, is a fragment of the person's placeholder, and some answer streams
    as something else than it would come at once.
   */
  lemma {:induction false} StreamingCanDiffer() returns (messages: seq<Message>, hits: seq<seq<Hit>>, upstream: seq<Event>)
    ensures Recognized(messages, hits) && AllOpenFree(messages)
    ensures !StreamsAsBatch(Sanitized(messages, hits).0.mappings, upstream)
  {
    messages := [Message(NoRole, "01"), Message(NoRole, "5")];
    hits := [[WholeHit("01", ProjectCode)], [WholeHit("5", Person)]];
    assert Bytes("01") >= Utf8Len('0') && Bytes("5") >= Utf8Len('5');
    TwoWholeHits("01", ProjectCode, "5", Person);
    OpenFreeRequest(messages, hits);
    MappingsOfRequest(messages, hits);
    var name, ms := PlaceholderType(Person), Sanitized(messages, hits).0.mappings;
    assert Pad2(1) == "01" && Index("01", CLOSE) == -1;
    FragmentOfNumber(name, "01");
    assert Continues("01", PlaceholderFor(Person, 1), 2 + |name|);
    InertNeverSelf(ms, 1);
    upstream := AssemblyBreaksStreaming(ms, 0, 1);
  }

  lemma {:induction false} FragmentOfNumber(name: string, digits: string)
    ensures OccursAt([OPEN] + name + "_" + digits + [CLOSE], digits, 2 + |name|)
  {
    var p := [OPEN] + name + "_" + digits + [CLOSE];
    assert p[2 + |name|..] == digits + [CLOSE];
  }

  /** A message that literally reads "〖PERSON_01〗" does not survive every request. */
  lemma {:induction false} LiteralPlaceholderIsLost()
    ensures !AlwaysComesBack(PlaceholderFor(Person, 1))
  {
    var text := PlaceholderFor(Person, 1);
    assert text[0..] == text;
    assert OccursAt(text, PlaceholderFor(Person, 1), 0);
    assert Occurs(text, PlaceholderFor(Person, 1));
    RoundTripExact(text);
  }
}
