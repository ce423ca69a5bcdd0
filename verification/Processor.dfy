/** Sanitizing the messages of a request with one shared mapper, and getting them back. */
module Processor {
  import opened Text
  import opened Merge
  import opened Restore
  import opened Mapper

  datatype Message = Message(role: Role, content: string)

  datatype MessageDiff = MessageDiff(messageIndex: int, role: Role, before: string, after: string, changed: bool)

  datatype SanitizationResult = SanitizationResult(text: string, mappings: seq<Entry>, matches: seq<MatchDetail>,
                                                   messageDiffs: seq<MessageDiff>)

  function JoinedMessages(messages: seq<Message>): string {
    if messages == [] then "" else JoinedMessages(messages[..|messages| - 1]) + messages[|messages| - 1].content
  }

  // ---- One text -----------------------------------------------------------------------

  /** Recognizers report the text of the span they report. */
  ghost predicate FromText(text: string, h: Hit) {
    0 <= h.start <= h.end <= Bytes(text) ==> h.text == Slice(text, h.start, h.end)
  }

  ghost predicate AllFromText(text: string, hits: seq<Hit>) {
    forall h | h in hits :: FromText(text, h)
  }

  lemma {:induction false} RewriteKeeps(st: State, text: string, cursor: nat, hits: seq<Hit>, messageIndex: int, role: Role)
    requires Inv(st) && cursor <= Bytes(text)
    ensures var next := Rewrite(st, text, cursor, hits, messageIndex, role).0;
            Inv(next) && st.mappings <= next.mappings
    decreases |hits|
  {
    if hits != [] {
      var h := hits[0];
      if Skipped(text, cursor, h) {
        RewriteKeeps(st, text, cursor, hits[1..], messageIndex, role);
      } else {
        InternKeeps(st, h);
        var st1 := Record(st, h, messageIndex, role).0;
        RewriteKeeps(st1, text, h.end, hits[1..], messageIndex, role);
      }
    }
  }

  lemma {:induction false} ApplyKeeps(st: State, text: string, hits: seq<Hit>, messageIndex: int, role: Role)
    requires Inv(st)
    ensures var next := Apply(st, text, hits, messageIndex, role).0;
            Inv(next) && st.mappings <= next.mappings
  {
    if hits != [] {
      RewriteKeeps(st, text, 0, StableSort(hits, StartsBefore), messageIndex, role);
    }
  }

  lemma {:induction false} RenderTwo(ms: seq<Entry>, clear: string, i: nat, ps: seq<Piece>, k: nat)
    requires i < |ms| && Indexed(ms, ps)
    ensures Indexed(ms, [Plain(clear), Token(i)] + ps)
    ensures Render(ms, [Plain(clear), Token(i)] + ps, k) == clear + (Shown(ms, Token(i), k) + Render(ms, ps, k))
  {
    var all := [Plain(clear), Token(i)] + ps;
    assert all[1..][1..] == ps && all[1..][0] == Token(i);
  }

  lemma {:induction false} AddHit(text: string, cursor: nat, h: Hit, ms: seq<Entry>, i: nat, rest: seq<Piece>)
    returns (ps: seq<Piece>)
    requires cursor <= h.start < h.end <= Bytes(text)
    requires i < |ms| && ms[i].original == Slice(text, h.start, h.end)
    requires Indexed(ms, rest) && Render(ms, rest, |ms|) == Slice(text, h.end, Bytes(text))
    ensures Indexed(ms, ps)
    ensures Render(ms, ps, 0) == Slice(text, cursor, h.start) + (ms[i].placeholder + Render(ms, rest, 0))
    ensures Render(ms, ps, |ms|) == Slice(text, cursor, Bytes(text))
  {
    var clear := Slice(text, cursor, h.start);
    ps := [Plain(clear), Token(i)] + rest;
    RenderTwo(ms, clear, i, rest, 0);
    RenderTwo(ms, clear, i, rest, |ms|);
    SliceJoins(text, h.start, h.end, Bytes(text));
    SliceJoins(text, cursor, h.start, Bytes(text));
  }

  lemma {:induction false} RecordKeeps(st: State, h: Hit, messageIndex: int, role: Role) returns (i: nat)
    requires Inv(st)
    ensures var (next, e) := Record(st, h, messageIndex, role);
            && Inv(next) && st.mappings <= next.mappings
            && i < |next.mappings| && next.mappings[i] == e && e.original == h.text
  {
    InternKeeps(st, h);
    var (next, e) := Record(st, h, messageIndex, role);
    i :| 0 <= i < |next.mappings| && next.mappings[i] == e;
  }

  /** The rewritten text as pieces over any later mapping list. */
  lemma {:induction false} RewritePieces(st: State, text: string, cursor: nat, hits: seq<Hit>, messageIndex: int, role: Role,
                                         ms: seq<Entry>) returns (ps: seq<Piece>)
    requires Inv(st) && cursor <= Bytes(text) && AllFromText(text, hits)
    requires Rewrite(st, text, cursor, hits, messageIndex, role).0.mappings <= ms
    ensures Indexed(ms, ps)
    ensures Render(ms, ps, 0) == Rewrite(st, text, cursor, hits, messageIndex, role).1
    ensures Render(ms, ps, |ms|) == Slice(text, cursor, Bytes(text))
    decreases |hits|
  {
    if hits == [] {
      ps := [Plain(Slice(text, cursor, Bytes(text)))];
      assert ps[1..] == [] && ps[0].text + "" == ps[0].text;
    } else {
      var h := hits[0];
      if Skipped(text, cursor, h) {
        ps := RewritePieces(st, text, cursor, hits[1..], messageIndex, role, ms);
      } else {
        var i := RecordKeeps(st, h, messageIndex, role);
        var (st1, e) := Record(st, h, messageIndex, role);
        RewriteKeeps(st1, text, h.end, hits[1..], messageIndex, role);
        assert ms[i] == e && FromText(text, h);
        var rest := RewritePieces(st1, text, h.end, hits[1..], messageIndex, role, ms);
        ps := AddHit(text, cursor, h, ms, i, rest);
      }
    }
  }

  ghost predicate Unambiguous(ms: seq<Entry>, text: string) {
    forall k | 0 <= k < |ms| :: !Occurs(text, ms[k].placeholder)
  }

  /** Restoring a sanitized text with any later mapping list gives the text back. */
  lemma {:induction false} ApplyRoundTrip(st: State, text: string, hits: seq<Hit>, messageIndex: int, role: Role, ms: seq<Entry>)
    requires Inv(st) && AllFromText(text, hits)
    requires WellFormed(ms) && Apply(st, text, hits, messageIndex, role).0.mappings <= ms
    requires Unambiguous(ms, text)
    ensures RestoreAll(ms, Apply(st, text, hits, messageIndex, role).1) == text
  {
    var ps;
    if hits == [] {
      ps := [Plain(text)];
      assert ps[1..] == [] && text + "" == text;
    } else {
      var sorted := StableSort(hits, StartsBefore);
      SortKeeps(hits, StartsBefore);
      ps := RewritePieces(st, text, 0, sorted, messageIndex, role, ms);
      SliceWhole(text);
    }
    RoundTrip(ms, ps);
  }

  // ---- All messages of a request --------------------------------------------------------

  /** Messages from index `i` on, sanitized one after the other. */
  function SanitizeFrom(st: State, messages: seq<Message>, hits: seq<seq<Hit>>, i: nat): (r: (State, seq<Message>))
    requires i <= |messages| == |hits|
    ensures |r.1| == |messages| - i
    decreases |messages| - i
  {
    if i == |messages| then (st, [])
    else
      var (st1, text) := Apply(st, messages[i].content, hits[i], i, messages[i].role);
      var (st2, rest) := SanitizeFrom(st1, messages, hits, i + 1);
      (st2, [Message(messages[i].role, text)] + rest)
  }

  lemma {:induction false} SanitizeKeeps(st: State, messages: seq<Message>, hits: seq<seq<Hit>>, i: nat)
    requires i <= |messages| == |hits| && Inv(st)
    ensures var next := SanitizeFrom(st, messages, hits, i).0;
            Inv(next) && st.mappings <= next.mappings
    decreases |messages| - i
  {
    if i < |messages| {
      ApplyKeeps(st, messages[i].content, hits[i], i, messages[i].role);
      SanitizeKeeps(Apply(st, messages[i].content, hits[i], i, messages[i].role).0, messages, hits, i + 1);
    }
  }

  lemma EmptyInv()
    ensures Inv(EMPTY)
  {
  }

  ghost predicate Recognized(messages: seq<Message>, hits: seq<seq<Hit>>) {
    |messages| == |hits| && forall i | 0 <= i < |messages| :: AllFromText(messages[i].content, hits[i])
  }

  /** Sanitizing from `i` on is sanitizing message `i` and then the others. */
  lemma SanitizeSplits(st: State, messages: seq<Message>, hits: seq<seq<Hit>>, i: nat)
    requires i < |messages| == |hits|
    ensures var (st1, text) := Apply(st, messages[i].content, hits[i], i, messages[i].role);
            var (last, rest) := SanitizeFrom(st1, messages, hits, i + 1);
            SanitizeFrom(st, messages, hits, i) == (last, [Message(messages[i].role, text)] + rest)
  {
  }

  ghost predicate RestoresTo(ms: seq<Entry>, m: Message, original: Message) {
    m.role == original.role && RestoreAll(ms, m.content) == original.content
  }

  lemma {:induction false} FirstRoundTrip(st: State, messages: seq<Message>, hits: seq<seq<Hit>>, i: nat, ms: seq<Entry>)
    requires i < |messages| && Recognized(messages, hits) && Inv(st) && WellFormed(ms)
    requires Apply(st, messages[i].content, hits[i], i, messages[i].role).0.mappings <= ms
    requires Unambiguous(ms, messages[i].content)
    ensures RestoresTo(ms, SanitizeFrom(st, messages, hits, i).1[0], messages[i])
  {
    SanitizeSplits(st, messages, hits, i);
    ApplyRoundTrip(st, messages[i].content, hits[i], i, messages[i].role, ms);
  }

  lemma PrefixChain(a: seq<Entry>, b: seq<Entry>, c: seq<Entry>)
    requires a <= b <= c
    ensures a <= c
  {
  }

  lemma {:induction false} SanitizeRoundTrip(st: State, messages: seq<Message>, hits: seq<seq<Hit>>, i: nat, k: nat, ms: seq<Entry>)
    requires i <= k < |messages| && Recognized(messages, hits) && Inv(st)
    requires WellFormed(ms) && SanitizeFrom(st, messages, hits, i).0.mappings <= ms
    requires Unambiguous(ms, messages[k].content)
    ensures RestoresTo(ms, SanitizeFrom(st, messages, hits, i).1[k - i], messages[k])
    decreases |messages| - i
  {
    var m := messages[i];
    var st1 := Apply(st, m.content, hits[i], i, m.role).0;
    var last := SanitizeFrom(st, messages, hits, i).0;
    SanitizeSplits(st, messages, hits, i);
    ApplyKeeps(st, m.content, hits[i], i, m.role);
    if i == k {
      SanitizeKeeps(st1, messages, hits, i + 1);
      PrefixChain(st1.mappings, last.mappings, ms);
      FirstRoundTrip(st, messages, hits, i, ms);
    } else {
      SanitizeRoundTrip(st1, messages, hits, i + 1, k, ms);
      assert SanitizeFrom(st, messages, hits, i).1[k - i] == SanitizeFrom(st1, messages, hits, i + 1).1[k - i - 1];
    }
  }

  /** The mapping list and the messages that leave for the model. */
  function Sanitized(messages: seq<Message>, hits: seq<seq<Hit>>): (State, seq<Message>)
    requires |messages| == |hits|
  {
    SanitizeFrom(EMPTY, messages, hits, 0)
  }

  ghost predicate ComesBack(messages: seq<Message>, hits: seq<seq<Hit>>, k: nat)
    requires k < |messages| == |hits|
  {
    var (st, out) := Sanitized(messages, hits);
    RestoresTo(st.mappings, out[k], messages[k])
  }

  /**
    Round trip across messages: a message in which no placeholder of the request's final
    list occurs comes back exactly, mappings added by later messages included.
   */
  lemma {:induction false} MessageRoundTrip(messages: seq<Message>, hits: seq<seq<Hit>>, k: nat)
    requires Recognized(messages, hits) && k < |messages|
    requires Unambiguous(Sanitized(messages, hits).0.mappings, messages[k].content)
    ensures ComesBack(messages, hits, k)
  {
    var final := Sanitized(messages, hits).0;
    EmptyInv();
    SanitizeKeeps(EMPTY, messages, hits, 0);
    OneToOne(final);
    SanitizeRoundTrip(EMPTY, messages, hits, 0, k, final.mappings);
  }

  // ---- Merged hits are all applied -------------------------------------------------------

  /** The text from `cursor` on with each span replaced by its name, everything else kept. */
  ghost function Spliced(text: string, cursor: nat, hits: seq<Hit>, names: seq<string>): string
    requires |hits| == |names| && cursor <= Bytes(text)
    requires InRange(text, cursor, hits)
    decreases |hits|
  {
    if hits == [] then Slice(text, cursor, Bytes(text))
    else Slice(text, cursor, hits[0].start) + (names[0] + Spliced(text, hits[0].end, hits[1..], names[1..]))
  }

  ghost predicate InRange(text: string, cursor: nat, hits: seq<Hit>) {
    && Disjoint(hits)
    && (hits != [] ==> cursor <= hits[0].start)
    && forall i | 0 <= i < |hits| :: hits[i].end <= Bytes(text)
  }

  ghost function Names(matches: seq<MatchDetail>): seq<string> {
    seq(|matches|, i requires 0 <= i < |matches| => matches[i].placeholder)
  }

  ghost predicate Details(matches: seq<MatchDetail>, hits: seq<Hit>, messageIndex: int, role: Role) {
    |matches| == |hits| && forall i | 0 <= i < |hits| ::
      matches[i] == MatchDetail(hits[i].text, hits[i].entityType, hits[i].source, hits[i].start, hits[i].end,
                                matches[i].placeholder, messageIndex, role)
  }

  lemma {:induction false} RewriteSkipsNothing(st: State, text: string, cursor: nat, hits: seq<Hit>, messageIndex: int, role: Role)
    returns (added: seq<MatchDetail>)
    requires cursor <= Bytes(text) && InRange(text, cursor, hits)
    ensures Details(added, hits, messageIndex, role)
    ensures Rewrite(st, text, cursor, hits, messageIndex, role).0.matches == st.matches + added
    ensures Rewrite(st, text, cursor, hits, messageIndex, role).1 == Spliced(text, cursor, hits, Names(added))
    decreases |hits|
  {
    if hits == [] {
      added := [];
    } else {
      var h := hits[0];
      assert h.Nonempty() && h.end <= Bytes(text);
      assert |hits| > 1 ==> hits[1..][0] == hits[1];
      var (st1, e) := Record(st, h, messageIndex, role);
      var rest := RewriteSkipsNothing(st1, text, h.end, hits[1..], messageIndex, role);
      var d := Detail(h, e, messageIndex, role);
      added := [d] + rest;
      DetailsCons(d, rest, hits, messageIndex, role);
      ConcatAssoc(st.matches, [d], rest);
    }
  }

  lemma {:induction false} DetailsCons(d: MatchDetail, rest: seq<MatchDetail>, hits: seq<Hit>, messageIndex: int, role: Role)
    requires hits != [] && Details(rest, hits[1..], messageIndex, role) && Details([d], hits[..1], messageIndex, role)
    ensures Details([d] + rest, hits, messageIndex, role)
    ensures Names([d] + rest)[0] == d.placeholder && Names([d] + rest)[1..] == Names(rest)
  {
    assert forall i | 1 <= i < |hits| :: hits[i] == hits[1..][i - 1];
  }

  /**
    For the hits a recognizer run leaves after merging, nothing is skipped: the output is
    the input with every merged span replaced, and the match details list them in order.
   */
  lemma {:induction false} MergeThenApply(st: State, text: string, found: seq<Hit>, messageIndex: int, role: Role)
    returns (added: seq<MatchDetail>)
    requires forall h | h in found :: 0 <= h.start && h.end <= Bytes(text)
    ensures InRange(text, 0, Merged(found)) && Details(added, Merged(found), messageIndex, role)
    ensures Apply(st, text, Merged(found), messageIndex, role).0.matches == st.matches + added
    ensures Apply(st, text, Merged(found), messageIndex, role).1 == Spliced(text, 0, Merged(found), Names(added))
  {
    var hits := Merged(found);
    MergedDisjoint(found);
    MergedFromInput(found);
    forall i | 0 <= i < |hits|
      ensures 0 <= hits[i].start && hits[i].end <= Bytes(text)
    {
      assert hits[i] in hits;
    }
    forall i, j | 0 <= i < j < |hits|
      ensures hits[i].start < hits[j].start
    {
      assert hits[i].Nonempty();
    }
    SortFixes(hits, StartsBefore);
    added := RewriteSkipsNothing(st, text, 0, hits, messageIndex, role);
    SliceWhole(text);
  }

  // ---- The processor ---------------------------------------------------------------------

  datatype NerError = Unavailable | CircuitOpen | OtherNerError
  datatype NerReply = Found(hits: seq<Hit>) | Failed(error: NerError)

  predicate Answers(ner: NerReply, hasNer: bool) {
    hasNer ==> ner.Found?
  }

  /** The hits used for one message; without an NER client its reply is not looked at. */
  function RecognizeAll(found: seq<Hit>, ner: NerReply, hasNer: bool): seq<Hit> {
    if hasNer && ner.Found? then Merged(Merged(found) + ner.hits) else Merged(found)
  }

  function HitsFor(found: seq<seq<Hit>>, ner: seq<NerReply>, hasNer: bool): seq<seq<Hit>>
    requires |found| == |ner|
  {
    seq(|found|, i requires 0 <= i < |found| => RecognizeAll(found[i], ner[i], hasNer))
  }

  function DiffOf(index: nat, before: Message, after: Message): MessageDiff {
    MessageDiff(index, after.role, before.content, after.content, before.content != after.content)
  }

  datatype Outcome = Processed(messages: seq<Message>, result: SanitizationResult) | NerFailed(error: NerError)

  method RecognizeWithNER(found: seq<Hit>, ner: NerReply, hasNer: bool) returns (r: NerReply)
    ensures !Answers(ner, hasNer) ==> r == ner
    ensures Answers(ner, hasNer) ==> r == Found(RecognizeAll(found, ner, hasNer))
  {
    var hits := MergeHits(found);
    if !hasNer {
      return Found(hits);
    }
    if ner.Failed? {
      return ner;
    }
    hits := MergeHits(hits + ner.hits);
    return Found(hits);
  }

  ghost predicate FailsFirstAt(ner: seq<NerReply>, i: int, error: NerError) {
    0 <= i < |ner| && ner[i] == Failed(error) && forall k | 0 <= k < i :: ner[k].Found?
  }

  ghost predicate AnsweredUpTo(ner: seq<NerReply>, hasNer: bool, n: nat) {
    n <= |ner| && forall k | 0 <= k < n :: Answers(ner[k], hasNer)
  }

  lemma AnsweredNext(ner: seq<NerReply>, hasNer: bool, n: nat)
    requires n < |ner| && AnsweredUpTo(ner, hasNer, n)
    ensures Answers(ner[n], hasNer) ==> AnsweredUpTo(ner, hasNer, n + 1)
    ensures !Answers(ner[n], hasNer) ==> hasNer && FailsFirstAt(ner, n, ner[n].error)
  {
  }

  /** One difference per message, in order. */
  ghost predicate DiffsOf(diffs: seq<MessageDiff>, messages: seq<Message>, out: seq<Message>) {
    |diffs| == |out| <= |messages| && forall k | 0 <= k < |out| :: diffs[k] == DiffOf(k, messages[k], out[k])
  }

  /** One turn of the loop: recognize, rewrite with the shared mapper, note the difference. */
  method SanitizeOne(mapper: PlaceholderMapper, i: nat, m: Message, found: seq<Hit>, ner: NerReply, hasNer: bool)
    returns (reply: NerReply, after: Message, diff: MessageDiff)
    modifies mapper
    ensures !Answers(ner, hasNer) ==> reply == ner && reply.Failed?
    ensures Answers(ner, hasNer) ==>
      && reply.Found?
      && var (st, text) := Apply(old(mapper.View()), m.content, RecognizeAll(found, ner, hasNer), i, m.role);
      mapper.View() == st && after == Message(m.role, text) && diff == DiffOf(i, m, after)
  {
    reply := RecognizeWithNER(found, ner, hasNer);
    after := m;
    if reply.Found? {
      var content := mapper.ApplyWithMessageContext(m.content, reply.hits, i, m.role);
      after := Message(m.role, content);
    }
    diff := DiffOf(i, m, after);
  }

  lemma {:induction false} SanitizeStep(st: State, messages: seq<Message>, hits: seq<seq<Hit>>, i: nat, out: seq<Message>)
    requires i < |messages| == |hits|
    ensures var (st1, text) := Apply(st, messages[i].content, hits[i], i, messages[i].role);
            var (last, rest) := SanitizeFrom(st1, messages, hits, i + 1);
            SanitizeFrom(st, messages, hits, i).0 == last
            && out + SanitizeFrom(st, messages, hits, i).1 == (out + [Message(messages[i].role, text)]) + rest
  {
    var (st1, text) := Apply(st, messages[i].content, hits[i], i, messages[i].role);
    ConcatAssoc(out, [Message(messages[i].role, text)], SanitizeFrom(st1, messages, hits, i + 1).1);
  }

  /** The first `i` messages are done; what is left to do from the mapper's state completes the whole. */
  ghost predicate Underway(st: State, messages: seq<Message>, hits: seq<seq<Hit>>, i: nat, out: seq<Message>, diffs: seq<MessageDiff>,
                           start: State)
    requires |messages| == |hits|
  {
    && i <= |messages| && |out| == i && DiffsOf(diffs, messages, out)
    && SanitizeFrom(st, messages, hits, i).0 == SanitizeFrom(start, messages, hits, 0).0
    && out + SanitizeFrom(st, messages, hits, i).1 == SanitizeFrom(start, messages, hits, 0).1
  }

  lemma {:induction false} UnderwayStart(messages: seq<Message>, hits: seq<seq<Hit>>, start: State)
    requires |messages| == |hits|
    ensures Underway(start, messages, hits, 0, [], [], start)
  {
    var all := SanitizeFrom(start, messages, hits, 0).1;
    assert [] + all == all;
  }

  lemma {:induction false} UnderwayStep(st: State, messages: seq<Message>, hits: seq<seq<Hit>>, i: nat, out: seq<Message>,
                                        diffs: seq<MessageDiff>, start: State, after: Message, diff: MessageDiff)
    requires |messages| == |hits| && i < |messages| && Underway(st, messages, hits, i, out, diffs, start)
    requires after == Message(messages[i].role, Apply(st, messages[i].content, hits[i], i, messages[i].role).1)
    requires diff == DiffOf(i, messages[i], after)
    ensures Underway(Apply(st, messages[i].content, hits[i], i, messages[i].role).0, messages, hits, i + 1, out + [after], diffs + [diff], start)
  {
    SanitizeStep(st, messages, hits, i, out);
  }

  lemma {:induction false} UnderwayEnd(st: State, messages: seq<Message>, hits: seq<seq<Hit>>, out: seq<Message>, diffs: seq<MessageDiff>, start: State)
    requires |messages| == |hits| && Underway(st, messages, hits, |messages|, out, diffs, start)
    ensures (st, out) == SanitizeFrom(start, messages, hits, 0)
  {
    assert out + [] == out;
  }

  /** The loop over the messages of a request, from any state of the mapper. */
  method SanitizeEach(mapper: PlaceholderMapper, messages: seq<Message>, found: seq<seq<Hit>>, ner: seq<NerReply>, hasNer: bool,
                      ghost hits: seq<seq<Hit>>)
    returns (failure: NerReply, out: seq<Message>, diffs: seq<MessageDiff>, ghost at: nat)
    requires |messages| == |found| == |ner| == |hits|
    requires forall k | 0 <= k < |hits| :: hits[k] == RecognizeAll(found[k], ner[k], hasNer)
    modifies mapper
    ensures failure.Failed? ==> hasNer && FailsFirstAt(ner, at, failure.error)
    ensures failure.Found? ==>
      && AnsweredUpTo(ner, hasNer, |ner|)
      && (mapper.View(), out) == SanitizeFrom(old(mapper.View()), messages, hits, 0)
      && DiffsOf(diffs, messages, out)
  {
    out, diffs, at, failure := [], [], 0, Found([]);
    ghost var start := mapper.View();
    UnderwayStart(messages, hits, start);
    for i := 0 to |messages|
      invariant failure.Found? && Underway(mapper.View(), messages, hits, i, out, diffs, start)
      invariant AnsweredUpTo(ner, hasNer, i)
    {
      ghost var st := mapper.View();
      AnsweredNext(ner, hasNer, i);
      var reply, after, diff := SanitizeOne(mapper, i, messages[i], found[i], ner[i], hasNer);
      if reply.Failed? {
        failure, at := reply, i;
        return;
      }
      UnderwayStep(st, messages, hits, i, out, diffs, start, after, diff);
      out, diffs := out + [after], diffs + [diff];
    }
    UnderwayEnd(mapper.View(), messages, hits, out, diffs, start);
  }

  /** What the processor answers when every recognizer answers: one mapper, one difference per message. */
  ghost predicate IsProcessed(messages: seq<Message>, found: seq<seq<Hit>>, ner: seq<NerReply>, hasNer: bool, r: Outcome)
    requires |messages| == |found| == |ner|
  {
    && r.Processed?
    && var (st, out) := Sanitized(messages, HitsFor(found, ner, hasNer));
    && r.messages == out && DiffsOf(r.result.messageDiffs, messages, out)
    && r.result.text == JoinedMessages(out)
    && r.result.mappings == st.mappings && r.result.matches == st.matches
  }

  /** `found[i]` and `ner[i]` are what the recognizers answer for message `i`. */
  method SanitizeMessagesContext(messages: seq<Message>, found: seq<seq<Hit>>, ner: seq<NerReply>, hasNer: bool)
    returns (r: Outcome, ghost at: nat)
    requires |messages| == |found| == |ner|
    ensures r.NerFailed? ==> hasNer && FailsFirstAt(ner, at, r.error)
    ensures r.Processed? ==> AnsweredUpTo(ner, hasNer, |ner|) && IsProcessed(messages, found, ner, hasNer, r)
  {
    var mapper := new PlaceholderMapper();
    var failure, out, diffs;
    failure, out, diffs, at := SanitizeEach(mapper, messages, found, ner, hasNer, HitsFor(found, ner, hasNer));
    if failure.Failed? {
      return NerFailed(failure.error), at;
    }
    r := Processed(out, SanitizationResult(JoinedMessages(out), mapper.mappings, mapper.matches, diffs));
  }

  // ---- The processor's result comes back --------------------------------------------------

  /** Regular expressions, dictionary and NER report text of the message they were given. */
  ghost predicate AnswersFromText(messages: seq<Message>, found: seq<seq<Hit>>, ner: seq<NerReply>) {
    && |messages| == |found| == |ner|
    && (forall i | 0 <= i < |messages| :: AllFromText(messages[i].content, found[i]))
    && (forall i | 0 <= i < |messages| && ner[i].Found? :: AllFromText(messages[i].content, ner[i].hits))
  }

  lemma {:induction false} MergedFromText(text: string, hits: seq<Hit>)
    requires AllFromText(text, hits)
    ensures AllFromText(text, Merged(hits))
  {
    MergedFromInput(hits);
    forall h | h in Merged(hits)
      ensures FromText(text, h)
    {
      assert multiset(Merged(hits))[h] <= multiset(hits)[h];
      assert h in hits;
    }
  }

  /** Merging keeps to the hits reported, so the round trip applies to what the processor uses. */
  lemma {:induction false} UsedHitsFromText(messages: seq<Message>, found: seq<seq<Hit>>, ner: seq<NerReply>, hasNer: bool)
    requires AnswersFromText(messages, found, ner)
    ensures Recognized(messages, HitsFor(found, ner, hasNer))
  {
    forall i | 0 <= i < |messages|
      ensures AllFromText(messages[i].content, RecognizeAll(found[i], ner[i], hasNer))
    {
      MergedFromText(messages[i].content, found[i]);
      if hasNer && ner[i].Found? {
        MergedFromText(messages[i].content, Merged(found[i]) + ner[i].hits);
      }
    }
  }

  /** Restoring with the mappings of a result gives back each message in which none of its placeholders occurs. */
  lemma {:induction false} ProcessedComesBack(messages: seq<Message>, found: seq<seq<Hit>>, ner: seq<NerReply>, hasNer: bool, r: Outcome, k: nat)
    requires AnswersFromText(messages, found, ner) && IsProcessed(messages, found, ner, hasNer, r) && k < |messages|
    requires Unambiguous(r.result.mappings, messages[k].content)
    ensures |r.messages| == |messages| && RestoresTo(r.result.mappings, r.messages[k], messages[k])
  {
    UsedHitsFromText(messages, found, ner, hasNer);
    MessageRoundTrip(messages, HitsFor(found, ner, hasNer), k);
    assert ComesBack(messages, HitsFor(found, ner, hasNer), k);
  }

  // ---- Every hit is used -------------------------------------------------------------------

  ghost predicate HitsInRange(text: string, hits: seq<Hit>) {
    forall h | h in hits :: 0 <= h.start && h.end <= Bytes(text)
  }

  /** An entry of the list gives the detail's placeholder its text and type. */
  ghost predicate StandsFor(ms: seq<Entry>, d: MatchDetail) {
    exists e :: e in ms && e.placeholder == d.placeholder && e.original == d.text && e.info.entityType == d.entityType
  }

  ghost predicate AllStand(ms: seq<Entry>, matches: seq<MatchDetail>) {
    forall i | 0 <= i < |matches| :: StandsFor(ms, matches[i])
  }

  lemma {:induction false} StandsLater(ms: seq<Entry>, later: seq<Entry>, matches: seq<MatchDetail>)
    requires AllStand(ms, matches) && ms <= later
    ensures AllStand(later, matches)
  {
    forall i | 0 <= i < |matches|
      ensures StandsFor(later, matches[i])
    {
      assert StandsFor(ms, matches[i]);
      var e :| e in ms && e.placeholder == matches[i].placeholder && e.original == matches[i].text && e.info.entityType == matches[i].entityType;
      assert e in later;
    }
  }

  lemma {:induction false} RecordStands(st: State, h: Hit, messageIndex: int, role: Role)
    requires Inv(st) && AllStand(st.mappings, st.matches)
    ensures var next := Record(st, h, messageIndex, role).0; Inv(next) && AllStand(next.mappings, next.matches)
  {
    InternKeeps(st, h);
    var (next, e) := Record(st, h, messageIndex, role);
    StandsLater(st.mappings, next.mappings, st.matches);
    StandsAppend(next.mappings, st.matches, Detail(h, e, messageIndex, role), e);
  }

  lemma {:induction false} StandsAppend(ms: seq<Entry>, matches: seq<MatchDetail>, d: MatchDetail, e: Entry)
    requires AllStand(ms, matches) && e in ms
    requires e.placeholder == d.placeholder && e.original == d.text && e.info.entityType == d.entityType
    ensures AllStand(ms, matches + [d])
  {
    assert StandsFor(ms, d);
  }

  lemma {:induction false} RewriteStands(st: State, text: string, cursor: nat, hits: seq<Hit>, messageIndex: int, role: Role)
    requires Inv(st) && cursor <= Bytes(text) && AllStand(st.mappings, st.matches)
    ensures var next := Rewrite(st, text, cursor, hits, messageIndex, role).0; AllStand(next.mappings, next.matches)
    decreases |hits|
  {
    if hits != [] {
      var h := hits[0];
      if Skipped(text, cursor, h) {
        RewriteStands(st, text, cursor, hits[1..], messageIndex, role);
      } else {
        RecordStands(st, h, messageIndex, role);
        RewriteStands(Record(st, h, messageIndex, role).0, text, h.end, hits[1..], messageIndex, role);
      }
    }
  }

  lemma {:induction false} SanitizeStands(st: State, messages: seq<Message>, hits: seq<seq<Hit>>, i: nat)
    requires i <= |messages| == |hits| && Inv(st) && AllStand(st.mappings, st.matches)
    ensures var next := SanitizeFrom(st, messages, hits, i).0; AllStand(next.mappings, next.matches)
    decreases |messages| - i
  {
    if i < |messages| {
      var text, role := messages[i].content, messages[i].role;
      ApplyKeeps(st, text, hits[i], i, role);
      if hits[i] != [] {
        RewriteStands(st, text, 0, StableSort(hits[i], StartsBefore), i, role);
      }
      SanitizeStands(Apply(st, text, hits[i], i, role).0, messages, hits, i + 1);
    }
  }

  /** All hits reported for a message: those of regular expressions and dictionary, and of NER if it is used. */
  function Reported(found: seq<Hit>, ner: NerReply, hasNer: bool): seq<Hit> {
    found + if hasNer && ner.Found? then ner.hits else []
  }

  /**
    `after` is `before` with the spans of some reported hits replaced, which are pairwise
    disjoint; each of the reported hits is among them, or gave way to one of them.
   */
  ghost predicate MaskedBy(before: string, after: string, reported: seq<Hit>, hs: seq<Hit>, names: seq<string>) {
    && |hs| == |names| && InRange(before, 0, hs) && after == Spliced(before, 0, hs, names)
    && (forall h | h in hs :: h in reported)
    && (forall h | h in reported && h.Nonempty() :: Dominated(reported, h, hs))
  }

  lemma {:induction false} UsedHits(found: seq<Hit>, ner: NerReply, hasNer: bool)
    ensures var hs, reported := RecognizeAll(found, ner, hasNer), Reported(found, ner, hasNer);
      && (forall h | h in hs :: h in reported)
      && (forall h | h in reported && h.Nonempty() :: Dominated(reported, h, hs))
  {
    var hs, reported := RecognizeAll(found, ner, hasNer), Reported(found, ner, hasNer);
    MergedFromInput(found);
    if hasNer && ner.Found? {
      var second := Merged(found) + ner.hits;
      MergedFromInput(second);
      MergedDisjoint(found);
      forall g | g in second && g.Nonempty()
        ensures Dominated(second, g, hs)
      {
        MergeDominates(second, g);
      }
      forall h | h in reported && h.Nonempty()
        ensures Dominated(reported, h, hs)
      {
        if h in found {
          MergeDominates(found, h);
          DominatedThrough(reported, found, second, h, Merged(found), hs);
        } else {
          DominatedWithin(reported, second, h, hs);
        }
      }
    } else {
      assert reported == found;
      forall h | h in reported && h.Nonempty()
        ensures Dominated(reported, h, hs)
      {
        MergeDominates(found, h);
      }
    }
  }

  lemma {:induction false} DominatedWithin(hits: seq<Hit>, part: seq<Hit>, h: Hit, kept: seq<Hit>)
    requires Dominated(part, h, kept) && forall g :: g in part ==> g in hits
    ensures Dominated(hits, h, kept)
  {
    var path, k :| 0 <= k < |kept| && PathFrom(path, part, h, kept[k]);
    assert PathFrom(path, hits, h, kept[k]);
  }

  /** One message rewritten: what it becomes, and the details it adds. */
  lemma {:induction false} ApplyMasks(st: State, text: string, found: seq<Hit>, ner: NerReply, hasNer: bool, messageIndex: int, role: Role)
    returns (hs: seq<Hit>, added: seq<MatchDetail>)
    requires HitsInRange(text, Reported(found, ner, hasNer))
    ensures var (next, after) := Apply(st, text, RecognizeAll(found, ner, hasNer), messageIndex, role);
      && Details(added, hs, messageIndex, role) && next.matches == st.matches + added
      && MaskedBy(text, after, Reported(found, ner, hasNer), hs, Names(added))
  {
    hs := RecognizeAll(found, ner, hasNer);
    UsedHits(found, ner, hasNer);
    MergedFromInput(found);
    if hasNer && ner.Found? {
      added := MergeThenApply(st, text, Merged(found) + ner.hits, messageIndex, role);
    } else {
      added := MergeThenApply(st, text, found, messageIndex, role);
    }
  }

  function Flattened(parts: seq<seq<MatchDetail>>): seq<MatchDetail> {
    if parts == [] then [] else parts[0] + Flattened(parts[1..])
  }

  /** Message `k` is masked by `hs`, and `added` lists the matches in order. */
  ghost predicate MaskedMessage(m: Message, found: seq<Hit>, ner: NerReply, hasNer: bool, out: Message,
                                hs: seq<Hit>, added: seq<MatchDetail>, k: nat)
  {
    && out.role == m.role
    && Details(added, hs, k, m.role)
    && MaskedBy(m.content, out.content, Reported(found, ner, hasNer), hs, Names(added))
  }

  ghost predicate AllInRange(messages: seq<Message>, found: seq<seq<Hit>>, ner: seq<NerReply>, hasNer: bool) {
    && |messages| == |found| == |ner|
    && forall k | 0 <= k < |messages| :: HitsInRange(messages[k].content, Reported(found[k], ner[k], hasNer))
  }

  /** The messages from index `i` on are masked. */
  ghost predicate AllMasked(messages: seq<Message>, found: seq<seq<Hit>>, ner: seq<NerReply>, hasNer: bool, i: nat,
                            out: seq<Message>, hs: seq<seq<Hit>>, added: seq<seq<MatchDetail>>)
  {
    && |messages| == |found| == |ner| == i + |out| && |out| == |hs| == |added|
    && forall j | 0 <= j < |out| :: MaskedAt(messages, found, ner, hasNer, i, out, hs, added, j)
  }

  ghost predicate MaskedAt(messages: seq<Message>, found: seq<seq<Hit>>, ner: seq<NerReply>, hasNer: bool, i: nat,
                           out: seq<Message>, hs: seq<seq<Hit>>, added: seq<seq<MatchDetail>>, j: nat)
    requires |messages| == |found| == |ner| == i + |out| && |out| == |hs| == |added| && j < |out|
  {
    MaskedMessage(messages[i + j], found[i + j], ner[i + j], hasNer, out[j], hs[j], added[j], i + j)
  }

  lemma {:induction false} MaskedCons(messages: seq<Message>, found: seq<seq<Hit>>, ner: seq<NerReply>, hasNer: bool, i: nat,
                                      m: Message, out: seq<Message>, h: seq<Hit>, hs: seq<seq<Hit>>, a: seq<MatchDetail>, added: seq<seq<MatchDetail>>)
    requires AllMasked(messages, found, ner, hasNer, i + 1, out, hs, added)
    requires MaskedMessage(messages[i], found[i], ner[i], hasNer, m, h, a, i)
    ensures AllMasked(messages, found, ner, hasNer, i, [m] + out, [h] + hs, [a] + added)
  {
    forall j | 0 <= j < |out| + 1
      ensures MaskedAt(messages, found, ner, hasNer, i, [m] + out, [h] + hs, [a] + added, j)
    {
      if j > 0 {
        assert MaskedAt(messages, found, ner, hasNer, i + 1, out, hs, added, j - 1);
        MaskedShift(messages, found, ner, hasNer, i, m, out, h, hs, a, added, j);
      }
    }
  }

  lemma {:induction false} MaskedShift(messages: seq<Message>, found: seq<seq<Hit>>, ner: seq<NerReply>, hasNer: bool, i: nat,
                                       m: Message, out: seq<Message>, h: seq<Hit>, hs: seq<seq<Hit>>, a: seq<MatchDetail>, added: seq<seq<MatchDetail>>,
                                       j: nat)
    requires |messages| == |found| == |ner| == i + 1 + |out| && |out| == |hs| == |added| && 1 <= j <= |out|
    requires MaskedAt(messages, found, ner, hasNer, i + 1, out, hs, added, j - 1)
    ensures MaskedAt(messages, found, ner, hasNer, i, [m] + out, [h] + hs, [a] + added, j)
  {
    assert i + 1 + (j - 1) == i + j;
    assert ([m] + out)[j] == out[j - 1] && ([h] + hs)[j] == hs[j - 1] && ([a] + added)[j] == added[j - 1];
  }

  lemma {:induction false} SanitizeMasksFrom(st: State, messages: seq<Message>, found: seq<seq<Hit>>, ner: seq<NerReply>, hasNer: bool, i: nat)
    returns (hs: seq<seq<Hit>>, added: seq<seq<MatchDetail>>)
    requires AllInRange(messages, found, ner, hasNer) && i <= |messages|
    ensures var (last, out) := SanitizeFrom(st, messages, HitsFor(found, ner, hasNer), i);
      last.matches == st.matches + Flattened(added) && AllMasked(messages, found, ner, hasNer, i, out, hs, added)
    decreases |messages| - i
  {
    if i == |messages| {
      hs, added := [], [];
    } else {
      var m := messages[i];
      var h, a := ApplyMasks(st, m.content, found[i], ner[i], hasNer, i, m.role);
      var (st1, after) := Apply(st, m.content, HitsFor(found, ner, hasNer)[i], i, m.role);
      var moreHits, moreAdded := SanitizeMasksFrom(st1, messages, found, ner, hasNer, i + 1);
      SanitizeSplits(st, messages, HitsFor(found, ner, hasNer), i);
      hs, added := [h] + moreHits, [a] + moreAdded;
      FlattenedCons(a, moreAdded);
      ConcatAssoc(st.matches, a, Flattened(moreAdded));
      MaskedCons(messages, found, ner, hasNer, i, Message(m.role, after), SanitizeFrom(st1, messages, HitsFor(found, ner, hasNer), i + 1).1,
                 h, moreHits, a, moreAdded);
    }
  }

  lemma {:induction false} FlattenedCons(a: seq<MatchDetail>, parts: seq<seq<MatchDetail>>)
    ensures Flattened([a] + parts) == a + Flattened(parts)
  {
    assert ([a] + parts)[1..] == parts;
  }

  /**
    What leaves the processor, whatever the recognizers report: every message keeps its role
    and becomes its text with reported spans replaced, no reported hit being passed over; the
    details list all matches in order, and every name stands for its text in the mapping list.
   */
  lemma {:induction false} SanitizedIsMasked(messages: seq<Message>, found: seq<seq<Hit>>, ner: seq<NerReply>, hasNer: bool)
    returns (hs: seq<seq<Hit>>, added: seq<seq<MatchDetail>>)
    requires AllInRange(messages, found, ner, hasNer)
    ensures var (st, out) := Sanitized(messages, HitsFor(found, ner, hasNer));
      st.matches == Flattened(added) && AllStand(st.mappings, st.matches) && AllMasked(messages, found, ner, hasNer, 0, out, hs, added)
  {
    hs, added := SanitizeMasksFrom(EMPTY, messages, found, ner, hasNer, 0);
    assert [] + Flattened(added) == Flattened(added);
    EmptyInv();
    SanitizeStands(EMPTY, messages, HitsFor(found, ner, hasNer), 0);
  }

  /** The result of the processor: masked messages, details, mappings that stand for them, differences and joined text. */
  lemma {:induction false} ProcessedMeans(messages: seq<Message>, found: seq<seq<Hit>>, ner: seq<NerReply>, hasNer: bool, r: Outcome)
    returns (hs: seq<seq<Hit>>, added: seq<seq<MatchDetail>>)
    requires AllInRange(messages, found, ner, hasNer) && IsProcessed(messages, found, ner, hasNer, r)
    ensures AllMasked(messages, found, ner, hasNer, 0, r.messages, hs, added) && |r.result.messageDiffs| == |messages|
    ensures r.result.matches == Flattened(added) && AllStand(r.result.mappings, r.result.matches)
    ensures forall k | 0 <= k < |messages| :: ShowsDifference(r.result.messageDiffs[k], k, messages[k], r.messages[k])
  {
    hs, added := SanitizedIsMasked(messages, found, ner, hasNer);
  }

  ghost predicate ShowsDifference(d: MessageDiff, k: nat, m: Message, after: Message) {
    && d.messageIndex == k && d.role == after.role && d.before == m.content && d.after == after.content
    && (d.changed <==> after.content != m.content)
  }

  /** Joining is concatenation in order. */
  lemma {:induction false} JoinedInOrder(a: seq<Message>, b: seq<Message>)
    ensures JoinedMessages(a + b) == JoinedMessages(a) + JoinedMessages(b)
    ensures |b| == 1 ==> JoinedMessages(b) == b[0].content
  {
    if b == [] {
      assert a + b == a;
    } else {
      var n := |b| - 1;
      assert (a + b)[..|a + b| - 1] == a + b[..n];
      JoinedInOrder(a, b[..n]);
      ConcatAssoc(JoinedMessages(a), JoinedMessages(b[..n]), b[n].content);
    }
  }
}
