/**
  Streaming restoration.  Deltas arrive in arbitrary cuts; a tail buffer holds back text
  that may be the beginning of a placeholder.
 */
module TailBuffer {
  import opened Text
  import opened Restore
  import opened Cuts

  // ---- The buffer ------------------------------------------------------------------

  function LongestPlaceholder(ms: seq<Mapping>): (n: nat)
    ensures forall i | 0 <= i < |ms| :: Bytes(ms[i].placeholder) <= n
    ensures if ms == [] then n == 0 else exists i :: 0 <= i < |ms| && Bytes(ms[i].placeholder) == n
  {
    if ms == [] then 0
    else
      var rest, last := LongestPlaceholder(ms[..|ms| - 1]), Bytes(ms[|ms| - 1].placeholder);
      if last > rest then last else rest
  }

  /** What may be released of `text`, and what must wait for more input. */
  function SplitPlaceholderTail(text: string, maxTailBytes: nat): (r: (string, string))
    ensures r.0 + r.1 == text
    ensures Bytes(r.1) <= maxTailBytes
  {
    var start := LastIndex(text, OPEN);
    if start < 0 then (text, "")
    else if Index(text[start..], CLOSE) < 0 then
      if maxTailBytes == 0 || Bytes(text[start..]) > maxTailBytes then (text, "")
      else (text[..start], text[start..])
    else (text, "")
  }

  /** From `i` on the text is the last bracket opened, not closed yet, and no longer than a placeholder may be. */
  ghost predicate OpenedAt(text: string, i: int, maxTailBytes: nat) {
    0 <= i < |text| && text[i] == OPEN && OpenFree(text[i + 1..]) && CLOSE !in text[i..] && Bytes(text[i..]) <= maxTailBytes
  }

  lemma {:induction false} OpenedAtLast(text: string, i: int, maxTailBytes: nat)
    requires OpenedAt(text, i, maxTailBytes)
    ensures LastIndex(text, OPEN) == i && maxTailBytes > 0
  {
    var start := LastIndex(text, OPEN);
    assert forall k | i < k < |text| :: text[k] == text[i + 1..][k - i - 1];
    assert text[i..][0] == text[i];
  }

  /** Exactly the text from an unclosed bracket on is held back, and everything is released if there is none. */
  lemma {:induction false} SplitExactly(text: string, maxTailBytes: nat)
    ensures var (emit, rest) := SplitPlaceholderTail(text, maxTailBytes);
      && emit + rest == text
      && (rest != "" ==> OpenedAt(text, |emit|, maxTailBytes))
      && (forall i | OpenedAt(text, i, maxTailBytes) :: rest == text[i..])
  {
    var (emit, rest) := SplitPlaceholderTail(text, maxTailBytes);
    forall i | OpenedAt(text, i, maxTailBytes)
      ensures rest == text[i..]
    {
      OpenedAtLast(text, i, maxTailBytes);
    }
    if rest != "" {
      var start := LastIndex(text, OPEN);
      assert forall k | start < k < |text| :: text[k] == text[start + 1..][k - start - 1];
    }
  }

  class PlaceholderTailBuffer<Info> {
    const mappings: seq<Mapping<Info>>
    const maxTailBytes: nat
    var tail: string

    constructor (ms: seq<Mapping<Info>>)
      ensures mappings == ms && maxTailBytes == LongestPlaceholder(ms) && tail == ""
    {
      var longest := 0;
      for i := 0 to |ms|
        invariant longest == LongestPlaceholder(ms[..i])
      {
        assert ms[..i + 1][..i] == ms[..i];
        if Bytes(ms[i].placeholder) > longest {
          longest := Bytes(ms[i].placeholder);
        }
      }
      assert ms[..|ms|] == ms;
      mappings, maxTailBytes, tail := ms, longest, "";
    }

    method Push(delta: string) returns (out: string)
      modifies this
      ensures delta == "" ==> out == "" && tail == old(tail)
      ensures delta != "" ==>
        var (emit, rest) := SplitPlaceholderTail(old(tail) + delta, maxTailBytes);
        out == RestoreAll(mappings, emit) && tail == rest
    {
      if delta == "" {
        return "";
      }
      var (emit, rest) := SplitPlaceholderTail(tail + delta, maxTailBytes);
      tail := rest;
      out := RestoreText(mappings, emit);
    }

    method Flush() returns (out: string)
      modifies this
      ensures tail == ""
      ensures out == if old(tail) == "" then "" else RestoreAll(mappings, old(tail))
    {
      if tail == "" {
        return "";
      }
      out := RestoreText(mappings, tail);
      tail := "";
    }
  }

  // ---- The streaming loop ----------------------------------------------------------

  datatype ErrorReason = Upstream | NoAvailablePrivateConfig | DesensitizationIncomplete
  datatype Event = Delta(text: string) | Done | Error(reason: ErrorReason)

  function EventText(event: Event): string {
    if event.Delta? then event.text else ""
  }

  function DeltaText(events: seq<Event>): string {
    if events == [] then "" else EventText(events[0]) + DeltaText(events[1..])
  }

  function Released(ms: seq<Mapping>, tail: string): seq<Event> {
    if tail == "" || RestoreAll(ms, tail) == "" then [] else [Delta(RestoreAll(ms, tail))]
  }

  /** What one upstream event sends downstream, and what the buffer holds afterwards. */
  function Forwarded(ms: seq<Mapping>, tail: string, event: Event): (seq<Event>, string) {
    match event
    case Delta(d) =>
      if d == "" then ([event], tail)
      else
        var (emit, rest) := SplitPlaceholderTail(tail + d, LongestPlaceholder(ms));
        ([Delta(RestoreAll(ms, emit))], rest)
    case Done => (Released(ms, tail) + [event], "")
    case Error(_) => ([event], tail)
  }

  /** Events sent downstream for the events that arrive. */
  function Delivered(ms: seq<Mapping>, tail: string, upstream: seq<Event>): seq<Event>
    decreases |upstream|
  {
    if upstream == [] then Released(ms, tail)
    else
      var (sent, rest) := Forwarded(ms, tail, upstream[0]);
      sent + Delivered(ms, rest, upstream[1..])
  }

  method Forward<Info>(buffer: PlaceholderTailBuffer<Info>, event: Event) returns (sent: seq<Event>)
    requires buffer.maxTailBytes == LongestPlaceholder(buffer.mappings)
    modifies buffer
    ensures (sent, buffer.tail) == Forwarded(buffer.mappings, old(buffer.tail), event)
  {
    sent := [event];
    if event.Delta? && event.text != "" {
      var text := buffer.Push(event.text);
      sent := [Delta(text)];
    }
    if event.Done? {
      var rest := buffer.Flush();
      if rest != "" {
        sent := [Delta(rest)] + sent;
      }
      assert [] + [event] == [event];
    }
  }

  // ---- Streaming equals batch ------------------------------------------------------

  lemma {:induction false} BytesPrefix(p: string, s: string)
    requires p <= s
    ensures Bytes(p) <= Bytes(s)
  {
    assert s == p + s[|p|..];
    BytesConcat(p, s[|p|..]);
  }

  /** The buffer never cuts through a placeholder, whatever arrives later. */
  lemma {:induction false} SplitIsCleanCut(ms: seq<Mapping>, text: string, later: string)
    requires WellFormed(ms)
    ensures var (emit, rest) := SplitPlaceholderTail(text, LongestPlaceholder(ms));
            CleanCut(ms, emit, rest + later)
  {
    var max := LongestPlaceholder(ms);
    var (emit, rest) := SplitPlaceholderTail(text, max);
    var b := rest + later;
    assert emit + b == text + later;
    forall j, i | 0 <= j < |ms| && 0 <= i < |emit| && OccursAt(emit + b, ms[j].placeholder, i)
      ensures i + |ms[j].placeholder| <= |emit|
    {
      Straddling(text, later, ms[j].placeholder, max, i);
    }
  }

  lemma {:induction false} NoOpenInside(s: string, p: string, i: nat, t: nat)
    requires Shaped(p) && OccursAt(s, p, i)
    ensures i + |p| <= |s| && s[i] == OPEN
    ensures i < t < i + |p| ==> s[t] != OPEN
  {
    assert s[i..][0] == p[0];
    if i < t < i + |p| {
      assert s[t] == s[i..][t - i] == p[t - i];
    }
  }

  lemma {:induction false} Straddling(text: string, later: string, p: string, max: nat, i: nat)
    requires Shaped(p) && Bytes(p) <= max
    requires OccursAt(text + later, p, i) && i < |SplitPlaceholderTail(text, max).0|
    ensures i + |p| <= |SplitPlaceholderTail(text, max).0|
  {
    var s, start := text + later, LastIndex(text, OPEN);
    NoOpenInside(s, p, i, if start < 0 then 0 else start);
    assert text[i] == OPEN && start >= i;
    if |text| < i + |p| && start == i {
      var n := |text| - i;
      assert text[i..] == s[i..][..n] == p[..n];
      assert forall k | 0 <= k < n :: p[k] != CLOSE;
      BytesPrefix(p[..n], p);
    }
    if start == i && i + |p| <= |text| {
      assert text[i..][|p| - 1] == s[i..][|p| - 1] == CLOSE;
    }
  }

  lemma {:induction false} DeltaTextConcat(es: seq<Event>, fs: seq<Event>)
    ensures DeltaText(es + fs) == DeltaText(es) + DeltaText(fs)
  {
    if es == [] {
      assert es + fs == fs;
    } else {
      assert (es + fs)[1..] == es[1..] + fs;
      DeltaTextConcat(es[1..], fs);
    }
  }

  /** The upstream ends when it says Done, or is simply closed. */
  ghost predicate DoneIsLast(upstream: seq<Event>) {
    forall i | 0 <= i < |upstream| - 1 :: !upstream[i].Done?
  }

  /** A pushed delta releases what is restored up to the cut and keeps the rest. */
  lemma {:induction false} PushKeeps(ms: seq<Mapping>, text: string, future: string)
    requires WellFormed(ms) && Safe(ms, text + future)
    ensures var (emit, rest) := SplitPlaceholderTail(text, LongestPlaceholder(ms));
            && Safe(ms, rest + future)
            && RestoreAll(ms, emit) + RestoreAll(ms, rest + future) == RestoreAll(ms, text + future)
  {
    var (emit, rest) := SplitPlaceholderTail(text, LongestPlaceholder(ms));
    assert text + future == emit + (rest + future);
    SplitIsCleanCut(ms, text, future);
    RestoreDistributes(ms, emit, rest + future);
    SafeSuffix(ms, emit, rest + future);
  }

  lemma {:induction false} FlushKeeps(ms: seq<Mapping>, tail: string)
    requires WellFormed(ms) && Safe(ms, tail)
    ensures Safe(ms, "")
    ensures DeltaText(Released(ms, tail) + [Done]) == RestoreAll(ms, tail)
    ensures DeltaText(Released(ms, tail)) == RestoreAll(ms, tail)
    ensures RestoreAll(ms, "") == ""
  {
    assert tail + "" == tail;
    SafeSuffix(ms, tail, "");
    OpenFreeIsInert(ms, "");
    OneDelta(RestoreAll(ms, tail), []);
    OneDelta(RestoreAll(ms, tail), [Done]);
    assert [] + [Done] == [Done];
    assert [Delta(RestoreAll(ms, tail))] + [] == [Delta(RestoreAll(ms, tail))];
  }

  /** One event releases exactly what it takes away from the text still to be restored. */
  lemma {:induction false} ForwardedKeeps(ms: seq<Mapping>, tail: string, event: Event, future: string)
    requires WellFormed(ms)
    requires Safe(ms, tail + EventText(event) + future) && (event.Done? ==> future == "")
    ensures var (sent, rest) := Forwarded(ms, tail, event);
            && Safe(ms, rest + future)
            && DeltaText(sent) + RestoreAll(ms, rest + future) == RestoreAll(ms, tail + EventText(event) + future)
  {
    if event.Delta? && event.text != "" {
      PushKeeps(ms, tail + event.text, future);
      SentOne(ms, tail, event.text);
    } else {
      assert tail + EventText(event) == tail;
      if event.Done? {
        assert tail + future == tail && "" + future == "";
        FlushKeeps(ms, tail);
      } else {
        SentNoText(event);
      }
    }
  }

  lemma {:induction false} SentOne(ms: seq<Mapping>, tail: string, d: string)
    requires d != ""
    ensures DeltaText(Forwarded(ms, tail, Delta(d)).0) == RestoreAll(ms, SplitPlaceholderTail(tail + d, LongestPlaceholder(ms)).0)
  {
    var sent := Forwarded(ms, tail, Delta(d)).0;
    assert sent == [sent[0]] + [];
    OneDelta(sent[0].text, []);
  }

  lemma {:induction false} SentNoText(event: Event)
    requires EventText(event) == ""
    ensures DeltaText([event]) == ""
  {
    assert DeltaText([]) == "";
  }

  lemma {:induction false} OneDelta(text: string, es: seq<Event>)
    requires es == [] || es == [Done]
    ensures DeltaText([Delta(text)] + es) == text
    ensures DeltaText(es) == ""
  {
    assert ([Delta(text)] + es)[1..] == es;
    assert DeltaText(es) == "" && text + "" == text;
  }

  /** The same for the first of several events. */
  lemma {:induction false} FirstForwarded(ms: seq<Mapping>, tail: string, upstream: seq<Event>)
    requires WellFormed(ms) && upstream != []
    requires Safe(ms, tail + DeltaText(upstream)) && DoneIsLast(upstream)
    ensures var (sent, rest) := Forwarded(ms, tail, upstream[0]);
            && DoneIsLast(upstream[1..]) && Safe(ms, rest + DeltaText(upstream[1..]))
            && RestoreAll(ms, tail + DeltaText(upstream)) == DeltaText(sent) + RestoreAll(ms, rest + DeltaText(upstream[1..]))
  {
    var event, later := upstream[0], upstream[1..];
    ConcatAssoc(tail, EventText(event), DeltaText(later));
    assert forall i | 0 <= i < |later| - 1 :: later[i] == upstream[i + 1];
    assert event.Done? ==> later == [];
    ForwardedKeeps(ms, tail, event, DeltaText(later));
  }

  /**
    Streaming equals batch: for every cutting of the upstream text into deltas, what is
    delivered reads as the restoration of the whole text.
   */
  lemma {:induction false} StreamEqualsBatch(ms: seq<Mapping>, tail: string, upstream: seq<Event>)
    requires WellFormed(ms) && Safe(ms, tail + DeltaText(upstream))
    requires DoneIsLast(upstream)
    ensures DeltaText(Delivered(ms, tail, upstream)) == RestoreAll(ms, tail + DeltaText(upstream))
    decreases |upstream|
  {
    if upstream == [] {
      assert tail + "" == tail;
      FlushKeeps(ms, tail);
    } else {
      var (sent, rest) := Forwarded(ms, tail, upstream[0]);
      FirstForwarded(ms, tail, upstream);
      StreamEqualsBatch(ms, rest, upstream[1..]);
      DeltaTextConcat(sent, Delivered(ms, rest, upstream[1..]));
    }
  }

  // ---- Several answers in one stream -------------------------------------------------

  /** The text before each Done, and after the last one, restored on its own. */
  ghost function RestoredByAnswer(ms: seq<Mapping>, carry: string, upstream: seq<Event>): string
    decreases |upstream|
  {
    if upstream == [] then RestoreAll(ms, carry)
    else if upstream[0].Done? then RestoreAll(ms, carry) + RestoredByAnswer(ms, "", upstream[1..])
    else RestoredByAnswer(ms, carry + EventText(upstream[0]), upstream[1..])
  }

  /** What the buffer releases of a text is the beginning of what its answer is restored to. */
  lemma {:induction false} ReleasedBegins(ms: seq<Mapping>, text: string, more: string, upstream: seq<Event>)
    requires WellFormed(ms) && HarmlessAssembly(ms)
    ensures var (emit, rest) := SplitPlaceholderTail(text, LongestPlaceholder(ms));
            RestoredByAnswer(ms, text + more, upstream) == RestoreAll(ms, emit) + RestoredByAnswer(ms, rest + more, upstream)
    decreases |upstream|
  {
    var (emit, rest) := SplitPlaceholderTail(text, LongestPlaceholder(ms));
    if upstream == [] {
      PushKeeps(ms, text, more);
    } else if upstream[0].Done? {
      PushKeeps(ms, text, more);
      ConcatAssoc(RestoreAll(ms, emit), RestoreAll(ms, rest + more), RestoredByAnswer(ms, "", upstream[1..]));
    } else {
      var d := EventText(upstream[0]);
      ConcatAssoc(text, more, d);
      ConcatAssoc(rest, more, d);
      ReleasedBegins(ms, text, more + d, upstream[1..]);
    }
  }

  /** Where events may follow Done, every answer in the stream is restored like one given at once. */
  lemma {:induction false} AnswersEqualBatches(ms: seq<Mapping>, tail: string, upstream: seq<Event>)
    requires WellFormed(ms) && HarmlessAssembly(ms)
    ensures DeltaText(Delivered(ms, tail, upstream)) == RestoredByAnswer(ms, tail, upstream)
    decreases |upstream|
  {
    FlushKeeps(ms, tail);
    if upstream != [] {
      var event := upstream[0];
      var (sent, rest) := Forwarded(ms, tail, event);
      AnswersEqualBatches(ms, rest, upstream[1..]);
      DeltaTextConcat(sent, Delivered(ms, rest, upstream[1..]));
      if event.Delta? && event.text != "" {
        SentOne(ms, tail, event.text);
        var text := tail + event.text;
        assert text + "" == text && rest + "" == rest;
        ReleasedBegins(ms, text, "", upstream[1..]);
      } else if !event.Done? {
        SentNoText(event);
        assert tail + "" == tail;
      }
    }
  }

  // ---- Event by event --------------------------------------------------------------------

  ghost predicate NoDone(events: seq<Event>) {
    forall i | 0 <= i < |events| :: !events[i].Done?
  }

  /** One event out for each event in: deltas for deltas, and every other event as it came. */
  ghost predicate OneForOne(out: seq<Event>, upstream: seq<Event>) {
    |out| == |upstream| &&
    forall i | 0 <= i < |upstream| :: if upstream[i].Delta? then out[i].Delta? else out[i] == upstream[i]
  }

  lemma {:induction false} OneForOneCons(e: Event, out: seq<Event>, upstream: seq<Event>)
    requires upstream != [] && OneForOne(out, upstream[1..])
    requires if upstream[0].Delta? then e.Delta? else e == upstream[0]
    ensures OneForOne([e] + out, upstream)
  {
    assert forall i | 1 <= i < |upstream| :: upstream[i] == upstream[1..][i - 1];
  }

  lemma {:induction false} SplitAtOpen(text: string, i: nat, max: nat)
    requires OpenedAt(text, i, max)
    ensures SplitPlaceholderTail(text, max) == (text[..i], text[i..])
  {
    OpenedAtLast(text, i, max);
  }

  lemma {:induction false} SplitNowhere(text: string, max: nat)
    requires forall i: nat :: !OpenedAt(text, i, max)
    ensures SplitPlaceholderTail(text, max) == (text, "")
  {
    SplitExactly(text, max);
  }

  /** The cut of a text that came in two parts is that of the whole. */
  lemma {:induction false} SplitMore(given: string, held: string, d: string, max: nat)
    requires SplitPlaceholderTail(given + held, max) == (given, held)
    ensures var (emit, rest) := SplitPlaceholderTail(held + d, max);
            SplitPlaceholderTail(given + (held + d), max) == (given + emit, rest)
  {
    var part := held + d;
    if i: nat :| OpenedAt(part, i, max) {
      SplitAtOpen(part, i, max);
      OpenedLater(given, part, i, max);
      SplitAtOpen(given + part, |given| + i, max);
      assert (given + part)[..|given| + i] == given + part[..i];
    } else {
      SplitNowhere(part, max);
      forall i: nat
        ensures !OpenedAt(given + part, i, max)
      {
        if OpenedAt(given + part, i, max) {
          OpenedEarlier(given, held, d, i, max);
        }
      }
      SplitNowhere(given + part, max);
    }
  }

  lemma {:induction false} SameEnd(a: string, b: string, c: string)
    requires a + c == b + c
    ensures a == b
  {
    assert |a| == |b|;
    assert a == (a + c)[..|a|] && b == (b + c)[..|b|];
  }

  lemma {:induction false} OpenedLater(given: string, part: string, i: nat, max: nat)
    requires OpenedAt(part, i, max)
    ensures OpenedAt(given + part, |given| + i, max)
    ensures (given + part)[|given| + i..] == part[i..]
  {
    var text := given + part;
    assert text[|given| + i..] == part[i..] && text[|given| + i + 1..] == part[i + 1..];
  }

  /** A bracket open at the end of the text is in the part still held, or came later. */
  lemma {:induction false} OpenedEarlier(given: string, held: string, d: string, i: nat, max: nat)
    requires SplitPlaceholderTail(given + held, max) == (given, held)
    requires OpenedAt(given + (held + d), i, max)
    ensures i >= |given| && OpenedAt(held + d, i - |given|, max)
  {
    var part := held + d;
    var text := given + part;
    if i < |given| {
      ConcatAssoc(given, held, d);
      OpenedBefore(given + held, d, i, max);
      SplitAtOpen(given + held, i, max);
    } else {
      assert text[i..] == part[i - |given|..] && text[i + 1..] == part[i - |given| + 1..];
    }
  }

  lemma {:induction false} OpenedBefore(before: string, d: string, i: nat, max: nat)
    requires i < |before| && OpenedAt(before + d, i, max)
    ensures OpenedAt(before, i, max)
  {
    var text := before + d;
    assert text[i..] == before[i..] + d && text[i + 1..] == before[i + 1..] + d;
    KeptOut(before[i..], d, CLOSE);
    KeptOut(before[i + 1..], d, OPEN);
    BytesPrefix(before[i..], text[i..]);
  }

  lemma {:induction false} KeptOut(a: string, b: string, c: char)
    requires c !in a + b
    ensures c !in a
  {
    forall i | 0 <= i < |a|
      ensures a[i] != c
    {
      assert (a + b)[i] == a[i];
    }
  }

  /** What is released of the next delta continues what was given out before. */
  lemma {:induction false} ReleaseContinues(ms: seq<Mapping>, given: string, held: string, d: string)
    requires WellFormed(ms) && Safe(ms, given + (held + d))
    requires SplitPlaceholderTail(given + held, LongestPlaceholder(ms)) == (given, held)
    ensures var emit := SplitPlaceholderTail(held + d, LongestPlaceholder(ms)).0;
            RestoreAll(ms, given + emit) == RestoreAll(ms, given) + RestoreAll(ms, emit)
  {
    var max := LongestPlaceholder(ms);
    var (emit, rest) := SplitPlaceholderTail(held + d, max);
    SplitMore(given, held, d, max);
    SafeSuffix(ms, given, held + d);
    ConcatAssoc(given, held, d);
    PushKeeps(ms, given + held, d);
    PushAll(ms, held + d);
    PushAll(ms, given + (held + d));
    ConcatAssoc(RestoreAll(ms, given), RestoreAll(ms, emit), RestoreAll(ms, rest));
    SameEnd(RestoreAll(ms, given + emit), RestoreAll(ms, given) + RestoreAll(ms, emit), RestoreAll(ms, rest));
  }

  lemma {:induction false} PushAll(ms: seq<Mapping>, text: string)
    requires WellFormed(ms) && Safe(ms, text)
    ensures var (emit, rest) := SplitPlaceholderTail(text, LongestPlaceholder(ms));
            RestoreAll(ms, emit) + RestoreAll(ms, rest) == RestoreAll(ms, text)
  {
    var rest := SplitPlaceholderTail(text, LongestPlaceholder(ms)).1;
    assert text + "" == text && rest + "" == rest;
    PushKeeps(ms, text, "");
  }

  /** What goes downstream for some events, and what the buffer holds after them. */
  ghost function Sent(ms: seq<Mapping>, tail: string, a: seq<Event>): (seq<Event>, string)
    decreases |a|
  {
    if a == [] then ([], tail)
    else
      var (sent, rest) := Forwarded(ms, tail, a[0]);
      var (more, last) := Sent(ms, rest, a[1..]);
      (sent + more, last)
  }

  lemma {:induction false} SentThenRest(ms: seq<Mapping>, tail: string, a: seq<Event>, b: seq<Event>)
    ensures var (out, held) := Sent(ms, tail, a); Delivered(ms, tail, a + b) == out + Delivered(ms, held, b)
    decreases |a|
  {
    if a == [] {
      assert a + b == b;
    } else {
      var (sent, rest) := Forwarded(ms, tail, a[0]);
      var (more, last) := Sent(ms, rest, a[1..]);
      assert (a + b)[0] == a[0] && (a + b)[1..] == a[1..] + b;
      SentThenRest(ms, rest, a[1..], b);
      ConcatAssoc(sent, more, Delivered(ms, last, b));
    }
  }

  lemma {:induction false} SentOneForOne(ms: seq<Mapping>, tail: string, a: seq<Event>)
    requires NoDone(a)
    ensures OneForOne(Sent(ms, tail, a).0, a)
    decreases |a|
  {
    if a != [] {
      var (sent, rest) := Forwarded(ms, tail, a[0]);
      assert sent == [sent[0]];
      SentOneForOne(ms, rest, a[1..]);
      OneForOneCons(sent[0], Sent(ms, rest, a[1..]).0, a);
    }
  }

  /** One event before any Done. */
  lemma {:induction false} SentStep(ms: seq<Mapping>, given: string, held: string, e: Event)
    requires WellFormed(ms) && !e.Done? && Safe(ms, given + (held + EventText(e)))
    requires SplitPlaceholderTail(given + held, LongestPlaceholder(ms)) == (given, held)
    ensures var (emit, rest) := SplitPlaceholderTail(given + (held + EventText(e)), LongestPlaceholder(ms));
      Forwarded(ms, held, e).1 == rest && RestoreAll(ms, given) + DeltaText(Forwarded(ms, held, e).0) == RestoreAll(ms, emit)
  {
    var d := EventText(e);
    if d == "" {
      SentNoText(e);
      assert held + d == held && RestoreAll(ms, given) + "" == RestoreAll(ms, given);
    } else {
      SentOne(ms, held, d);
      SplitMore(given, held, d, LongestPlaceholder(ms));
      ReleaseContinues(ms, given, held, d);
    }
  }

  /** What is out, and what is held, depends on the text so far and not on the deltas it came in. */
  lemma {:induction false} SentText(ms: seq<Mapping>, given: string, held: string, a: seq<Event>)
    requires WellFormed(ms) && NoDone(a) && Safe(ms, given + (held + DeltaText(a)))
    requires SplitPlaceholderTail(given + held, LongestPlaceholder(ms)) == (given, held)
    ensures var (out, last) := Sent(ms, held, a);
            var (emit, rest) := SplitPlaceholderTail(given + (held + DeltaText(a)), LongestPlaceholder(ms));
            last == rest && RestoreAll(ms, given) + DeltaText(out) == RestoreAll(ms, emit)
    decreases |a|
  {
    if a == [] {
      assert held + "" == held && RestoreAll(ms, given) + "" == RestoreAll(ms, given);
    } else {
      var e, later := a[0], a[1..];
      var part := held + EventText(e);
      var (sent, rest) := Forwarded(ms, held, e);
      var emit := SplitPlaceholderTail(given + part, LongestPlaceholder(ms)).0;
      TextInParts(given, held, EventText(e), DeltaText(later));
      SafePrefix(ms, given + part, DeltaText(later));
      SentStep(ms, given, held, e);
      ConcatAssoc(emit, rest, DeltaText(later));
      SentText(ms, emit, rest, later);
      var more := Sent(ms, rest, later).0;
      DeltaTextConcat(sent, more);
      ConcatAssoc(RestoreAll(ms, given), DeltaText(sent), DeltaText(more));
    }
  }

  lemma TextInParts(a: string, b: string, c: string, d: string)
    ensures a + (b + (c + d)) == a + (b + c) + d
  {
  }

  lemma {:induction false} SentFromStart(ms: seq<Mapping>, a: seq<Event>)
    requires WellFormed(ms) && NoDone(a) && Safe(ms, DeltaText(a))
    ensures var (out, held) := Sent(ms, "", a);
            var (emit, rest) := SplitPlaceholderTail(DeltaText(a), LongestPlaceholder(ms));
            held == rest && DeltaText(out) == RestoreAll(ms, emit)
  {
    NothingYet(DeltaText(a), LongestPlaceholder(ms));
    SentText(ms, "", "", a);
    OpenFreeIsInert(ms, "");
    NothingYet(DeltaText(Sent(ms, "", a).0), 0);
  }

  lemma NothingYet(text: string, max: nat)
    ensures "" + ("" + text) == text == "" + text
    ensures SplitPlaceholderTail("" + "", max) == ("", "")
  {
  }

  // ---- What a client sees and when --------------------------------------------------------

  /**
    At any time before Done: one event is out for each that came in, in their order, with
    every error as it came, and their text is the restoration of all text that came in but
    for a bracket at its end that is not closed yet and no longer than a placeholder may be.
    What comes out later does not depend on how the text so far was cut.
   */
  lemma {:induction false} DeliveredInTime(ms: seq<Mapping>, a: seq<Event>, b: seq<Event>) returns (out: seq<Event>, given: string, held: string)
    requires WellFormed(ms) && NoDone(a) && Safe(ms, DeltaText(a))
    ensures Delivered(ms, "", a + b) == out + Delivered(ms, held, b)
    ensures OneForOne(out, a)
    ensures given + held == DeltaText(a) && DeltaText(out) == RestoreAll(ms, given)
    ensures if held == "" then forall i :: !OpenedAt(DeltaText(a), i, LongestPlaceholder(ms))
            else OpenedAt(DeltaText(a), |given|, LongestPlaceholder(ms))
  {
    held, out := Sent(ms, "", a).1, Sent(ms, "", a).0;
    given := SplitPlaceholderTail(DeltaText(a), LongestPlaceholder(ms)).0;
    SentThenRest(ms, "", a, b);
    SentOneForOne(ms, "", a);
    SentFromStart(ms, a);
    SplitExactly(DeltaText(a), LongestPlaceholder(ms));
    forall i | OpenedAt(DeltaText(a), i, LongestPlaceholder(ms))
      ensures held != ""
    {
      assert DeltaText(a)[i..] != "";
    }
  }

  /**
    Done comes after all text that came before it: the events before it, the rest of their
    text in one more delta if there is any, Done itself, and then whatever follows as from a
    new start.
   */
  lemma {:induction false} DoneComesLast(ms: seq<Mapping>, a: seq<Event>, b: seq<Event>) returns (out: seq<Event>, flush: seq<Event>)
    requires WellFormed(ms) && NoDone(a) && Safe(ms, DeltaText(a))
    ensures Delivered(ms, "", a + ([Done] + b)) == (out + flush) + ([Done] + Delivered(ms, "", b))
    ensures OneForOne(out, a) && |flush| <= 1 && (forall e | e in flush :: e.Delta? && e.text != "")
    ensures DeltaText(out + flush) == RestoreAll(ms, DeltaText(a))
  {
    var given, held;
    out, given, held := DeliveredInTime(ms, a, [Done] + b);
    flush := Released(ms, held);
    FlushText(ms, a, out, given, held);
    assert ([Done] + b)[1..] == b;
    ConcatAssoc(flush, [Done], Delivered(ms, "", b));
    ConcatAssoc(out, flush, [Done] + Delivered(ms, "", b));
  }

  /** A stream closed without Done ends in the same way. */
  lemma {:induction false} CloseFlushes(ms: seq<Mapping>, a: seq<Event>) returns (out: seq<Event>, flush: seq<Event>)
    requires WellFormed(ms) && NoDone(a) && Safe(ms, DeltaText(a))
    ensures Delivered(ms, "", a) == out + flush
    ensures OneForOne(out, a) && |flush| <= 1 && (forall e | e in flush :: e.Delta? && e.text != "")
    ensures DeltaText(out + flush) == RestoreAll(ms, DeltaText(a))
  {
    var given, held;
    out, given, held := DeliveredInTime(ms, a, []);
    flush := Released(ms, held);
    FlushText(ms, a, out, given, held);
    assert a + [] == a;
  }

  lemma {:induction false} FlushText(ms: seq<Mapping>, a: seq<Event>, out: seq<Event>, given: string, held: string)
    requires WellFormed(ms) && Safe(ms, DeltaText(a)) && given + held == DeltaText(a) && DeltaText(out) == RestoreAll(ms, given)
    requires if held == "" then forall i :: !OpenedAt(DeltaText(a), i, LongestPlaceholder(ms))
             else OpenedAt(DeltaText(a), |given|, LongestPlaceholder(ms))
    ensures DeltaText(out + Released(ms, held)) == RestoreAll(ms, DeltaText(a))
  {
    var text := DeltaText(a);
    if held == "" {
      SplitNowhere(text, LongestPlaceholder(ms));
    } else {
      SplitAtOpen(text, |given|, LongestPlaceholder(ms));
      assert text[..|given|] == given && text[|given|..] == held;
    }
    assert given + "" == given;
    PushAll(ms, text);
    SafeSuffix(ms, given, held);
    FlushKeeps(ms, held);
    DeltaTextConcat(out, Released(ms, held));
  }

  /** Events that are not deltas. */
  function Signals(events: seq<Event>): seq<Event> {
    if events == [] then []
    else (if events[0].Delta? then [] else [events[0]]) + Signals(events[1..])
  }

  lemma {:induction false} SignalsConcat(a: seq<Event>, b: seq<Event>)
    ensures Signals(a + b) == Signals(a) + Signals(b)
  {
    if a == [] {
      assert a + b == b;
    } else {
      assert (a + b)[1..] == a[1..] + b;
      SignalsConcat(a[1..], b);
    }
  }

  /** Every Done and every error goes through, in order, none added. */
  lemma {:induction false} SignalsKept(ms: seq<Mapping>, tail: string, upstream: seq<Event>)
    ensures Signals(Delivered(ms, tail, upstream)) == Signals(upstream)
    decreases |upstream|
  {
    SignalsOfFlush(ms, tail);
    if upstream != [] {
      var event := upstream[0];
      var (sent, rest) := Forwarded(ms, tail, event);
      SignalsKept(ms, rest, upstream[1..]);
      SentSignals(ms, tail, event);
      SignalsConcat(sent, Delivered(ms, rest, upstream[1..]));
    }
  }

  lemma {:induction false} SentSignals(ms: seq<Mapping>, tail: string, event: Event)
    ensures Signals(Forwarded(ms, tail, event).0) == if event.Delta? then [] else [event]
  {
    var sent := Forwarded(ms, tail, event).0;
    SignalsOfFlush(ms, tail);
    if event.Done? {
      SignalsConcat(Released(ms, tail), [event]);
    }
    SignalOne(sent[|sent| - 1]);
    assert sent == [sent[0]] || event.Done?;
  }

  lemma {:induction false} SignalOne(e: Event)
    ensures Signals([e]) == if e.Delta? then [] else [e]
  {
    assert Signals([]) == [] && [e][1..] == [];
  }

  lemma {:induction false} SignalsOfFlush(ms: seq<Mapping>, tail: string)
    ensures Signals(Released(ms, tail)) == []
  {
    if Released(ms, tail) != [] {
      SignalOne(Released(ms, tail)[0]);
    }
  }
}
