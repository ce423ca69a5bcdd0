/** The two ways to get an answer through the gateway, at once and as a stream, agree. */
module StreamedAnswers {
  import opened Wrappers
  import opened Restore
  import opened Mapper
  import opened Processor
  import opened Routing
  import opened Decorator
  import opened Cuts
  import opened TailBuffer
  import Pipeline

  ghost predicate AuditsHold(env: Env) {
    env.hasAudits && forall n :: !env.auditFails(n)
  }

  /** When no audit fails, or none is due, the goroutine delivers what the buffer does. */
  lemma {:induction false} RestreamedIsDelivered(env: Env, audits: seq<AuditEntry>, ms: seq<Entry>, tail: string, original: ChatRequest,
                                                 forced: bool, upstream: seq<TailBuffer.Event>)
    requires |env.found| == |env.ner| == |original.messages| && (AuditsHold(env) || !forced)
    ensures Restreamed(env, audits, ms, tail, original, forced, upstream).0 == Delivered(ms, tail, upstream)
    decreases |upstream|
  {
    if upstream != [] {
      var event := upstream[0];
      var after := if event.Error? && forced then audits + [FailureEntry(env, original, ErrorOf(event.reason))] else audits;
      RestreamedIsDelivered(env, after, ms, Forwarded(ms, tail, event).1, original, forced, upstream[1..]);
    }
  }

  lemma PrefixOfRest(a: string, b: string, c: string)
    requires b <= c
    ensures a + b <= a + c
  {
  }

  /** A stream cut short by a failing audit has delivered a beginning of the restored text. */
  lemma {:induction false} RestreamedIsPrefix(env: Env, audits: seq<AuditEntry>, ms: seq<Entry>, tail: string, original: ChatRequest,
                                              forced: bool, upstream: seq<TailBuffer.Event>)
    requires |env.found| == |env.ner| == |original.messages|
    requires WellFormed(ms) && Safe(ms, tail + DeltaText(upstream)) && DoneIsLast(upstream)
    ensures DeltaText(Restreamed(env, audits, ms, tail, original, forced, upstream).0) <= RestoreAll(ms, tail + DeltaText(upstream))
    decreases |upstream|
  {
    if upstream == [] {
      assert tail + "" == tail;
      FlushKeeps(ms, tail);
    } else if upstream[0].Error? && forced && AuditFails(env, audits) {
      SentNoText(TailBuffer.Error(TailBuffer.DesensitizationIncomplete));
    } else {
      var event, later := upstream[0], upstream[1..];
      var after := if event.Error? && forced then audits + [FailureEntry(env, original, ErrorOf(event.reason))] else audits;
      var (sent, rest) := Forwarded(ms, tail, event);
      FirstForwarded(ms, tail, upstream);
      RestreamedIsPrefix(env, after, ms, rest, original, forced, later);
      var out := Restreamed(env, after, ms, rest, original, forced, later).0;
      DeltaTextConcat(sent, out);
      PrefixOfRest(DeltaText(sent), DeltaText(out), RestoreAll(ms, rest + DeltaText(later)));
    }
  }

  /** A request is made ready with no mappings, or with those of the processor's output. */
  lemma PreparedMappings(env: Env, policies: Policies, audits: seq<AuditEntry>, req: ChatRequest, target: string)
    requires Fits(env, req)
    ensures var p := Prepare(env, policies, audits, req, target).0;
      p.Ready? ==>
        || p.mappings == []
        || p.mappings == Sanitized(req.messages, HitsFor(env.found, env.ner, UsesNer(env))).0.mappings
        || p.mappings == Sanitized(req.messages, HitsFor(env.found, env.ner, false)).0.mappings
  {
  }

  lemma {:induction false} DispatchedMappings(env: Env, policies: Policies, audits: seq<AuditEntry>, req: ChatRequest)
    requires Fits(env, req)
    ensures var p := Dispatched(env, policies, audits, req).0;
      p.Ready? ==>
        && WellFormed(p.mappings)
        && (PlainRequest(env, req) ==> OriginalsOpenFree(p.mappings))
  {
    var target := TargetNetwork(env, req.route);
    if target.Ok? {
      PreparedMappings(env, policies, audits, req, target.value);
      SanitizedMappings(env, req, UsesNer(env));
      SanitizedMappings(env, req, false);
    }
  }

  /** The recognizers report text of messages that hold no opening bracket. */
  ghost predicate PlainRequest(env: Env, req: ChatRequest) {
    AnswersFromText(req.messages, env.found, env.ner) && Pipeline.AllOpenFree(req.messages)
  }

  lemma {:induction false} SanitizedMappings(env: Env, req: ChatRequest, hasNer: bool)
    requires |env.found| == |env.ner| == |req.messages|
    ensures var ms := Sanitized(req.messages, HitsFor(env.found, env.ner, hasNer)).0.mappings;
      WellFormed(ms) && (PlainRequest(env, req) ==> OriginalsOpenFree(ms))
  {
    Pipeline.ListIsWellFormed(req.messages, HitsFor(env.found, env.ner, hasNer));
    if PlainRequest(env, req) {
      UsedHitsFromText(req.messages, env.found, env.ner, hasNer);
      Pipeline.OpenFreeRequest(req.messages, HitsFor(env.found, env.ner, hasNer));
    }
  }

  /**
    Complete and Stream on the same request, when the backend streams in any deltas the text
    it would answer at once: they make the same backend call and fail in the same cases.
    Otherwise the text streamed to the client is the text returned, or a beginning of it when
    an audit fails on the way.  The messages may hold what they like when assembly does no
    harm in the request's mapping list.
   */
  lemma {:induction false} StreamMatchesComplete(env: Env, policies: Policies, audits: seq<AuditEntry>, req: ChatRequest)
    requires Fits(env, req)
    requires env.reply.Ok? && env.stream.Ok? && DeltaText(env.stream.value) == env.reply.value && DoneIsLast(env.stream.value)
    requires var p := Dispatched(env, policies, audits, req).0;
      p.Ready? ==> HarmlessAssembly(p.mappings) || (PlainRequest(env, req) && NoNesting(env.reply.value))
    ensures var c, s := Completed(env, policies, audits, req), Streamed(env, policies, audits, req);
      && c.sent == s.sent
      && (c.reply.Err? ==> s.reply == Err(c.reply.error) && s.audits == c.audits)
      && (c.reply.Ok? ==> s.reply.Ok? && DeltaText(s.reply.value) <= c.reply.value)
      && (c.reply.Ok? && AuditsHold(env) ==> DeltaText(s.reply.value) == c.reply.value)
  {
    var (p, trail, sent) := Dispatched(env, policies, audits, req);
    if p.Ready? && sent != [] {
      var text, upstream := env.reply.value, env.stream.value;
      var forced := ForcedPrivate(p.request, TargetNetwork(env, req.route).value);
      DispatchedMappings(env, policies, audits, req);
      assert "" + text == text;
      RestreamedIsPrefix(env, trail, p.mappings, "", req, forced, upstream);
      if AuditsHold(env) {
        RestreamedIsDelivered(env, trail, p.mappings, "", req, forced, upstream);
        StreamEqualsBatch(p.mappings, "", upstream);
      }
    }
  }
}
