/**
  What the gateway promises to the outside, said without its own decision functions: what a
  public model is sent, what an echo becomes, what is put on record, and how a stream ends.
 */
module GatewayPromises {
  import opened Text
  import opened ModelConfigs
  import opened Wrappers
  import opened Merge
  import opened Restore
  import opened Mapper
  import opened Processor
  import opened RoundTripExactness
  import opened Routing
  import opened Decorator
  import opened StreamedAnswers
  import Cuts
  import TailBuffer
  import Pipeline

  // ---- What is sent ---------------------------------------------------------------------

  /** NER is used and answers for every message. */
  predicate NerAnswers(env: Env) {
    UsesNer(env) && forall k | 0 <= k < |env.ner| :: env.ner[k].Found?
  }

  /** The hits the processor works with for this request. */
  function HitsOf(env: Env): seq<seq<Hit>>
    requires |env.found| == |env.ner|
  {
    HitsFor(env.found, env.ner, NerAnswers(env))
  }

  lemma {:induction false} NerOutcome(env: Env)
    ensures NerAnswers(env) <==> UsesNer(env) && FirstFailure(env.ner) == |env.ner|
  {
  }

  /**
    A request made ready carries its own messages and nothing to restore, or the processor's
    output together with the mappings that belong to it; the latter whenever it is neither
    private already nor forced to be.
   */
  lemma {:induction false} PreparedPair(env: Env, policies: Policies, audits: seq<AuditEntry>, req: ChatRequest, target: string)
    requires Fits(env, req)
    ensures var p := Prepare(env, policies, audits, req, target).0;
      p.Ready? ==>
        var (st, out) := Sanitized(req.messages, HitsOf(env));
        || (p.request.messages == req.messages && p.mappings == [] && (target == PRIVATE || p.request.route.requirePrivate))
        || (p.request.messages == out && p.mappings == st.mappings && target != PRIVATE && env.hasProcessor)
  {
    NerOutcome(env);
  }

  lemma {:induction false} DispatchedPair(env: Env, policies: Policies, audits: seq<AuditEntry>, req: ChatRequest)
    requires Fits(env, req)
    ensures var (p, trail, sent) := Dispatched(env, policies, audits, req);
      && (forall s | s in sent :: p.Ready? && s.request == p.request)
      && (p.Ready? ==>
            var (st, out) := Sanitized(req.messages, HitsOf(env));
            (p.request.messages == req.messages && p.mappings == []) || (p.request.messages == out && p.mappings == st.mappings))
  {
    var target := TargetNetwork(env, req.route);
    if target.Ok? {
      PreparedPair(env, policies, audits, req, target.value);
    }
  }

  /**
    Whatever reaches a network that is not private is, message by message, the text of the
    request with reported spans replaced, and no span that was reported is passed over: none
    of regular expressions and dictionary, and none of NER if it answered.
   */
  lemma {:induction false} SentIsMasked(env: Env, policies: Policies, audits: seq<AuditEntry>, req: ChatRequest, s: Sent)
    returns (hs: seq<seq<Hit>>, added: seq<seq<MatchDetail>>)
    requires Fits(env, req) && Sound(policies) && CurrentsAgree(env.configs)
    requires AllInRange(req.messages, env.found, env.ner, NerAnswers(env))
    requires s in Dispatched(env, policies, audits, req).2 && s.config.network != PRIVATE
    ensures AllMasked(req.messages, env.found, env.ner, NerAnswers(env), 0, s.request.messages, hs, added)
  {
    var target := TargetNetwork(env, req.route).value;
    var p := Prepare(env, policies, audits, req, target).0;
    if target == PRIVATE {
      DecisionsAgree(env, req.route);
    }
    PreparedPair(env, policies, audits, req, target);
    if p.request.route.requirePrivate {
      PrivateRouteIsPrivate(env, p.request.route);
    }
    hs, added := SanitizedIsMasked(req.messages, env.found, env.ner, NerAnswers(env));
  }

  // ---- Echo -----------------------------------------------------------------------------

  /**
    A model that answers with a message it was sent gives the caller the message of the
    request: on every way the request can take, for every message that spells no placeholder.
   */
  lemma {:induction false} EchoCompletes(env: Env, policies: Policies, audits: seq<AuditEntry>, req: ChatRequest, s: Sent, k: nat)
    requires Fits(env, req) && AnswersFromText(req.messages, env.found, env.ner)
    requires Completed(env, policies, audits, req).sent == [s] && k < |s.request.messages|
    requires env.reply == Ok(s.request.messages[k].content)
    requires k < |req.messages| ==> !SpellsPlaceholder(req.messages[k].content)
    ensures |s.request.messages| == |req.messages|
    ensures Completed(env, policies, audits, req).reply == Ok(req.messages[k].content)
  {
    var (p, trail, sent) := Dispatched(env, policies, audits, req);
    DispatchedPair(env, policies, audits, req);
    assert s in sent;
    if p.mappings != [] || p.request.messages != req.messages {
      UsedHitsFromText(req.messages, env.found, env.ner, NerAnswers(env));
      NothingSpelled(req.messages, HitsOf(env), k);
      assert ComesBack(req.messages, HitsOf(env), k);
    }
  }

  /** The same for a model that streams the message, in whatever deltas. */
  lemma {:induction false} EchoStreams(env: Env, policies: Policies, audits: seq<AuditEntry>, req: ChatRequest, s: Sent, k: nat)
    requires Fits(env, req) && PlainRequest(env, req) && AuditsHold(env)
    requires Streamed(env, policies, audits, req).sent == [s] && k < |s.request.messages|
    requires env.stream.Ok? && TailBuffer.DoneIsLast(env.stream.value)
    requires TailBuffer.DeltaText(env.stream.value) == s.request.messages[k].content
    ensures |s.request.messages| == |req.messages|
    ensures Streamed(env, policies, audits, req).reply.Ok?
    ensures TailBuffer.DeltaText(Streamed(env, policies, audits, req).reply.value) == req.messages[k].content
  {
    var (p, trail, sent) := Dispatched(env, policies, audits, req);
    var upstream := env.stream.value;
    DispatchedPair(env, policies, audits, req);
    assert s in sent;
    RestreamedIsDelivered(env, trail, p.mappings, "", req, ForcedPrivate(p.request, TargetNetwork(env, req.route).value), upstream);
    if p.mappings == [] && p.request.messages == req.messages {
      assert "" + TailBuffer.DeltaText(upstream) == TailBuffer.DeltaText(upstream);
      TailBuffer.StreamEqualsBatch(p.mappings, "", upstream);
    } else {
      UsedHitsFromText(req.messages, env.found, env.ner, NerAnswers(env));
      Pipeline.EchoComesBack(req.messages, HitsOf(env), k, upstream);
    }
  }

  // ---- Where a request may go -----------------------------------------------------------

  /** The config a named route leads to, or why it leads to none. */
  lemma NamedRoute(env: Env, id: string, requirePrivate: bool)
    requires Listed(env) && id != ""
    ensures var r := ResolveConfig(env, Route(id, requirePrivate));
      if id !in env.configs then r == Err(ConfigNotFound)
      else if !env.configs[id].enabled then r == Err(ConfigDisabled)
      else if requirePrivate && env.configs[id].network != PRIVATE then r == Err(NoAvailablePrivateConfig)
      else r == Ok(env.configs[id])
  {
  }

  ghost predicate Listed(env: Env) {
    Filed(env.configs) && Enumerates(env.resolverOrder, env.configs) && Enumerates(env.routerOrder, env.configs)
  }

  /** A private route that names no config leads to an enabled private one, if there is any. */
  lemma {:induction false} UnnamedPrivateRoute(env: Env)
    requires Listed(env)
    ensures var r := ResolveConfig(env, Route("", true));
      && (r.Ok? ==> r.value.enabled && r.value.network == PRIVATE && exists id :: id in env.configs && r.value == env.configs[id])
      && (r.Err? ==> r.error == NoAvailablePrivateConfig
                     && forall id | id in env.configs :: !(env.configs[id].enabled && env.configs[id].network == PRIVATE))
  {
    var r := FirstPrivate(env.configs, env.routerOrder, false);
    if r.Ok? {
      var i :| 0 <= i < |env.routerOrder| && FirstUsable(env.configs, env.routerOrder, false, i) && r.value == env.configs[env.routerOrder[i]];
      assert env.routerOrder[i] in env.configs;
    } else {
      forall id | id in env.configs
        ensures !UsablePrivately(env.configs[id], false)
      {
        var i :| 0 <= i < |env.routerOrder| && env.routerOrder[i] == id;
      }
    }
  }

  /** Any other route leads to a current config, if there is one. */
  lemma {:induction false} CurrentRoute(env: Env)
    requires Listed(env)
    ensures var r := ResolveConfig(env, Route("", false));
      && (r.Ok? ==> exists id :: id in env.configs && r.value == env.configs[id] && r.value.isCurrent)
      && (r.Err? ==> r.error == ConfigNotFound && forall id | id in env.configs :: !env.configs[id].isCurrent)
  {
    var r := Current(env.configs, env.routerOrder);
    if r.Ok? {
      var id :| id in env.configs && env.configs[id] == r.value;
    }
  }

  /** The network the gateway takes a route for. */
  lemma {:induction false} TargetOf(env: Env, route: Route)
    requires Listed(env)
    ensures var t := TargetNetwork(env, route);
      if route.requirePrivate then t == Ok(PRIVATE)
      else if route.configID != "" then
        if !env.hasResolver then t == Ok(PUBLIC)
        else if route.configID in env.configs then t == Ok(env.configs[route.configID].network)
        else t == Err(ConfigNotFound)
      else
        && (t.Ok? ==> exists id :: id in env.configs && env.configs[id].isCurrent && env.configs[id].network == t.value)
        && (t.Err? ==> t == Err(Upstream) || forall id | id in env.configs :: !env.configs[id].isCurrent)
  {
    if !route.requirePrivate && route.configID == "" {
      var r := Current(env.configs, if env.hasResolver then env.resolverOrder else env.routerOrder);
      if r.Ok? {
        var id :| id in env.configs && env.configs[id] == r.value;
      }
    }
  }

  // ---- What is put on record ------------------------------------------------------------

  /** One entry more, for this request. */
  ghost predicate OneMore(audits: seq<AuditEntry>, after: seq<AuditEntry>, req: ChatRequest, event: DispositionEvent, reason: DispositionReason,
                          matches: nat)
  {
    && |after| == |audits| + 1 && audits <= after
    && var e := after[|audits|];
    && e.event == event && e.reason == reason && e.level == NormalizeLevel(req.level) && e.matches == matches
    && (if req.actorID == "" then e.actorID == "system" else e.actorID == req.actorID)
    && (if req.requestID == "" then e.requestID == "unknown" else e.requestID == req.requestID)
  }

  /** The recognizer outage that decides about a request, if there is one. */
  ghost predicate FirstOutage(env: Env, error: NerError) {
    UsesNer(env) && exists k :: FailsFirstAt(env.ner, k, error)
  }

  /** A config that can take over confidential content: enabled, probed with success, and private. */
  ghost predicate ReadyPrivately(env: Env, id: string) {
    id in env.configs && env.configs[id].enabled && env.configs[id].probePassed && env.configs[id].network == PRIVATE
  }

  /** NER down: to a usable private config if there is one, else degraded if the policy allows it, else not at all. */
  lemma {:induction false} OutageDisposition(env: Env, policies: Policies, audits: seq<AuditEntry>, req: ChatRequest, target: string, error: NerError)
    requires Fits(env, req) && target != PRIVATE && AuditsHold(env) && env.hasProcessor && FirstOutage(env, error)
    requires PolicyFor(policies, req.level).targetNetwork != PRIVATE
    ensures var policy, (p, after) := PolicyFor(policies, req.level), Prepare(env, policies, audits, req, target);
      var plain := Sanitized(req.messages, HitsFor(env.found, env.ner, false));
      var id := if policy.modelConfigID != "" then policy.modelConfigID else req.route.configID;
      if error == OtherNerError then p == Refused(ProcessorFailed) && after == audits
      else if env.hasResolver && exists c :: ReadyPrivately(env, c) then
        && p.Ready? && p.mappings == [] && p.request.messages == req.messages && p.request.route.requirePrivate
        && ReadyPrivately(env, p.request.route.configID)
        && OneMore(audits, after, req, RoutePrivate, NerUnavailablePrivateAvailable, |plain.0.matches|)
      else if policy.allowDegradedPublic && !Confidential(policy.level) then
        && p == Ready(req.(route := Route(id, false), messages := plain.1), plain.0.mappings)
        && OneMore(audits, after, req, DegradedPublic, NerUnavailableDegradedPublic, |plain.0.matches|)
      else
        p == Refused(DesensitizationIncomplete)
        && OneMore(audits, after, req, Blocked, NerUnavailableNoPrivateNoDegrade, |plain.0.matches|)
  {
    var k :| FailsFirstAt(env.ner, k, error);
    var i := FirstFailure(env.ner);
    assert i == k;
    PrivateRouteFound(env);
  }

  lemma {:induction false} PrivateRouteFound(env: Env)
    requires Filed(env.configs) && Enumerates(env.privateOrder, env.configs)
    ensures var r := FirstPrivate(env.configs, env.privateOrder, true);
      && (r.Ok? <==> exists c :: ReadyPrivately(env, c))
      && (r.Ok? ==> ReadyPrivately(env, r.value.id))
  {
    var r := FirstPrivate(env.configs, env.privateOrder, true);
    if r.Ok? {
      var i :| 0 <= i < |env.privateOrder| && FirstUsable(env.configs, env.privateOrder, true, i) && r.value == env.configs[env.privateOrder[i]];
      assert ReadyPrivately(env, env.privateOrder[i]);
    } else {
      forall c | c in env.configs
        ensures !ReadyPrivately(env, c)
      {
        var i :| 0 <= i < |env.privateOrder| && env.privateOrder[i] == c;
      }
    }
  }

  /** All other cases: private by policy, private for want of a processor, or sanitized. */
  lemma {:induction false} NormalDisposition(env: Env, policies: Policies, audits: seq<AuditEntry>, req: ChatRequest, target: string)
    requires Fits(env, req) && target != PRIVATE && AuditsHold(env)
    ensures var policy, (p, after) := PolicyFor(policies, req.level), Prepare(env, policies, audits, req, target);
      if policy.targetNetwork == PRIVATE then
        && p == Ready(req.(route := Route(policy.modelConfigID, true)), [])
        && OneMore(audits, after, req, RoutePrivate, ClassificationPrivate, 0)
      else if !env.hasProcessor then
        && p == Ready(req.(route := Route("", true)), [])
        && OneMore(audits, after, req, RoutePrivate, ProcessorMissingPrivate, 0)
      else if !UsesNer(env) || NerAnswers(env) then
        var (st, out) := Sanitized(req.messages, HitsOf(env));
        && p == Ready(req.(messages := out, route := if policy.modelConfigID != "" then Route(policy.modelConfigID, false) else req.route), st.mappings)
        && OneMore(audits, after, req, PublicSanitized, NormalPublicCall, |st.matches|)
      else exists error :: FirstOutage(env, error)
  {
    NerOutcome(env);
    var i := FirstFailure(env.ner);
    if UsesNer(env) && i < |env.ner| {
      assert FailsFirstAt(env.ner, i, env.ner[i].error);
      assert FirstOutage(env, env.ner[i].error);
    }
  }

  /** Without audits nothing is made ready that was not private already. */
  lemma NothingUnrecorded(env: Env, policies: Policies, audits: seq<AuditEntry>, req: ChatRequest, target: string)
    requires Fits(env, req) && target != PRIVATE && (!env.hasAudits || env.auditFails(|audits|))
    ensures var (p, after) := Prepare(env, policies, audits, req, target); p.Refused? && after == audits
  {
  }

  /** Why a call was blocked, as far as it is told apart. */
  ghost predicate TellsWhy(reason: DispositionReason, error: Error) {
    if error.NoAvailablePrivateConfig? then reason == ReasonNoAvailablePrivateConfig
    else if error.DesensitizationIncomplete? then reason == ReasonDesensitizationIncomplete
    else reason == PrivateRuntimeFailure
  }

  /** A call that fails is put on record exactly when the gateway had forced it onto a private route; its error is what the caller gets. */
  lemma {:induction false} FailureOnRecord(env: Env, policies: Policies, audits: seq<AuditEntry>, req: ChatRequest)
    requires Fits(env, req) && AuditsHold(env)
    requires var (p, trail, sent) := Dispatched(env, policies, audits, req); p.Ready? && (sent == [] || env.reply.Err?)
    ensures var (p, trail, sent) := Dispatched(env, policies, audits, req);
      var c, target := Completed(env, policies, audits, req), TargetNetwork(env, req.route).value;
      var cause := if sent == [] then ResolveConfig(env, p.request.route).error else env.reply.error;
      && c.reply == Err(cause)
      && (if target != PRIVATE && p.request.route.requirePrivate then
            exists reason, matches :: TellsWhy(reason, cause) && OneMore(trail, c.audits, req, Blocked, reason, matches)
          else c.audits == trail)
  {
    var (p, trail, sent) := Dispatched(env, policies, audits, req);
    var target := TargetNetwork(env, req.route).value;
    var cause := if sent == [] then ResolveConfig(env, p.request.route).error else env.reply.error;
    FailureEntered(env, trail, req, p.request, target, cause);
  }

  lemma {:induction false} FailureEntered(env: Env, trail: seq<AuditEntry>, req: ChatRequest, prepared: ChatRequest, target: string, cause: Error)
    requires Fits(env, req) && AuditsHold(env)
    ensures var (error, after) := RuntimeFailure(env, trail, req, prepared, target, cause);
      && error == cause
      && (if target != PRIVATE && prepared.route.requirePrivate then
            exists reason, matches :: TellsWhy(reason, cause) && OneMore(trail, after, req, Blocked, reason, matches)
          else after == trail)
  {
    var entry := FailureEntry(env, req, cause);
    if target != PRIVATE && prepared.route.requirePrivate {
      assert TellsWhy(entry.reason, cause) && OneMore(trail, trail + [entry], req, Blocked, entry.reason, entry.matches);
    }
  }

  // ---- How a stream ends ------------------------------------------------------------------

  function ErrorEvents(events: seq<TailBuffer.Event>): seq<TailBuffer.ErrorReason> {
    if events == [] then [] else (if events[0].Error? then [events[0].reason] else []) + ErrorEvents(events[1..])
  }

  /** Each new entry blocks and tells the reason of its error event. */
  ghost predicate Reports(added: seq<AuditEntry>, reasons: seq<TailBuffer.ErrorReason>, req: ChatRequest) {
    |added| == |reasons| && forall i | 0 <= i < |reasons| ::
      added[i].event == Blocked && TellsWhy(added[i].reason, ErrorOf(reasons[i])) && added[i].level == NormalizeLevel(req.level)
  }

  lemma {:induction false} ReportsCons(entry: AuditEntry, added: seq<AuditEntry>, reason: TailBuffer.ErrorReason, reasons: seq<TailBuffer.ErrorReason>,
                                       req: ChatRequest)
    requires Reports(added, reasons, req)
    requires entry.event == Blocked && TellsWhy(entry.reason, ErrorOf(reason)) && entry.level == NormalizeLevel(req.level)
    ensures Reports([entry] + added, [reason] + reasons, req)
  {
  }

  lemma {:induction false} HeadOf(upstream: seq<TailBuffer.Event>, m: nat)
    requires m < |upstream|
    ensures var event, rest := upstream[0], upstream[1..][..m];
      && TailBuffer.Signals(upstream[..m + 1]) == (if event.Delta? then [] else [event]) + TailBuffer.Signals(rest)
      && ErrorEvents(upstream[..m + 1]) == if event.Error? then [event.reason] + ErrorEvents(rest) else ErrorEvents(rest)
  {
    assert upstream[..m + 1][1..] == upstream[1..][..m] && upstream[..m + 1][0] == upstream[0];
    assert [] + ErrorEvents(upstream[1..][..m]) == ErrorEvents(upstream[1..][..m]);
  }

  /**
    Every Done and every error event goes through in order.  When the gateway had forced the
    route, each error is put on record first; one that cannot be ends the stream in its place.
   */
  lemma {:induction false} StreamSignals(env: Env, audits: seq<AuditEntry>, ms: seq<Entry>, tail: string, original: ChatRequest,
                                         forced: bool, upstream: seq<TailBuffer.Event>) returns (n: nat, added: seq<AuditEntry>)
    requires |env.found| == |env.ner| == |original.messages|
    ensures n <= |upstream|
    ensures var (out, trail) := Restreamed(env, audits, ms, tail, original, forced, upstream);
      && trail == audits + added
      && Reports(added, if forced then ErrorEvents(upstream[..n]) else [], original)
      && (if n == |upstream| then TailBuffer.Signals(out) == TailBuffer.Signals(upstream)
          else upstream[n].Error? && forced && AuditFails(env, trail)
               && TailBuffer.Signals(out) == TailBuffer.Signals(upstream[..n]) + [TailBuffer.Error(TailBuffer.DesensitizationIncomplete)])
    decreases |upstream|
  {
    var stop := TailBuffer.Error(TailBuffer.DesensitizationIncomplete);
    if upstream == [] {
      n, added := 0, [];
      TailBuffer.SignalsOfFlush(ms, tail);
      assert upstream[..0] == [];
    } else if upstream[0].Error? && forced && AuditFails(env, audits) {
      n, added := 0, [];
      TailBuffer.SignalOne(stop);
      assert upstream[..0] == [] && [] + [stop] == [stop];
    } else {
      var event := upstream[0];
      var entries := if event.Error? && forced then [FailureEntry(env, original, ErrorOf(event.reason))] else [];
      var (sent, rest) := TailBuffer.Forwarded(ms, tail, event);
      var after := if event.Error? && forced then audits + entries else audits;
      var m, more := StreamSignals(env, after, ms, rest, original, forced, upstream[1..]);
      n, added := m + 1, entries + more;
      var (later, trail) := Restreamed(env, after, ms, rest, original, forced, upstream[1..]);
      HeadOf(upstream, m);
      TailBuffer.SentSignals(ms, tail, event);
      TailBuffer.SignalsConcat(sent, later);
      ConcatAssoc(audits, entries, more);
      ConcatAssoc(if event.Delta? then [] else [event], TailBuffer.Signals(upstream[1..][..m]), [stop]);
      if event.Error? && forced {
        ReportsCons(entries[0], more, event.reason, ErrorEvents(upstream[1..][..m]), original);
      } else {
        assert [] + more == more;
      }
    }
  }

  /**
    A stream that ends in Done, as it reaches the caller: one event for each, the rest of the
    text if there is any, and Done as the very last; its text is what a complete answer with
    the same text would be restored to.
   */
  lemma {:induction false} StreamEndsInDone(env: Env, policies: Policies, audits: seq<AuditEntry>, req: ChatRequest, a: seq<TailBuffer.Event>)
    returns (out: seq<TailBuffer.Event>, flush: seq<TailBuffer.Event>)
    requires Fits(env, req) && AuditsHold(env) && env.stream == Ok(a + ([TailBuffer.Done] + [])) && TailBuffer.NoDone(a)
    requires var (p, trail, sent) := Dispatched(env, policies, audits, req);
      p.Ready? && sent != [] && Cuts.Safe(p.mappings, TailBuffer.DeltaText(a))
    ensures Streamed(env, policies, audits, req).reply == Ok((out + flush) + [TailBuffer.Done])
    ensures TailBuffer.OneForOne(out, a) && |flush| <= 1 && (forall e | e in flush :: e.Delta? && e.text != "")
    ensures TailBuffer.DeltaText(out + flush) == RestoreAll(Dispatched(env, policies, audits, req).0.mappings, TailBuffer.DeltaText(a))
  {
    var (p, trail, sent) := Dispatched(env, policies, audits, req);
    DispatchedMappings(env, policies, audits, req);
    RestreamedIsDelivered(env, trail, p.mappings, "", req, ForcedPrivate(p.request, TargetNetwork(env, req.route).value), env.stream.value);
    out, flush := TailBuffer.DoneComesLast(p.mappings, a, []);
    assert TailBuffer.Delivered(p.mappings, "", []) == [] by {
      Cuts.OpenFreeIsInert(p.mappings, "");
    }
    assert [TailBuffer.Done] + [] == [TailBuffer.Done];
  }
}
