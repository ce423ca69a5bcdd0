/** The gateway decorator: where a request may go, in what form, and with what audit trail. */
module Decorator {
  import opened ModelConfigs
  import opened Wrappers
  import opened Merge
  import opened Mapper
  import opened Processor
  import opened Routing
  import ConfigService
  import Text
  import Restore
  import TailBuffer

  datatype Route = Route(configID: string, requirePrivate: bool)

  datatype ChatRequest = ChatRequest(messages: seq<Message>, route: Route, level: string, actorID: string, requestID: string)

  datatype DispositionEvent = PublicSanitized | RoutePrivate | DegradedPublic | Blocked

  datatype DispositionReason =
    | NormalPublicCall | ClassificationPrivate | ProcessorMissingPrivate | NerUnavailablePrivateAvailable
    | NerUnavailableDegradedPublic | NerUnavailableNoPrivateNoDegrade | PrivateRuntimeFailure
    | ReasonNoAvailablePrivateConfig | ReasonDesensitizationIncomplete

  datatype AuditEntry = AuditEntry(actorID: string, requestID: string, level: string,
                                   event: DispositionEvent, reason: DispositionReason, matches: nat)

  /**
    What surrounds one request: a snapshot of the config store and the orders in which it
    is listed, the parts the decorator was built with, and the answers of the recognizers,
    the audit store and the backend (to a complete and to a streaming call).  `auditFails(n)`
    is the answer to an audit after `n` others.
   */
  datatype Env = Env(configs: Configs, resolverOrder: seq<string>, privateOrder: seq<string>, routerOrder: seq<string>,
                     hasResolver: bool, hasProcessor: bool, contextual: bool, hasNer: bool,
                     found: seq<seq<Hit>>, ner: seq<NerReply>,
                     hasAudits: bool, auditFails: nat -> bool,
                     reply: Result<string, Error>, stream: Result<seq<TailBuffer.Event>, Error>)

  ghost predicate Fits(env: Env, req: ChatRequest) {
    && |env.found| == |env.ner| == |req.messages|
    && Filed(env.configs)
    && Enumerates(env.resolverOrder, env.configs)
    && Enumerates(env.privateOrder, env.configs)
    && Enumerates(env.routerOrder, env.configs)
  }

  // ---- Resolving networks and configs ------------------------------------------------------

  function NetworkForRoute(env: Env, route: Route): Result<string, Error>
    requires forall id | id in env.resolverOrder :: id in env.configs
  {
    if route.requirePrivate then Ok(PRIVATE)
    else
      var cfg := if route.configID != "" then Get(env.configs, route.configID) else Current(env.configs, env.resolverOrder);
      if cfg.Ok? then Ok(cfg.value.network) else Err(cfg.error)
  }

  /** Fit for confidential content; `probed` asks for a passed probe too. */
  predicate UsablePrivately(cfg: ModelConfig, probed: bool) {
    cfg.enabled && cfg.network == PRIVATE && (probed ==> cfg.probePassed)
  }

  ghost predicate FirstUsable(configs: Configs, order: seq<string>, probed: bool, i: int)
    requires forall id | id in order :: id in configs
  {
    && 0 <= i < |order| && UsablePrivately(configs[order[i]], probed)
    && forall j | 0 <= j < i :: !UsablePrivately(configs[order[j]], probed)
  }

  lemma {:induction false} FirstUsableAfter(configs: Configs, order: seq<string>, probed: bool)
    requires (forall id | id in order :: id in configs) && order != [] && !UsablePrivately(configs[order[0]], probed)
    ensures forall i :: FirstUsable(configs, order[1..], probed, i) ==> FirstUsable(configs, order, probed, i + 1)
  {
    forall i | FirstUsable(configs, order[1..], probed, i) ensures FirstUsable(configs, order, probed, i + 1) {
      forall j | 0 <= j < i + 1 ensures !UsablePrivately(configs[order[j]], probed) {
        assert j > 0 ==> order[j] == order[1..][j - 1];
      }
    }
  }

  function FirstPrivate(configs: Configs, order: seq<string>, probed: bool): (r: Result<ModelConfig, Error>)
    requires forall id | id in order :: id in configs
    ensures r.Ok? ==> r.value.enabled && r.value.network == PRIVATE && r.value in configs.Values
    ensures r.Ok? ==> exists i :: 0 <= i < |order| && FirstUsable(configs, order, probed, i) && r.value == configs[order[i]]
    ensures r.Err? ==> r.error == NoAvailablePrivateConfig && forall i | 0 <= i < |order| :: !UsablePrivately(configs[order[i]], probed)
  {
    if order == [] then Err(NoAvailablePrivateConfig)
    else
      var cfg := configs[order[0]];
      assert cfg in configs.Values;
      if cfg.enabled && (probed ==> cfg.probePassed) && cfg.network == PRIVATE then
        assert FirstUsable(configs, order, probed, 0);
        Ok(cfg)
      else
        FirstUsableAfter(configs, order, probed);
        assert forall i | 1 <= i < |order| :: order[i] == order[1..][i - 1];
        FirstPrivate(configs, order[1..], probed)
  }

  /** `Router.resolveConfig`. */
  function ResolveConfig(env: Env, route: Route): Result<ModelConfig, Error>
    requires forall id | id in env.routerOrder :: id in env.configs
  {
    if route.configID != "" then
      var cfg := Get(env.configs, route.configID);
      if cfg.Err? then cfg
      else if !cfg.value.enabled then Err(ConfigDisabled)
      else if route.requirePrivate && cfg.value.network != PRIVATE then Err(NoAvailablePrivateConfig)
      else cfg
    else if route.requirePrivate then FirstPrivate(env.configs, env.routerOrder, false)
    else Current(env.configs, env.routerOrder)
  }

  /** `Router.CurrentNetwork`. */
  function CurrentNetwork(env: Env): Result<string, Error>
    requires forall id | id in env.routerOrder :: id in env.configs
  {
    var cfg := Current(env.configs, env.routerOrder);
    if cfg.Err? then Err(cfg.error)
    else if cfg.value.network == "" then Err(Upstream)
    else Ok(cfg.value.network)
  }

  function TargetNetwork(env: Env, route: Route): Result<string, Error>
    requires forall id | id in env.resolverOrder :: id in env.configs
    requires forall id | id in env.routerOrder :: id in env.configs
  {
    if route.requirePrivate then Ok(PRIVATE)
    else if env.hasResolver then NetworkForRoute(env, route)
    else if route.configID != "" then Ok(PUBLIC)
    else CurrentNetwork(env)
  }

  // ---- Sanitizing ----------------------------------------------------------------------------

  datatype Cleaned = Cleaned(messages: seq<Message>, mappings: seq<Entry>, matches: nat)

  function CleanedBy(messages: seq<Message>, hits: seq<seq<Hit>>): Cleaned
    requires |messages| == |hits|
  {
    var (st, out) := Sanitized(messages, hits);
    Cleaned(out, st.mappings, |st.matches|)
  }

  /** Regular expressions and dictionary only. */
  function CleanedWithoutNer(env: Env, messages: seq<Message>): Cleaned
    requires |env.found| == |env.ner| == |messages|
  {
    CleanedBy(messages, HitsFor(env.found, env.ner, false))
  }

  function FirstFailure(ner: seq<NerReply>): (i: nat)
    ensures i <= |ner|
    ensures i < |ner| ==> ner[i].Failed?
    ensures forall k | 0 <= k < i :: ner[k].Found?
  {
    if ner == [] || ner[0].Failed? then 0 else 1 + FirstFailure(ner[1..])
  }

  predicate UsesNer(env: Env) {
    env.contextual && env.hasNer
  }

  /** `sanitizeMessages`: what the processor answers, or the first NER error. */
  function CleanedWithNer(env: Env, messages: seq<Message>): (Cleaned, seq<NerError>)
    requires |env.found| == |env.ner| == |messages|
  {
    var i := FirstFailure(env.ner);
    if UsesNer(env) && i < |env.ner| then (Cleaned([], [], 0), [env.ner[i].error])
    else (CleanedBy(messages, HitsFor(env.found, env.ner, UsesNer(env))), [])
  }

  /** The messages are what the processor makes of the request's messages, with or without NER. */
  ghost predicate ProcessorOutput(env: Env, original: seq<Message>, sent: seq<Message>)
    requires |env.found| == |env.ner| == |original|
  {
    || sent == Sanitized(original, HitsFor(env.found, env.ner, UsesNer(env))).1
    || sent == Sanitized(original, HitsFor(env.found, env.ner, false)).1
  }

  // ---- Preparing a request ---------------------------------------------------------------------

  datatype Prepared = Ready(request: ChatRequest, mappings: seq<Entry>) | Refused(error: Error)

  function EntryFor(req: ChatRequest, event: DispositionEvent, reason: DispositionReason, matches: nat): AuditEntry {
    AuditEntry(if req.actorID == "" then "system" else req.actorID,
               if req.requestID == "" then "unknown" else req.requestID,
               NormalizeLevel(req.level), event, reason, matches)
  }

  /** One audit, and then `ready` unless the audit could not be written. */
  function Audited(env: Env, audits: seq<AuditEntry>, entry: AuditEntry, ready: Prepared): (Prepared, seq<AuditEntry>) {
    if !env.hasAudits then (Refused(DispositionAuditRequired), audits)
    else if env.auditFails(|audits|) then (Refused(DispositionAuditFailed), audits)
    else (ready, audits + [entry])
  }

  function PrepareNerUnavailable(env: Env, audits: seq<AuditEntry>, req: ChatRequest, policy: RoutePolicy): (Prepared, seq<AuditEntry>)
    requires |env.found| == |env.ner| == |req.messages|
    requires forall id | id in env.privateOrder :: id in env.configs
  {
    var fallback := CleanedWithoutNer(env, req.messages);
    var route := FirstPrivate(env.configs, env.privateOrder, true);
    if env.hasResolver && route.Ok? then
      var moved := req.(route := Route(route.value.id, true));
      Audited(env, audits, EntryFor(moved, RoutePrivate, NerUnavailablePrivateAvailable, fallback.matches), Ready(moved, []))
    else if policy.allowDegradedPublic && !Confidential(policy.level) then
      var configID := if policy.modelConfigID != "" then policy.modelConfigID else req.route.configID;
      var moved := req.(route := Route(configID, false));
      Audited(env, audits, EntryFor(moved, DegradedPublic, NerUnavailableDegradedPublic, fallback.matches),
              Ready(moved.(messages := fallback.messages), fallback.mappings))
    else
      Audited(env, audits, EntryFor(req, Blocked, NerUnavailableNoPrivateNoDegrade, fallback.matches), Refused(DesensitizationIncomplete))
  }

  function Prepare(env: Env, policies: Policies, audits: seq<AuditEntry>, req: ChatRequest, target: string): (Prepared, seq<AuditEntry>)
    requires |env.found| == |env.ner| == |req.messages|
    requires forall id | id in env.privateOrder :: id in env.configs
  {
    if target == PRIVATE then (Ready(req, []), audits)
    else
      var policy := PolicyFor(policies, req.level);
      if policy.targetNetwork == PRIVATE then
        var moved := req.(route := Route(policy.modelConfigID, true));
        Audited(env, audits, EntryFor(moved, RoutePrivate, ClassificationPrivate, 0), Ready(moved, []))
      else if !env.hasProcessor then
        var moved := req.(route := Route("", true));
        Audited(env, audits, EntryFor(moved, RoutePrivate, ProcessorMissingPrivate, 0), Ready(moved, []))
      else
        var moved := if policy.modelConfigID != "" then req.(route := Route(policy.modelConfigID, false)) else req;
        var (cleaned, failures) := CleanedWithNer(env, req.messages);
        if failures == [] then
          Audited(env, audits, EntryFor(moved, PublicSanitized, NormalPublicCall, cleaned.matches),
                  Ready(moved.(messages := cleaned.messages), cleaned.mappings))
        else if failures[0] == OtherNerError then (Refused(ProcessorFailed), audits)
        else PrepareNerUnavailable(env, audits, moved, policy)
  }

  // ---- A whole request -------------------------------------------------------------------------

  /** A request that reached the backend. */
  datatype Sent = Sent(config: ModelConfig, request: ChatRequest)

  datatype Completion = Completion(reply: Result<string, Error>, audits: seq<AuditEntry>, sent: seq<Sent>)

  datatype Streaming = Streaming(reply: Result<seq<TailBuffer.Event>, Error>, audits: seq<AuditEntry>, sent: seq<Sent>)

  function FailureReason(error: Error): DispositionReason {
    match error
    case NoAvailablePrivateConfig => ReasonNoAvailablePrivateConfig
    case DesensitizationIncomplete => ReasonDesensitizationIncomplete
    case _ => PrivateRuntimeFailure
  }

  /** The gateway, and not the caller or the configuration, made the route private. */
  predicate ForcedPrivate(prepared: ChatRequest, target: string) {
    target != PRIVATE && prepared.route.requirePrivate
  }

  function FailureEntry(env: Env, original: ChatRequest, error: Error): AuditEntry
    requires |env.found| == |env.ner| == |original.messages|
  {
    EntryFor(original, Blocked, FailureReason(error), if env.hasProcessor then CleanedWithoutNer(env, original.messages).matches else 0)
  }

  /** A failure on the way to a private endpoint the gateway itself chose is put on record. */
  function RuntimeFailure(env: Env, audits: seq<AuditEntry>, original: ChatRequest, prepared: ChatRequest, target: string, error: Error)
    : (Error, seq<AuditEntry>)
    requires |env.found| == |env.ner| == |original.messages|
  {
    if !ForcedPrivate(prepared, target) then (error, audits)
    else
      var (p, after) := Audited(env, audits, FailureEntry(env, original, error), Refused(error));
      (p.error, after)
  }

  /** Up to the backend call, which is the same for a complete and for a streaming request. */
  ghost function Dispatched(env: Env, policies: Policies, audits: seq<AuditEntry>, req: ChatRequest): (Prepared, seq<AuditEntry>, seq<Sent>)
    requires Fits(env, req)
  {
    var target := TargetNetwork(env, req.route);
    if target.Err? then (Refused(target.error), audits, [])
    else
      var (prepared, trail) := Prepare(env, policies, audits, req, target.value);
      if prepared.Refused? then (prepared, trail, [])
      else
        var cfg := ResolveConfig(env, prepared.request.route);
        (prepared, trail, if cfg.Ok? then [Sent(cfg.value, prepared.request)] else [])
  }

  /** The error of a call that was not sent, or was answered by one, and the trail with its audit. */
  ghost function CallFailed(env: Env, trail: seq<AuditEntry>, req: ChatRequest, prepared: ChatRequest, answer: Error): (Error, seq<AuditEntry>)
    requires Fits(env, req) && TargetNetwork(env, req.route).Ok?
  {
    var cfg := ResolveConfig(env, prepared.route);
    RuntimeFailure(env, trail, req, prepared, TargetNetwork(env, req.route).value, if cfg.Err? then cfg.error else answer)
  }

  ghost function Completed(env: Env, policies: Policies, audits: seq<AuditEntry>, req: ChatRequest): Completion
    requires Fits(env, req)
  {
    var (prepared, trail, sent) := Dispatched(env, policies, audits, req);
    if prepared.Refused? then Completion(Err(prepared.error), trail, [])
    else if sent != [] && env.reply.Ok? then
      Completion(Ok(Restore.RestoreAll(prepared.mappings, env.reply.value)), trail, sent)
    else
      var (e, after) := CallFailed(env, trail, req, prepared.request, if env.reply.Err? then env.reply.error else Upstream);
      Completion(Err(e), after, sent)
  }

  // ---- A streaming request ---------------------------------------------------------------------

  /** What an error event of the stream says went wrong. */
  function ErrorOf(reason: TailBuffer.ErrorReason): Error {
    match reason
    case Upstream => Upstream
    case NoAvailablePrivateConfig => NoAvailablePrivateConfig
    case DesensitizationIncomplete => DesensitizationIncomplete
  }

  /** Events sent downstream, and the trail, for the events still to come; an audit that fails ends the stream. */
  ghost function Restreamed(env: Env, audits: seq<AuditEntry>, ms: seq<Entry>, tail: string, original: ChatRequest, forced: bool,
                            upstream: seq<TailBuffer.Event>): (seq<TailBuffer.Event>, seq<AuditEntry>)
    requires |env.found| == |env.ner| == |original.messages|
    decreases |upstream|
  {
    if upstream == [] then (TailBuffer.Released(ms, tail), audits)
    else
      var event := upstream[0];
      if event.Error? && forced && AuditFails(env, audits) then ([TailBuffer.Error(TailBuffer.DesensitizationIncomplete)], audits)
      else
        var after := if event.Error? && forced then audits + [FailureEntry(env, original, ErrorOf(event.reason))] else audits;
        var (sent, rest) := TailBuffer.Forwarded(ms, tail, event);
        var (later, trail) := Restreamed(env, after, ms, rest, original, forced, upstream[1..]);
        (sent + later, trail)
  }

  predicate AuditFails(env: Env, audits: seq<AuditEntry>) {
    !env.hasAudits || env.auditFails(|audits|)
  }

  ghost function Streamed(env: Env, policies: Policies, audits: seq<AuditEntry>, req: ChatRequest): Streaming
    requires Fits(env, req)
  {
    var (prepared, trail, sent) := Dispatched(env, policies, audits, req);
    if prepared.Refused? then Streaming(Err(prepared.error), trail, [])
    else if sent != [] && env.stream.Ok? then
      var forced := ForcedPrivate(prepared.request, TargetNetwork(env, req.route).value);
      var (out, after) := Restreamed(env, trail, prepared.mappings, "", req, forced, env.stream.value);
      Streaming(Ok(out), after, sent)
    else
      var (e, after) := CallFailed(env, trail, req, prepared.request, if env.stream.Err? then env.stream.error else Upstream);
      Streaming(Err(e), after, sent)
  }

  // ---- The decorator ---------------------------------------------------------------------------

  class Gateway {
    const routes: MemoryRouteConfigStore
    var audits: seq<AuditEntry>
    var sent: seq<Sent>

    constructor (routes: MemoryRouteConfigStore)
      ensures this.routes == routes && audits == [] && sent == []
    {
      this.routes := routes;
      audits, sent := [], [];
    }

    method AuditDisposition(env: Env, req: ChatRequest, event: DispositionEvent, reason: DispositionReason, matches: nat)
      returns (failures: seq<Error>)
      modifies this`audits
      ensures forall ready ::
        var (p, after) := Audited(env, old(audits), EntryFor(req, event, reason, matches), ready);
        audits == after && p == if failures == [] then ready else Refused(failures[0])
      ensures failures != [] <==> AuditFails(env, old(audits))
      ensures audits == if failures == [] then old(audits) + [EntryFor(req, event, reason, matches)] else old(audits)
    {
      if !env.hasAudits {
        return [DispositionAuditRequired];
      }
      if env.auditFails(|audits|) {
        return [DispositionAuditFailed];
      }
      audits := audits + [EntryFor(req, event, reason, matches)];
      return [];
    }

    method PrepareRequest(env: Env, request: ChatRequest, target: string) returns (p: Prepared)
      requires Fits(env, request)
      modifies this`audits
      ensures (p, audits) == Prepare(env, routes.policies, old(audits), request, target)
    {
      var req, failures := request, [];
      if target == PRIVATE {
        return Ready(req, []);
      }
      var policy := routes.GetPolicy(NormalizeLevel(req.level));
      NormalizeIdempotent(req.level);
      if policy.targetNetwork == PRIVATE {
        req := req.(route := req.route.(requirePrivate := true));
        if policy.modelConfigID != "" {
          req := req.(route := req.route.(configID := policy.modelConfigID));
        } else {
          req := req.(route := req.route.(configID := ""));
        }
        failures := AuditDisposition(env, req, RoutePrivate, ClassificationPrivate, 0);
        return if failures == [] then Ready(req, []) else Refused(failures[0]);
      }
      if !env.hasProcessor {
        req := req.(route := Route("", true));
        failures := AuditDisposition(env, req, RoutePrivate, ProcessorMissingPrivate, 0);
        return if failures == [] then Ready(req, []) else Refused(failures[0]);
      }
      if policy.modelConfigID != "" {
        req := req.(route := Route(policy.modelConfigID, false));
      }
      var (cleaned, nerErrors) := CleanedWithNer(env, req.messages);
      if nerErrors != [] && nerErrors[0] != OtherNerError {
        p := PrepareUnavailable(env, req, policy);
        return;
      }
      if nerErrors != [] {
        return Refused(ProcessorFailed);
      }
      failures := AuditDisposition(env, req, PublicSanitized, NormalPublicCall, cleaned.matches);
      req := req.(messages := cleaned.messages);
      return if failures == [] then Ready(req, cleaned.mappings) else Refused(failures[0]);
    }

    method PrepareUnavailable(env: Env, request: ChatRequest, policy: RoutePolicy) returns (p: Prepared)
      requires Fits(env, request)
      modifies this`audits
      ensures (p, audits) == PrepareNerUnavailable(env, old(audits), request, policy)
    {
      var req, failures := request, [];
      var fallback := CleanedWithoutNer(env, req.messages);
      var route := FirstPrivate(env.configs, env.privateOrder, true);
      if env.hasResolver && route.Ok? {
        req := req.(route := Route(route.value.id, true));
        failures := AuditDisposition(env, req, RoutePrivate, NerUnavailablePrivateAvailable, fallback.matches);
        return if failures == [] then Ready(req, []) else Refused(failures[0]);
      }
      if policy.allowDegradedPublic && !Confidential(policy.level) {
        if policy.modelConfigID != "" {
          req := req.(route := req.route.(configID := policy.modelConfigID));
        }
        req := req.(route := req.route.(requirePrivate := false));
        failures := AuditDisposition(env, req, DegradedPublic, NerUnavailableDegradedPublic, fallback.matches);
        req := req.(messages := fallback.messages);
        return if failures == [] then Ready(req, fallback.mappings) else Refused(failures[0]);
      }
      failures := AuditDisposition(env, req, Blocked, NerUnavailableNoPrivateNoDegrade, fallback.matches);
      return if failures == [] then Refused(DesensitizationIncomplete) else Refused(failures[0]);
    }

    /** The router and its backend: a request that resolves is sent. */
    method Send(env: Env, req: ChatRequest) returns (r: Result<string, Error>)
      requires Filed(env.configs) && Enumerates(env.routerOrder, env.configs)
      modifies this`sent
      ensures var cfg := ResolveConfig(env, req.route);
        && (cfg.Ok? ==> r == env.reply && sent == old(sent) + [Sent(cfg.value, req)])
        && (cfg.Err? ==> r == Err(cfg.error) && sent == old(sent))
    {
      var cfg := ResolveConfig(env, req.route);
      if cfg.Err? {
        return Err(cfg.error);
      }
      sent := sent + [Sent(cfg.value, req)];
      r := env.reply;
    }

    /** The same for a streaming call. */
    method SendStream(env: Env, req: ChatRequest) returns (r: Result<seq<TailBuffer.Event>, Error>)
      requires Filed(env.configs) && Enumerates(env.routerOrder, env.configs)
      modifies this`sent
      ensures var cfg := ResolveConfig(env, req.route);
        && (cfg.Ok? ==> r == env.stream && sent == old(sent) + [Sent(cfg.value, req)])
        && (cfg.Err? ==> r == Err(cfg.error) && sent == old(sent))
    {
      var cfg := ResolveConfig(env, req.route);
      if cfg.Err? {
        return Err(cfg.error);
      }
      sent := sent + [Sent(cfg.value, req)];
      r := env.stream;
    }

    method Complete(env: Env, req: ChatRequest) returns (r: Result<string, Error>)
      requires Fits(env, req)
      modifies this`audits, this`sent
      ensures var c := Completed(env, routes.policies, old(audits), req);
        r == c.reply && audits == c.audits && sent == old(sent) + c.sent
    {
      var target := TargetNetwork(env, req.route);
      if target.Err? {
        return Err(target.error);
      }
      var prepared := PrepareRequest(env, req, target.value);
      if prepared.Refused? {
        return Err(prepared.error);
      }
      var reply := Send(env, prepared.request);
      if reply.Err? {
        var failures := AuditPrivateRuntimeFailure(env, req, prepared.request, target.value, reply.error);
        if failures != [] {
          return Err(failures[0]);
        }
        return Err(reply.error);
      }
      var text := Restore.RestoreText(prepared.mappings, reply.value);
      r := Ok(text);
    }

    method Stream(env: Env, req: ChatRequest) returns (r: Result<seq<TailBuffer.Event>, Error>)
      requires Fits(env, req)
      modifies this`audits, this`sent
      ensures var c := Streamed(env, routes.policies, old(audits), req);
        r == c.reply && audits == c.audits && sent == old(sent) + c.sent
    {
      var target := TargetNetwork(env, req.route);
      if target.Err? {
        return Err(target.error);
      }
      var prepared := PrepareRequest(env, req, target.value);
      if prepared.Refused? {
        return Err(prepared.error);
      }
      var upstream := SendStream(env, prepared.request);
      if upstream.Err? {
        var failures := AuditPrivateRuntimeFailure(env, req, prepared.request, target.value, upstream.error);
        if failures != [] {
          return Err(failures[0]);
        }
        return Err(upstream.error);
      }
      var out := Restream(env, req, prepared, target.value, upstream.value);
      r := Ok(out);
    }

    /** The goroutine between the upstream channel and the channel handed out. */
    method Restream(env: Env, req: ChatRequest, prepared: Prepared, target: string, upstream: seq<TailBuffer.Event>)
      returns (out: seq<TailBuffer.Event>)
      requires Fits(env, req) && prepared.Ready?
      modifies this`audits
      ensures (out, audits)
           == Restreamed(env, old(audits), prepared.mappings, "", req, ForcedPrivate(prepared.request, target), upstream)
    {
      var buffer := new TailBuffer.PlaceholderTailBuffer(prepared.mappings);
      out := [];
      ghost var forced := ForcedPrivate(prepared.request, target);
      ghost var goal := Restreamed(env, audits, prepared.mappings, "", req, forced, upstream);
      assert upstream[0..] == upstream && [] + goal.0 == goal.0;
      for i := 0 to |upstream|
        invariant fresh(buffer) && buffer.mappings == prepared.mappings
        invariant buffer.maxTailBytes == TailBuffer.LongestPlaceholder(prepared.mappings)
        invariant var (later, trail) := Restreamed(env, audits, prepared.mappings, buffer.tail, req, forced, upstream[i..]);
                  goal == (out + later, trail)
      {
        var event := upstream[i];
        assert upstream[i..][1..] == upstream[i + 1..];
        if event.Error? {
          var failures := AuditPrivateRuntimeFailure(env, req, prepared.request, target, ErrorOf(event.reason));
          if failures != [] {
            out := out + [TailBuffer.Error(TailBuffer.DesensitizationIncomplete)];
            return;
          }
        }
        var sent := TailBuffer.Forward(buffer, event);
        Text.ConcatAssoc(out, sent, Restreamed(env, audits, prepared.mappings, buffer.tail, req, forced, upstream[i + 1..]).0);
        out := out + sent;
      }
      assert goal == (out + TailBuffer.Released(prepared.mappings, buffer.tail), audits);
      assert out + [] == out;
      var rest := buffer.Flush();
      if rest != "" {
        out := out + [TailBuffer.Delta(rest)];
      }
    }

    method AuditPrivateRuntimeFailure(env: Env, original: ChatRequest, prepared: ChatRequest, target: string, error: Error)
      returns (failures: seq<Error>)
      requires Fits(env, original)
      modifies this`audits
      ensures (if failures == [] then error else failures[0], audits)
           == RuntimeFailure(env, old(audits), original, prepared, target, error)
      ensures failures != [] <==> ForcedPrivate(prepared, target) && AuditFails(env, old(audits))
      ensures audits == if failures == [] && ForcedPrivate(prepared, target) then old(audits) + [FailureEntry(env, original, error)]
                        else old(audits)
    {
      if target == PRIVATE || !prepared.route.requirePrivate {
        return [];
      }
      var fallback := if env.hasProcessor then CleanedWithoutNer(env, original.messages).matches else 0;
      failures := AuditDisposition(env, original, Blocked, FailureReason(error), fallback);
    }
  }

  // ---- Confinement -------------------------------------------------------------------------------

  /** Two configs marked current, if there are such, are both private or both not. */
  ghost predicate CurrentsAgree(configs: Configs) {
    forall a, b | a in configs && b in configs && configs[a].isCurrent && configs[b].isCurrent ::
      configs[a].network == PRIVATE <==> configs[b].network == PRIVATE
  }

  /** What reaches a network that is not private is processor output of a request that may leave. */
  ghost predicate Confined(env: Env, req: ChatRequest, s: Sent)
    requires |env.found| == |env.ner| == |req.messages|
  {
    s.config.network != PRIVATE ==>
      && !Confidential(req.level)
      && env.hasProcessor
      && ProcessorOutput(env, req.messages, s.request.messages)
  }

  /** Such a request was put on record before it left, as sanitized or as degraded. */
  ghost predicate Recorded(env: Env, req: ChatRequest, s: Sent, added: seq<AuditEntry>) {
    s.config.network != PRIVATE ==>
      added != [] && added[0].event in {PublicSanitized, DegradedPublic} && added[0].level == NormalizeLevel(req.level)
  }

  /** A private route resolves to private configs only. */
  lemma PrivateRouteIsPrivate(env: Env, route: Route)
    requires Enumerates(env.routerOrder, env.configs) && route.requirePrivate
    ensures ResolveConfig(env, route).Ok? ==> ResolveConfig(env, route).value.network == PRIVATE
  {
  }

  /** Decorator and router decide the network apart, yet agree on it when it is private. */
  lemma {:induction false} DecisionsAgree(env: Env, route: Route)
    requires Enumerates(env.routerOrder, env.configs) && Enumerates(env.resolverOrder, env.configs)
    requires CurrentsAgree(env.configs)
    requires TargetNetwork(env, route) == Ok(PRIVATE)
    ensures ResolveConfig(env, route).Ok? ==> ResolveConfig(env, route).value.network == PRIVATE
  {
    if !route.requirePrivate && route.configID == "" {
      var b := Current(env.configs, env.routerOrder);
      if b.Ok? {
        var j :| j in env.configs && env.configs[j] == b.value;
        var a := Current(env.configs, if env.hasResolver then env.resolverOrder else env.routerOrder);
        assert a.Ok?;
        var i :| i in env.configs && env.configs[i] == a.value;
      }
    }
  }

  ghost predicate OnRecord(env: Env, req: ChatRequest, p: Prepared, entry: AuditEntry)
    requires |env.found| == |env.ner| == |req.messages| && p.Ready?
  {
    entry.level == NormalizeLevel(req.level) &&
    if p.request.route.requirePrivate then entry.event == RoutePrivate
    else
      && env.hasProcessor && !Confidential(req.level)
      && ProcessorOutput(env, req.messages, p.request.messages)
      && entry.event in {PublicSanitized, DegradedPublic}
  }

  /**
    A request not aimed at a private network is made ready only with one audit: either it
    is forced onto a private route, or its messages are processor output.
   */
  lemma {:induction false} PreparedIsOnRecord(env: Env, policies: Policies, audits: seq<AuditEntry>, req: ChatRequest, target: string)
    requires Fits(env, req) && Sound(policies) && target != PRIVATE && !req.route.requirePrivate
    ensures var (p, after) := Prepare(env, policies, audits, req, target);
      audits <= after && (p.Ready? ==> |after| == |audits| + 1 && OnRecord(env, req, p, after[|audits|]))
  {
    if Confidential(req.level) || NormalizeLevel(req.level) !in policies {
      ConfidentialStaysPrivate(policies, req.level);
    }
  }

  lemma FailureAddsToTrail(env: Env, audits: seq<AuditEntry>, original: ChatRequest, prepared: ChatRequest, target: string, error: Error)
    requires |env.found| == |env.ner| == |original.messages|
    ensures audits <= RuntimeFailure(env, audits, original, prepared, target, error).1
  {
  }

  lemma {:induction false} RestreamAddsToTrail(env: Env, audits: seq<AuditEntry>, ms: seq<Entry>, tail: string, original: ChatRequest,
                                               forced: bool, upstream: seq<TailBuffer.Event>)
    requires |env.found| == |env.ner| == |original.messages|
    ensures audits <= Restreamed(env, audits, ms, tail, original, forced, upstream).1
    decreases |upstream|
  {
    if upstream != [] {
      var event := upstream[0];
      var after := if event.Error? && forced then audits + [FailureEntry(env, original, ErrorOf(event.reason))] else audits;
      RestreamAddsToTrail(env, after, ms, TailBuffer.Forwarded(ms, tail, event).1, original, forced, upstream[1..]);
    }
  }

  /** Before the backend is called: at most one call, confined and on record. */
  lemma {:induction false} DispatchConfinement(env: Env, policies: Policies, audits: seq<AuditEntry>, req: ChatRequest)
    requires Fits(env, req) && Sound(policies) && CurrentsAgree(env.configs)
    ensures var (_, trail, sent) := Dispatched(env, policies, audits, req);
      && |sent| <= 1 && audits <= trail
      && forall s | s in sent :: Confined(env, req, s) && Recorded(env, req, s, trail[|audits|..])
  {
    var target := TargetNetwork(env, req.route);
    if target.Ok? {
      var (p, trail) := Prepare(env, policies, audits, req, target.value);
      if target.value == PRIVATE {
        DecisionsAgree(env, req.route);
      } else {
        PreparedIsOnRecord(env, policies, audits, req, target.value);
        if p.Ready? {
          PrivateRouteIsPrivate(env, Route(p.request.route.configID, true));
        }
      }
    }
  }

  ghost predicate ConfinedAndRecorded(env: Env, req: ChatRequest, audits: seq<AuditEntry>, sent: seq<Sent>, after: seq<AuditEntry>)
    requires |env.found| == |env.ner| == |req.messages|
  {
    && |sent| <= 1 && audits <= after
    && forall s | s in sent :: Confined(env, req, s) && Recorded(env, req, s, after[|audits|..])
  }

  lemma {:induction false} RecordStays(env: Env, req: ChatRequest, audits: seq<AuditEntry>, sent: seq<Sent>, trail: seq<AuditEntry>, after: seq<AuditEntry>)
    requires |env.found| == |env.ner| == |req.messages|
    requires ConfinedAndRecorded(env, req, audits, sent, trail) && trail <= after
    ensures ConfinedAndRecorded(env, req, audits, sent, after)
  {
    forall s | s in sent
      ensures Recorded(env, req, s, after[|audits|..])
    {
      if s.config.network != PRIVATE {
        assert after[|audits|..][0] == trail[|audits|..][0];
      }
    }
  }

  /**
    Outbound confinement: whatever reaches a backend whose network is not private is
    processor output of a request that is neither classified nor unknown, and was put on
    record before it left.  At most one backend call is made, and the trail only grows.
   */
  lemma {:induction false} OutboundConfinement(env: Env, policies: Policies, audits: seq<AuditEntry>, req: ChatRequest)
    requires Fits(env, req) && Sound(policies) && CurrentsAgree(env.configs)
    ensures var c := Completed(env, policies, audits, req); ConfinedAndRecorded(env, req, audits, c.sent, c.audits)
    ensures var c := Streamed(env, policies, audits, req); ConfinedAndRecorded(env, req, audits, c.sent, c.audits)
  {
    var (prepared, trail, sent) := Dispatched(env, policies, audits, req);
    DispatchConfinement(env, policies, audits, req);
    if prepared.Ready? {
      var target := TargetNetwork(env, req.route).value;
      var cfg := ResolveConfig(env, prepared.request.route);
      forall error | true
        ensures trail <= RuntimeFailure(env, trail, req, prepared.request, target, error).1
      {
        FailureAddsToTrail(env, trail, req, prepared.request, target, error);
      }
      if env.stream.Ok? {
        RestreamAddsToTrail(env, trail, prepared.mappings, "", req, ForcedPrivate(prepared.request, target), env.stream.value);
      }
      RecordStays(env, req, audits, sent, trail, Completed(env, policies, audits, req).audits);
      RecordStays(env, req, audits, sent, trail, Streamed(env, policies, audits, req).audits);
    }
  }

  // ---- The condition on the config store is exact ----------------------------------------------------

  ghost predicate AlwaysConfined(configs: Configs) {
    forall env: Env, policies, audits, req: ChatRequest ::
      env.configs == configs && Fits(env, req) && Sound(policies) ==>
        forall s | s in Dispatched(env, policies, audits, req).2 :: Confined(env, req, s)
  }

  lemma {:induction false} Enumeration(configs: Configs) returns (order: seq<string>)
    ensures Enumerates(order, configs)
    decreases |configs|
  {
    if configs == map[] {
      order := [];
    } else {
      var id :| id in configs;
      order := EnumerationFrom(configs, id);
    }
  }

  /** The store may meet any of its entries first. */
  lemma {:induction false} EnumerationFrom(configs: Configs, id: string) returns (order: seq<string>)
    requires id in configs
    ensures Enumerates(order, configs) && order != [] && order[0] == id
    decreases |configs|, 0
  {
    var others := configs - {id};
    assert |others| < |configs|;
    var rest := Enumeration(others);
    order := [id] + rest;
    assert forall other | other in configs :: other == id || other in others;
  }

  /** Two current configs that disagree let the resolver see one and the router use the other: any message leaves as it is. */
  lemma {:induction false} DisagreementBreaksConfinement(configs: Configs, a: string, b: string, m: Message)
    returns (env: Env, policies: Policies, req: ChatRequest)
    requires Filed(configs) && a in configs && b in configs && configs[a].isCurrent && configs[b].isCurrent
    requires configs[a].network == PRIVATE && configs[b].network != PRIVATE
    ensures env.configs == configs && Fits(env, req) && Sound(policies) && req.level == CLASSIFIED && req.messages == [m]
    ensures Completed(env, policies, [], req).sent == [Sent(configs[b], req)]
    ensures !AlwaysConfined(configs)
  {
    var seenByResolver := EnumerationFrom(configs, a);
    var seenByRouter := EnumerationFrom(configs, b);
    env := Env(configs, seenByResolver, seenByResolver, seenByRouter, true, true, true, true, [[]], [Found([])], true, n => false, Ok(""), Ok([]));
    req := ChatRequest([m], Route("", false), CLASSIFIED, "", "");
    var p := RoutePolicy(UNKNOWN, PRIVATE, "", false);
    policies := map[UNKNOWN := p];
    assert HardenPolicy(p) == p && Sound(policies) && Fits(env, req);
    assert TargetNetwork(env, req.route) == Ok(PRIVATE);
    var s := Sent(configs[b], req);
    assert Dispatched(env, policies, [], req).2 == [s];
    assert s in Dispatched(env, policies, [], req).2 && !Confined(env, req, s);
  }

  /** Confinement for every request and listing order holds exactly when the current configs agree. */
  lemma {:induction false} ConfinementExact(configs: Configs)
    requires Filed(configs)
    ensures AlwaysConfined(configs) <==> CurrentsAgree(configs)
  {
    if CurrentsAgree(configs) {
      forall env: Env, policies, audits, req: ChatRequest | env.configs == configs && Fits(env, req) && Sound(policies)
        ensures forall s | s in Dispatched(env, policies, audits, req).2 :: Confined(env, req, s)
      {
        DispatchConfinement(env, policies, audits, req);
      }
    } else {
      var a, b :| a in configs && b in configs && configs[a].isCurrent && configs[b].isCurrent
        && (configs[a].network == PRIVATE) != (configs[b].network == PRIVATE);
      var m := Message(NoRole, "");
      if configs[a].network == PRIVATE {
        var env, policies, req := DisagreementBreaksConfinement(configs, a, b, m);
      } else {
        var env, policies, req := DisagreementBreaksConfinement(configs, b, a, m);
      }
    }
  }

  /** Whatever the config service is asked to do, and whatever fails on the way, requests stay confined. */
  lemma {:induction false} ServiceKeepsConfinement(parts: ConfigService.Parts, st: ConfigService.State,
                                                   run: seq<(ConfigService.Op, ConfigService.Answers)>)
    requires ConfigService.SingleCurrent(st.configs) && ConfigService.Runs(parts, st, run)
    ensures AlwaysConfined(ConfigService.After(parts, st, run).configs)
  {
    var configs := ConfigService.After(parts, st, run).configs;
    ConfigService.RunKeepsSingle(parts, st, run);
    forall a, b | a in configs && b in configs && configs[a].isCurrent && configs[b].isCurrent
      ensures a == b
    {
      assert ConfigService.IsCurrent(configs, a) && ConfigService.IsCurrent(configs, b);
    }
    ConfinementExact(configs);
  }
}
