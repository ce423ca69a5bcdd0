/** The model-config service: its store, and the proxy copy of the configs it activates. */
module ConfigService {
  import opened ModelConfigs
  import opened Wrappers

  datatype Action = CreateAction | UpdateAction | EnableAction | DisableAction | SwitchAction | ProbeAction

  datatype AuditEntry = AuditEntry(actorID: string, configID: string, action: Action)

  /** What the proxy keeps of a config. */
  datatype Params = Params(provider: string, baseUrl: string, apiKey: string, model: string)

  function ParamsOf(cfg: ModelConfig): Params {
    Params(cfg.provider, cfg.baseUrl, cfg.apiKey, cfg.model)
  }

  type Proxy = map<string, Params>

  // ---- The store --------------------------------------------------------------------------

  function MarkCurrent(configs: Configs, current: string): Configs {
    map id | id in configs :: configs[id].(isCurrent := id == current)
  }

  class MemoryStore {
    var configs: Configs
    var audits: seq<AuditEntry>

    constructor ()
      ensures configs == map[] && audits == []
    {
      configs, audits := map[], [];
    }

    method SaveWithAudit(cfg: ModelConfig, entry: AuditEntry)
      modifies this
      ensures configs == old(configs)[cfg.id := cfg] && audits == old(audits) + [entry]
    {
      configs := configs[cfg.id := cfg];
      audits := audits + [entry];
    }

    /** The loop that leaves one config current. */
    method SetOnlyCurrent(current: string)
      modifies this`configs
      ensures configs == MarkCurrent(old(configs), current)
    {
      var rest := configs.Keys;
      while rest != {}
        invariant rest <= configs.Keys == old(configs).Keys
        invariant forall id | id in configs ::
          configs[id] == if id in rest then old(configs)[id] else old(configs)[id].(isCurrent := id == current)
        decreases rest
      {
        var id :| id in rest;
        configs := configs[id := configs[id].(isCurrent := id == current)];
        rest := rest - {id};
      }
    }

    method SetCurrent(id: string) returns (r: Result<(), Error>)
      modifies this`configs
      ensures id in old(configs) ==> r == Ok(()) && configs == MarkCurrent(old(configs), id)
      ensures id !in old(configs) ==> r == Err(ConfigNotFound) && configs == old(configs)
    {
      if id !in configs {
        return Err(ConfigNotFound);
      }
      SetOnlyCurrent(id);
      r := Ok(());
    }

    method SaveAndSetCurrentWithAudit(cfg: ModelConfig, entry: AuditEntry) returns (r: Result<(), Error>)
      modifies this
      ensures cfg.id in old(configs) ==>
        r == Ok(()) && configs == MarkCurrent(old(configs)[cfg.id := cfg], cfg.id) && audits == old(audits) + [entry]
      ensures cfg.id !in old(configs) ==> r == Err(ConfigNotFound) && configs == old(configs) && audits == old(audits)
    {
      if cfg.id !in configs {
        return Err(ConfigNotFound);
      }
      configs := configs[cfg.id := cfg];
      SetOnlyCurrent(cfg.id);
      audits := audits + [entry];
      r := Ok(());
    }
  }

  // ---- Operations as functions of the state ---------------------------------------------------

  datatype State = State(configs: Configs, audits: seq<AuditEntry>, proxy: Proxy)

  datatype Parts = Parts(hasProber: bool, hasSyncer: bool)

  /** How authorizer, prober, syncer and store answer during one operation; `restoreFails` is the second sync. */
  datatype Answers = Answers(actorID: string, authorized: bool, available: bool, syncFails: bool, restoreFails: bool, saveFails: bool)

  datatype Op =
    | Create(id: string, provider: string, baseUrl: string, apiKey: string, model: string, network: string)
    | Update(id: string, baseUrl: string, apiKey: string, model: string)
    | Enable(id: string)
    | Disable(id: string)
    | Switch(id: string)
    | Probe(id: string)

  function Synced(parts: Parts, st: State, cfg: ModelConfig, fails: bool): Result<State, Error> {
    if !parts.hasSyncer then Ok(st)
    else if fails then Err(SyncFailed)
    else Ok(st.(proxy := st.proxy[cfg.id := ParamsOf(cfg)]))
  }

  function Saved(st: State, cfg: ModelConfig, action: Action, ans: Answers): (State, Result<(), Error>) {
    if ans.saveFails then (st, Err(SaveFailed))
    else (st.(configs := st.configs[cfg.id := cfg], audits := st.audits + [AuditEntry(ans.actorID, cfg.id, action)]), Ok(()))
  }

  /** `probeForCurrent`: the config as it is after a successful probe. */
  function Probed(parts: Parts, cfg: ModelConfig, ans: Answers): Result<ModelConfig, Error> {
    if !parts.hasProber then (if cfg.probePassed then Ok(cfg) else Err(ProbeFailed))
    else if !ans.available then Err(ProbeFailed)
    else Ok(cfg.(probePassed := true))
  }

  /** The compensating sync: when it fails too, its error is joined to the cause. */
  function Restored(parts: Parts, st: State, previous: ModelConfig, cause: Error, ans: Answers): (State, Error) {
    var r := Synced(parts, st, previous, ans.restoreFails);
    if r.Ok? then (r.value, cause) else (st, Joined(cause, r.error))
  }

  function Edited(cfg: ModelConfig, op: Op): ModelConfig
    requires op.Update?
  {
    var c1 := if op.baseUrl != "" then cfg.(baseUrl := op.baseUrl) else cfg;
    var c2 := if op.apiKey != "" then c1.(apiKey := op.apiKey) else c1;
    if op.model != "" then c2.(model := op.model) else c2
  }

  function Perform(parts: Parts, st: State, op: Op, ans: Answers): (State, Result<(), Error>) {
    if !ans.authorized then (st, Err(Unauthorized))
    else if op.Create? then
      Saved(st, ModelConfig(op.id, op.provider, op.baseUrl, op.apiKey, op.model, op.network, true, false, false), CreateAction, ans)
    else if op.id !in st.configs then (st, Err(ConfigNotFound))
    else
      var cfg := st.configs[op.id];
      match op
      case Update(_, _, _, _) => PerformUpdate(parts, st, cfg, op, ans)
      case Enable(_) => Saved(st, cfg.(enabled := true), EnableAction, ans)
      case Disable(_) =>
        if cfg.isCurrent then (st, Err(CurrentConfigRequiresReplacement))
        else Saved(st, cfg.(enabled := false), DisableAction, ans)
      case Switch(_) =>
        if !cfg.enabled then (st, Err(ConfigDisabled))
        else
          var synced := Synced(parts, st, cfg, ans.syncFails);
          if synced.Err? then (st, Err(synced.error))
          else
            var probed := Probed(parts, cfg, ans);
            if probed.Err? then (synced.value, Err(probed.error))
            else if ans.saveFails then (synced.value, Err(SaveFailed))
            else
              var s := synced.value;
              (s.(configs := MarkCurrent(s.configs[op.id := probed.value], op.id),
                  audits := s.audits + [AuditEntry(ans.actorID, op.id, SwitchAction)]), Ok(()))
      case Probe(_) =>
        if !parts.hasProber then (st, Err(ProbeFailed))
        else Saved(st, cfg.(probePassed := ans.available), ProbeAction, ans)
  }

  function PerformUpdate(parts: Parts, st: State, previous: ModelConfig, op: Op, ans: Answers): (State, Result<(), Error>)
    requires op.Update?
  {
    var edited := Edited(previous, op);
    if edited == previous || !previous.isCurrent then
      Saved(st, if edited == previous then edited else edited.(probePassed := false), UpdateAction, ans)
    else PerformUpdateCurrent(parts, st, previous, edited.(probePassed := false), ans)
  }

  function PerformUpdateCurrent(parts: Parts, st: State, previous: ModelConfig, cfg: ModelConfig, ans: Answers): (State, Result<(), Error>) {
    var synced := Synced(parts, st, cfg, ans.syncFails);
    if synced.Err? then (st, Err(synced.error))
    else
      var probed := Probed(parts, cfg, ans);
      if probed.Err? then
        var (restored, error) := Restored(parts, synced.value, previous, probed.error, ans);
        (restored, Err(error))
      else
        var (saved, r) := Saved(synced.value, probed.value, UpdateAction, ans);
        if r.Ok? then (saved, r)
        else
          var (restored, error) := Restored(parts, saved, previous, r.error, ans);
          (restored, Err(error))
  }

  // ---- The service ------------------------------------------------------------------------------

  class Service {
    const store: MemoryStore
    const hasProber: bool
    const hasSyncer: bool
    var proxy: Proxy

    ghost function View(): State
      reads this, store
    {
      State(store.configs, store.audits, proxy)
    }

    function Built(): Parts {
      Parts(hasProber, hasSyncer)
    }

    constructor (store: MemoryStore, hasProber: bool, hasSyncer: bool)
      ensures this.store == store && Built() == Parts(hasProber, hasSyncer) && proxy == map[]
    {
      this.store, this.hasProber, this.hasSyncer, proxy := store, hasProber, hasSyncer, map[];
    }

    method SyncModelConfig(cfg: ModelConfig, fails: bool) returns (r: Result<(), Error>)
      modifies this`proxy
      ensures var s := Synced(Built(), old(View()), cfg, fails);
        if s.Ok? then r == Ok(()) && View() == s.value else r == Err(s.error) && View() == old(View())
    {
      if !hasSyncer {
        return Ok(());
      }
      if fails {
        return Err(SyncFailed);
      }
      proxy := proxy[cfg.id := ParamsOf(cfg)];
      r := Ok(());
    }

    /** Compensation: its own failure is reported together with the cause. */
    method RestoreModelConfig(previous: ModelConfig, cause: Error, ans: Answers) returns (error: Error)
      modifies this`proxy
      ensures (View(), error) == Restored(Built(), old(View()), previous, cause, ans)
      ensures hasSyncer && ans.restoreFails ==> proxy == old(proxy) && error == Joined(cause, SyncFailed)
      ensures hasSyncer && !ans.restoreFails ==> proxy == old(proxy)[previous.id := ParamsOf(previous)] && error == cause
    {
      var r := SyncModelConfig(previous, ans.restoreFails);
      if r.Err? {
        return Joined(cause, r.error);
      }
      error := cause;
    }

    method SaveWithAudit(cfg: ModelConfig, action: Action, ans: Answers) returns (r: Result<(), Error>)
      modifies store
      ensures (View(), r) == Saved(old(View()), cfg, action, ans)
    {
      if ans.saveFails {
        return Err(SaveFailed);
      }
      store.SaveWithAudit(cfg, AuditEntry(ans.actorID, cfg.id, action));
      r := Ok(());
    }

    /** `op.id` is the fresh id the service draws. */
    method CreateConfig(op: Op, ans: Answers) returns (r: Result<(), Error>)
      requires op.Create?
      modifies store
      ensures (View(), r) == Perform(Built(), old(View()), op, ans)
    {
      if !ans.authorized {
        return Err(Unauthorized);
      }
      var cfg := ModelConfig(op.id, op.provider, op.baseUrl, op.apiKey, op.model, op.network, true, false, false);
      r := SaveWithAudit(cfg, CreateAction, ans);
    }

    method UpdateConfig(op: Op, ans: Answers) returns (r: Result<(), Error>)
      requires op.Update?
      modifies this, store
      ensures (View(), r) == Perform(Built(), old(View()), op, ans)
    {
      if !ans.authorized {
        return Err(Unauthorized);
      }
      if op.id !in store.configs {
        return Err(ConfigNotFound);
      }
      var previous := store.configs[op.id];
      var cfg, changed := Merge(previous, op);
      if changed {
        cfg := cfg.(probePassed := false);
      }
      if cfg.isCurrent && changed {
        r := UpdateCurrent(previous, cfg, ans);
      } else {
        r := SaveWithAudit(cfg, UpdateAction, ans);
      }
    }

    /** Overwrites the fields the request fills in. */
    method Merge(previous: ModelConfig, op: Op) returns (cfg: ModelConfig, changed: bool)
      requires op.Update?
      ensures cfg == Edited(previous, op) && (changed <==> cfg != previous)
    {
      cfg, changed := previous, false;
      if op.baseUrl != "" {
        changed, cfg := changed || cfg.baseUrl != op.baseUrl, cfg.(baseUrl := op.baseUrl);
      }
      if op.apiKey != "" {
        changed, cfg := changed || cfg.apiKey != op.apiKey, cfg.(apiKey := op.apiKey);
      }
      if op.model != "" {
        changed, cfg := changed || cfg.model != op.model, cfg.(model := op.model);
      }
    }

    /** Sync, probe and save a changed current config, taking the sync back when one of the two fails. */
    method UpdateCurrent(previous: ModelConfig, edited: ModelConfig, ans: Answers) returns (r: Result<(), Error>)
      modifies this, store
      ensures (View(), r) == PerformUpdateCurrent(Built(), old(View()), previous, edited, ans)
    {
      r := SyncModelConfig(edited, ans.syncFails);
      if r.Err? {
        return;
      }
      var probed := Probed(Built(), edited, ans);
      if probed.Err? {
        var error := RestoreModelConfig(previous, probed.error, ans);
        return Err(error);
      }
      r := SaveWithAudit(probed.value, UpdateAction, ans);
      if r.Err? {
        var error := RestoreModelConfig(previous, r.error, ans);
        return Err(error);
      }
    }

    method SetEnabled(op: Op, ans: Answers) returns (r: Result<(), Error>)
      requires op.Enable? || op.Disable?
      modifies store
      ensures (View(), r) == Perform(Built(), old(View()), op, ans)
    {
      if !ans.authorized {
        return Err(Unauthorized);
      }
      if op.id !in store.configs {
        return Err(ConfigNotFound);
      }
      var cfg := store.configs[op.id];
      if op.Disable? && cfg.isCurrent {
        return Err(CurrentConfigRequiresReplacement);
      }
      cfg := cfg.(enabled := op.Enable?);
      r := SaveWithAudit(cfg, if op.Enable? then EnableAction else DisableAction, ans);
    }

    method SwitchCurrent(op: Op, ans: Answers) returns (r: Result<(), Error>)
      requires op.Switch? && Filed(store.configs)
      modifies this, store
      ensures (View(), r) == Perform(Built(), old(View()), op, ans)
    {
      if !ans.authorized {
        return Err(Unauthorized);
      }
      if op.id !in store.configs {
        return Err(ConfigNotFound);
      }
      var cfg := store.configs[op.id];
      if !cfg.enabled {
        return Err(ConfigDisabled);
      }
      r := SyncModelConfig(cfg, ans.syncFails);
      if r.Err? {
        return;
      }
      var probed := Probed(Built(), cfg, ans);
      if probed.Err? {
        return Err(probed.error);
      }
      if ans.saveFails {
        return Err(SaveFailed);
      }
      r := store.SaveAndSetCurrentWithAudit(probed.value, AuditEntry(ans.actorID, op.id, SwitchAction));
    }

    method ProbeConfig(op: Op, ans: Answers) returns (r: Result<(), Error>)
      requires op.Probe?
      modifies store
      ensures (View(), r) == Perform(Built(), old(View()), op, ans)
    {
      if !ans.authorized {
        return Err(Unauthorized);
      }
      if op.id !in store.configs {
        return Err(ConfigNotFound);
      }
      var cfg := store.configs[op.id];
      if !hasProber {
        return Err(ProbeFailed);
      }
      r := SaveWithAudit(cfg.(probePassed := ans.available), ProbeAction, ans);
    }
  }

  // ---- The store's invariant ------------------------------------------------------------------------

  ghost predicate IsCurrent(configs: Configs, id: string) {
    id in configs && configs[id].isCurrent
  }

  /** At most one config is current, and it is enabled. */
  ghost predicate SingleCurrent(configs: Configs) {
    && Filed(configs)
    && (forall a, b | IsCurrent(configs, a) && IsCurrent(configs, b) :: a == b)
    && (forall id | IsCurrent(configs, id) :: configs[id].enabled)
  }

  ghost predicate HasCurrent(configs: Configs) {
    exists id :: IsCurrent(configs, id)
  }

  /** New ids are fresh. */
  ghost predicate Drawn(st: State, op: Op) {
    op.Create? ==> op.id !in st.configs
  }

  /** How an operation leaves the configs: untouched, with one entry written, or with the mark moved as well. */
  ghost predicate Written(st: State, op: Op, next: State, ok: bool, c: ModelConfig) {
    if !ok then next.configs == st.configs && next.audits == st.audits
    else
      && c.id == op.id
      && (if op.Create? then !c.isCurrent && c.enabled
          else op.id in st.configs && c.isCurrent == st.configs[op.id].isCurrent
               && (if op.Disable? then !c.isCurrent else c.enabled == (op.Enable? || st.configs[op.id].enabled)))
      && (op.Switch? ==> c.enabled)
      && next.configs == (if op.Switch? then MarkCurrent(st.configs[op.id := c], op.id) else st.configs[op.id := c])
  }

  lemma EditedKeeps(cfg: ModelConfig, op: Op)
    requires op.Update?
    ensures Edited(cfg, op).id == cfg.id && Edited(cfg, op).isCurrent == cfg.isCurrent && Edited(cfg, op).enabled == cfg.enabled
  {
  }

  lemma UpdateCurrentWrites(parts: Parts, st: State, previous: ModelConfig, cfg: ModelConfig, ans: Answers)
    ensures var (next, r) := PerformUpdateCurrent(parts, st, previous, cfg, ans);
      if r.Ok? then next.configs == st.configs[cfg.id := cfg.(probePassed := true)]
      else next.configs == st.configs && next.audits == st.audits
  {
  }

  lemma {:induction false} UpdateWrites(parts: Parts, st: State, op: Op, ans: Answers) returns (c: ModelConfig)
    requires Filed(st.configs) && op.Update? && op.id in st.configs
    ensures var (next, r) := PerformUpdate(parts, st, st.configs[op.id], op, ans); Written(st, op, next, r.Ok?, c)
  {
    var previous := st.configs[op.id];
    EditedKeeps(previous, op);
    c := PerformUpdate(parts, st, previous, op, ans).0.configs[op.id];
    UpdateCurrentWrites(parts, st, previous, Edited(previous, op).(probePassed := false), ans);
  }

  lemma {:induction false} PerformWrites(parts: Parts, st: State, op: Op, ans: Answers) returns (c: ModelConfig)
    requires Filed(st.configs)
    ensures var (next, r) := Perform(parts, st, op, ans); Written(st, op, next, r.Ok?, c)
  {
    var (next, r) := Perform(parts, st, op, ans);
    if op.Update? && ans.authorized && op.id in st.configs {
      c := UpdateWrites(parts, st, op, ans);
    } else if op.Switch? && op.id in st.configs {
      c := st.configs[op.id].(probePassed := true);
    } else if op.id in next.configs {
      c := next.configs[op.id];
    } else {
      c := ModelConfig("", "", "", "", "", "", false, false, false);
    }
  }

  /** Only a successful switch moves the mark. */
  lemma {:induction false} CurrentAfter(parts: Parts, st: State, op: Op, ans: Answers, id: string)
    requires Filed(st.configs) && Drawn(st, op)
    ensures var (next, r) := Perform(parts, st, op, ans);
      IsCurrent(next.configs, id) <==> if op.Switch? && r.Ok? then id == op.id else IsCurrent(st.configs, id)
  {
    var c := PerformWrites(parts, st, op, ans);
  }

  /** Only a disabling takes the enabled flag, and not from the current config. */
  lemma {:induction false} FiledAfter(parts: Parts, st: State, op: Op, ans: Answers)
    requires SingleCurrent(st.configs) && Drawn(st, op)
    ensures var (next, r) := Perform(parts, st, op, ans);
      && Filed(next.configs)
      && (forall id | IsCurrent(st.configs, id) :: id in next.configs && next.configs[id].enabled)
      && (op.Switch? && r.Ok? ==> next.configs[op.id].enabled)
  {
    var c := PerformWrites(parts, st, op, ans);
  }

  lemma {:induction false} PerformKeepsSingle(parts: Parts, st: State, op: Op, ans: Answers)
    requires SingleCurrent(st.configs) && Drawn(st, op)
    ensures var next := Perform(parts, st, op, ans).0;
      SingleCurrent(next.configs) && (HasCurrent(st.configs) ==> HasCurrent(next.configs))
  {
    var (next, r) := Perform(parts, st, op, ans);
    FiledAfter(parts, st, op, ans);
    CurrentAfter(parts, st, op, ans, op.id);
    forall id
      ensures IsCurrent(next.configs, id) <==> if op.Switch? && r.Ok? then id == op.id else IsCurrent(st.configs, id)
    {
      CurrentAfter(parts, st, op, ans, id);
    }
  }

  /** One audit entry more, and no other config touched but for the mark; or nothing at all. */
  ghost predicate AuditedOnce(st: State, id: string, actorID: string, next: State, ok: bool) {
    if ok then
      && |next.audits| == |st.audits| + 1 && st.audits == next.audits[..|st.audits|]
      && next.audits[|st.audits|].configID == id && next.audits[|st.audits|].actorID == actorID
      && forall other | other in st.configs && other != id ::
           other in next.configs && next.configs[other].(isCurrent := st.configs[other].isCurrent) == st.configs[other]
    else next.audits == st.audits && next.configs == st.configs
  }

  lemma SavedAuditsOnce(st: State, cfg: ModelConfig, action: Action, ans: Answers)
    ensures var (next, r) := Saved(st, cfg, action, ans); AuditedOnce(st, cfg.id, ans.actorID, next, r.Ok?)
  {
  }

  lemma {:induction false} UpdateAuditsOnce(parts: Parts, st: State, op: Op, ans: Answers)
    requires Filed(st.configs) && op.Update? && op.id in st.configs
    ensures var (next, r) := PerformUpdate(parts, st, st.configs[op.id], op, ans);
      AuditedOnce(st, op.id, ans.actorID, next, r.Ok?)
  {
    var previous := st.configs[op.id];
    var edited := Edited(previous, op);
    EditedKeeps(previous, op);
    if edited == previous || !previous.isCurrent {
      SavedAuditsOnce(st, if edited == previous then edited else edited.(probePassed := false), UpdateAction, ans);
    } else {
      var cfg := edited.(probePassed := false);
      var synced := Synced(parts, st, cfg, ans.syncFails);
      if synced.Ok? && Probed(parts, cfg, ans).Ok? {
        SavedAuditsOnce(synced.value, Probed(parts, cfg, ans).value, UpdateAction, ans);
      }
    }
  }

  /** A successful operation leaves exactly one audit entry; a failed one leaves the store as it was. */
  lemma {:induction false} AuditPerMutation(parts: Parts, st: State, op: Op, ans: Answers)
    requires Filed(st.configs)
    ensures var (next, r) := Perform(parts, st, op, ans); AuditedOnce(st, op.id, ans.actorID, next, r.Ok?)
  {
    if op.Update? && ans.authorized && op.id in st.configs {
      UpdateAuditsOnce(parts, st, op, ans);
    }
  }

  // ---- When an operation succeeds, and what it writes --------------------------------------------------

  /** The request fills in a field with something new. */
  ghost predicate Changes(cfg: ModelConfig, op: Op)
    requires op.Update?
  {
    || (op.baseUrl != "" && op.baseUrl != cfg.baseUrl)
    || (op.apiKey != "" && op.apiKey != cfg.apiKey)
    || (op.model != "" && op.model != cfg.model)
  }

  /** An operation succeeds exactly when it is allowed, finds its config, and nothing it needs fails. */
  lemma {:induction false} SuccessExactly(parts: Parts, st: State, op: Op, ans: Answers)
    ensures Perform(parts, st, op, ans).1.Ok? <==>
      && ans.authorized && !ans.saveFails
      && (op.Create? || op.id in st.configs)
      && match op
         case Create(_, _, _, _, _, _) => true
         case Update(_, _, _, _) =>
           st.configs[op.id].isCurrent && Changes(st.configs[op.id], op) ==>
             !(parts.hasSyncer && ans.syncFails) && parts.hasProber && ans.available
         case Enable(_) => true
         case Disable(_) => !st.configs[op.id].isCurrent
         case Switch(_) =>
           && st.configs[op.id].enabled && !(parts.hasSyncer && ans.syncFails)
           && (if parts.hasProber then ans.available else st.configs[op.id].probePassed)
         case Probe(_) => parts.hasProber
  {
    if op.Update? && op.id in st.configs {
      EditedChanges(st.configs[op.id], op);
    }
  }

  lemma EditedChanges(cfg: ModelConfig, op: Op)
    requires op.Update?
    ensures Edited(cfg, op) != cfg <==> Changes(cfg, op)
    ensures var e := Edited(cfg, op);
      && e.baseUrl == (if op.baseUrl != "" then op.baseUrl else cfg.baseUrl)
      && e.apiKey == (if op.apiKey != "" then op.apiKey else cfg.apiKey)
      && e.model == (if op.model != "" then op.model else cfg.model)
      && e.provider == cfg.provider && e.network == cfg.network && e.probePassed == cfg.probePassed
  {
  }

  /** Why an operation fails before anything is tried. */
  lemma RefusedBecause(parts: Parts, st: State, op: Op, ans: Answers)
    ensures var r := Perform(parts, st, op, ans).1;
      && (!ans.authorized ==> r == Err(Unauthorized))
      && (ans.authorized && !op.Create? && op.id !in st.configs ==> r == Err(ConfigNotFound))
      && (ans.authorized && op.id in st.configs ==>
            && (op.Disable? && st.configs[op.id].isCurrent ==> r == Err(CurrentConfigRequiresReplacement))
            && (op.Switch? && !st.configs[op.id].enabled ==> r == Err(ConfigDisabled))
            && (op.Probe? && !parts.hasProber ==> r == Err(ProbeFailed)))
  {
  }

  /** What a successful operation leaves of its config, and the action it is recorded as. */
  ghost predicate Leaves(parts: Parts, st: State, op: Op, ans: Answers, c: ModelConfig, action: Action) {
    match op
    case Create(id, provider, baseUrl, apiKey, model, network) =>
      action == CreateAction && c == ModelConfig(id, provider, baseUrl, apiKey, model, network, true, false, false)
    case Update(id, baseUrl, apiKey, model) =>
      && action == UpdateAction && id in st.configs && var before := st.configs[id];
      && c.baseUrl == (if baseUrl != "" then baseUrl else before.baseUrl)
      && c.apiKey == (if apiKey != "" then apiKey else before.apiKey)
      && c.model == (if model != "" then model else before.model)
      && c.probePassed == (if Changes(before, op) then before.isCurrent else before.probePassed)
      && c.id == id && c.provider == before.provider && c.network == before.network
      && c.enabled == before.enabled && c.isCurrent == before.isCurrent
    case Enable(id) => action == EnableAction && id in st.configs && c == st.configs[id].(enabled := true)
    case Disable(id) => action == DisableAction && id in st.configs && c == st.configs[id].(enabled := false)
    case Switch(id) =>
      action == SwitchAction && id in st.configs && c == st.configs[id].(isCurrent := true, probePassed := true)
    case Probe(id) => action == ProbeAction && id in st.configs && c == st.configs[id].(probePassed := ans.available)
  }

  lemma {:induction false} UpdateLeaves(parts: Parts, st: State, op: Op, ans: Answers)
    requires Filed(st.configs) && op.Update? && op.id in st.configs && PerformUpdate(parts, st, st.configs[op.id], op, ans).1.Ok?
    ensures var next := PerformUpdate(parts, st, st.configs[op.id], op, ans).0;
      && op.id in next.configs && |next.audits| == |st.audits| + 1
      && Leaves(parts, st, op, ans, next.configs[op.id], next.audits[|st.audits|].action)
  {
    var previous := st.configs[op.id];
    EditedChanges(previous, op);
    EditedKeeps(previous, op);
    UpdateCurrentWrites(parts, st, previous, Edited(previous, op).(probePassed := false), ans);
  }

  /** A successful operation writes what it was asked to write and nothing else of its config. */
  lemma {:induction false} SuccessWrites(parts: Parts, st: State, op: Op, ans: Answers)
    requires Filed(st.configs) && Perform(parts, st, op, ans).1.Ok?
    ensures var next := Perform(parts, st, op, ans).0;
      && op.id in next.configs && |next.audits| == |st.audits| + 1
      && Leaves(parts, st, op, ans, next.configs[op.id], next.audits[|st.audits|].action)
  {
    if op.Update? {
      UpdateLeaves(parts, st, op, ans);
    }
  }

  // ---- Agreement of the proxy copy ---------------------------------------------------------------------

  ghost predicate Mirrors(p: Params, cfg: ModelConfig) {
    p.provider == cfg.provider && p.baseUrl == cfg.baseUrl && p.apiKey == cfg.apiKey && p.model == cfg.model
  }

  /** The proxy entry of the current config carries the provider, URL, key and model the store holds. */
  ghost predicate ProxyAgrees(parts: Parts, st: State) {
    parts.hasSyncer ==> forall id | IsCurrent(st.configs, id) :: id in st.proxy && Mirrors(st.proxy[id], st.configs[id])
  }

  /** The operation had to take a sync back and that sync failed. */
  ghost predicate RestoreFailed(parts: Parts, st: State, op: Op, ans: Answers) {
    && parts.hasSyncer && ans.authorized && op.Update? && IsCurrent(st.configs, op.id)
    && Edited(st.configs[op.id], op) != st.configs[op.id]
    && !ans.syncFails && (!parts.hasProber || !ans.available || ans.saveFails)
    && ans.restoreFails
  }

  /** The operation wrote the proxy entry of the config that is current afterwards, with what the store holds. */
  ghost predicate Resyncs(parts: Parts, st: State, op: Op, ans: Answers) {
    && parts.hasSyncer && ans.authorized && op.id in st.configs && !ans.syncFails
    && match op
       case Switch(_) =>
         && st.configs[op.id].enabled
         && (IsCurrent(st.configs, op.id) || (Probed(parts, st.configs[op.id], ans).Ok? && !ans.saveFails))
       case Update(_, _, _, _) =>
         && IsCurrent(st.configs, op.id) && Edited(st.configs[op.id], op) != st.configs[op.id]
         && !RestoreFailed(parts, st, op, ans)
       case _ => false
  }

  /** A changed current config: what the proxy holds for it is what was synced last. */
  lemma ProxyAfterUpdate(parts: Parts, st: State, previous: ModelConfig, cfg: ModelConfig, ans: Answers)
    requires parts.hasSyncer && previous.id == cfg.id
    ensures var next := PerformUpdateCurrent(parts, st, previous, cfg, ans).0;
      next.proxy == if ans.syncFails then st.proxy
        else if (Probed(parts, cfg, ans).Ok? && !ans.saveFails) || ans.restoreFails then st.proxy[cfg.id := ParamsOf(cfg)]
        else st.proxy[cfg.id := ParamsOf(previous)]
  {
  }

  lemma AgreesOnOne(parts: Parts, st: State, id: string)
    requires SingleCurrent(st.configs) && parts.hasSyncer && IsCurrent(st.configs, id)
    ensures ProxyAgrees(parts, st) <==> id in st.proxy && st.proxy[id] == ParamsOf(st.configs[id])
  {
  }

  /** An operation that syncs: what the proxy entry of its config mirrors afterwards. */
  ghost predicate SyncsTo(parts: Parts, st: State, op: Op, ans: Answers, cfg: ModelConfig) {
    && parts.hasSyncer && ans.authorized && !ans.syncFails && op.id in st.configs
    && match op
       case Switch(_) => st.configs[op.id].enabled && cfg == st.configs[op.id]
       case Update(_, _, _, _) =>
         && st.configs[op.id].isCurrent && Changes(st.configs[op.id], op)
         && cfg == (if Perform(parts, st, op, ans).1.Ok? || ans.restoreFails then Edited(st.configs[op.id], op) else st.configs[op.id])
       case _ => false
  }

  ghost predicate ProxyFollows(parts: Parts, st: State, op: Op, ans: Answers, proxy: Proxy) {
    && (forall id | id != op.id :: (id in proxy <==> id in st.proxy) && (id in st.proxy ==> proxy[id] == st.proxy[id]))
    && (forall cfg | SyncsTo(parts, st, op, ans, cfg) :: op.id in proxy && Mirrors(proxy[op.id], cfg))
    && ((forall cfg :: !SyncsTo(parts, st, op, ans, cfg)) ==> proxy == st.proxy)
  }

  lemma {:induction false} UpdateFollows(parts: Parts, st: State, op: Op, ans: Answers)
    requires Filed(st.configs) && op.Update? && op.id in st.configs && ans.authorized
    ensures ProxyFollows(parts, st, op, ans, Perform(parts, st, op, ans).0.proxy)
  {
    var previous := st.configs[op.id];
    var edited := Edited(previous, op);
    EditedChanges(previous, op);
    EditedKeeps(previous, op);
    var (next, r) := Perform(parts, st, op, ans);
    if previous.isCurrent && edited != previous {
      ProxyOfChange(parts, st, previous, edited, ans);
      assert (next, r) == PerformUpdateCurrent(parts, st, previous, edited.(probePassed := false), ans);
      if parts.hasSyncer && !ans.syncFails {
        assert SyncsTo(parts, st, op, ans, if r.Ok? || ans.restoreFails then edited else previous);
      }
    } else {
      assert next.proxy == st.proxy;
    }
  }

  lemma ProxyOfChange(parts: Parts, st: State, previous: ModelConfig, edited: ModelConfig, ans: Answers)
    requires previous.id == edited.id
    ensures var (next, r) := PerformUpdateCurrent(parts, st, previous, edited.(probePassed := false), ans);
      next.proxy == if !parts.hasSyncer || ans.syncFails then st.proxy
        else st.proxy[previous.id := ParamsOf(if r.Ok? || ans.restoreFails then edited else previous)]
  {
  }

  /** The proxy changes in one entry at most, and only when an operation syncs. */
  lemma {:induction false} ProxyExactly(parts: Parts, st: State, op: Op, ans: Answers)
    requires Filed(st.configs)
    ensures ProxyFollows(parts, st, op, ans, Perform(parts, st, op, ans).0.proxy)
  {
    if ans.authorized && op.id in st.configs {
      if op.Update? {
        UpdateFollows(parts, st, op, ans);
      } else if op.Switch? && parts.hasSyncer && !ans.syncFails && st.configs[op.id].enabled {
        assert SyncsTo(parts, st, op, ans, st.configs[op.id]);
      }
    }
  }

  lemma {:induction false} UpdateAgreement(parts: Parts, st: State, op: Op, ans: Answers)
    requires SingleCurrent(st.configs) && parts.hasSyncer && op.Update? && IsCurrent(st.configs, op.id)
    ensures ProxyAgrees(parts, Perform(parts, st, op, ans).0)
       <==> Resyncs(parts, st, op, ans) || (ProxyAgrees(parts, st) && !RestoreFailed(parts, st, op, ans))
  {
    var previous, next := st.configs[op.id], Perform(parts, st, op, ans).0;
    PerformKeepsSingle(parts, st, op, ans);
    CurrentAfter(parts, st, op, ans, op.id);
    AgreesOnOne(parts, st, op.id);
    AgreesOnOne(parts, next, op.id);
    if ans.authorized && Edited(previous, op) != previous {
      var edited := Edited(previous, op).(probePassed := false);
      EditedKeeps(previous, op);
      ProxyAfterUpdate(parts, st, previous, edited, ans);
      UpdateCurrentWrites(parts, st, previous, edited, ans);
    }
  }

  lemma {:induction false} SwitchAgreement(parts: Parts, st: State, op: Op, ans: Answers)
    requires SingleCurrent(st.configs) && parts.hasSyncer && op.Switch?
    ensures ProxyAgrees(parts, Perform(parts, st, op, ans).0) <==> Resyncs(parts, st, op, ans) || ProxyAgrees(parts, st)
  {
    var (next, r) := Perform(parts, st, op, ans);
    forall id
      ensures IsCurrent(next.configs, id) <==> if r.Ok? then id == op.id else IsCurrent(st.configs, id)
    {
      CurrentAfter(parts, st, op, ans, id);
    }
  }

  lemma {:induction false} OtherAgreement(parts: Parts, st: State, op: Op, ans: Answers)
    requires SingleCurrent(st.configs) && Drawn(st, op) && parts.hasSyncer
    requires !op.Switch? && (op.Update? ==> !IsCurrent(st.configs, op.id))
    ensures ProxyAgrees(parts, Perform(parts, st, op, ans).0) <==> ProxyAgrees(parts, st)
    ensures !Resyncs(parts, st, op, ans) && !RestoreFailed(parts, st, op, ans)
  {
    var next := Perform(parts, st, op, ans).0;
    forall id
      ensures IsCurrent(next.configs, id) <==> IsCurrent(st.configs, id)
      ensures IsCurrent(next.configs, id) ==> ParamsOf(next.configs[id]) == ParamsOf(st.configs[id])
    {
      CurrentAfter(parts, st, op, ans, id);
    }
  }

  /**
    From any state, proxy and store agree after an operation if and only if it wrote the
    entry anew, or they agreed before and no restoring sync failed.
   */
  lemma {:induction false} AgreementAfter(parts: Parts, st: State, op: Op, ans: Answers)
    requires SingleCurrent(st.configs) && Drawn(st, op)
    ensures ProxyAgrees(parts, Perform(parts, st, op, ans).0)
       <==> Resyncs(parts, st, op, ans) || (ProxyAgrees(parts, st) && !RestoreFailed(parts, st, op, ans))
  {
    if !parts.hasSyncer {
    } else if op.Switch? {
      SwitchAgreement(parts, st, op, ans);
    } else if op.Update? && IsCurrent(st.configs, op.id) {
      UpdateAgreement(parts, st, op, ans);
    } else {
      OtherAgreement(parts, st, op, ans);
    }
  }

  /** From agreement, an operation ends in agreement unless, and only unless, its restoring sync failed. */
  lemma {:induction false} PerformKeepsAgreement(parts: Parts, st: State, op: Op, ans: Answers)
    requires SingleCurrent(st.configs) && Drawn(st, op) && ProxyAgrees(parts, st)
    ensures ProxyAgrees(parts, Perform(parts, st, op, ans).0) <==> !RestoreFailed(parts, st, op, ans)
  {
    AgreementAfter(parts, st, op, ans);
  }

  // ---- Runs ---------------------------------------------------------------------------------------------

  ghost predicate Runs(parts: Parts, st: State, run: seq<(Op, Answers)>)
    decreases |run|
  {
    run == [] || (Drawn(st, run[0].0) && Runs(parts, Perform(parts, st, run[0].0, run[0].1).0, run[1..]))
  }

  ghost function After(parts: Parts, st: State, run: seq<(Op, Answers)>): State
    decreases |run|
  {
    if run == [] then st else After(parts, Perform(parts, st, run[0].0, run[0].1).0, run[1..])
  }

  ghost predicate NeverResyncs(parts: Parts, st: State, run: seq<(Op, Answers)>)
    decreases |run|
  {
    run == [] || (!Resyncs(parts, st, run[0].0, run[0].1)
                  && NeverResyncs(parts, Perform(parts, st, run[0].0, run[0].1).0, run[1..]))
  }

  /** Some operation of the run failed to take a sync back, and none after it wrote the entry anew. */
  ghost predicate LostForGood(parts: Parts, st: State, run: seq<(Op, Answers)>)
    decreases |run|
  {
    run != [] &&
    var next := Perform(parts, st, run[0].0, run[0].1).0;
    || (RestoreFailed(parts, st, run[0].0, run[0].1) && NeverResyncs(parts, next, run[1..]))
    || LostForGood(parts, next, run[1..])
  }

  ghost function Successes(parts: Parts, st: State, run: seq<(Op, Answers)>): nat
    decreases |run|
  {
    if run == [] then 0
    else
      var (next, r) := Perform(parts, st, run[0].0, run[0].1);
      (if r.Ok? then 1 else 0) + Successes(parts, next, run[1..])
  }

  /** In every reachable state at most one config is current, it is enabled, and there is one once there was one. */
  lemma {:induction false} RunKeepsSingle(parts: Parts, st: State, run: seq<(Op, Answers)>)
    requires SingleCurrent(st.configs) && Runs(parts, st, run)
    ensures SingleCurrent(After(parts, st, run).configs)
    ensures HasCurrent(st.configs) ==> HasCurrent(After(parts, st, run).configs)
    ensures |After(parts, st, run).audits| == |st.audits| + Successes(parts, st, run)
    decreases |run|
  {
    if run != [] {
      PerformKeepsSingle(parts, st, run[0].0, run[0].1);
      AuditPerMutation(parts, st, run[0].0, run[0].1);
      RunKeepsSingle(parts, Perform(parts, st, run[0].0, run[0].1).0, run[1..]);
    }
  }

  /**
    Over every run: from agreement, proxy and store disagree at its end if and only if some
    restoring sync failed and no operation since has written the entry anew; from
    disagreement also when none has at all.
   */
  lemma {:induction false} RunAgreement(parts: Parts, st: State, run: seq<(Op, Answers)>)
    requires SingleCurrent(st.configs) && Runs(parts, st, run)
    ensures ProxyAgrees(parts, After(parts, st, run))
       <==> !LostForGood(parts, st, run) && (ProxyAgrees(parts, st) || !NeverResyncs(parts, st, run))
    decreases |run|
  {
    if run != [] {
      PerformKeepsSingle(parts, st, run[0].0, run[0].1);
      AgreementAfter(parts, st, run[0].0, run[0].1);
      RunAgreement(parts, Perform(parts, st, run[0].0, run[0].1).0, run[1..]);
    }
  }
}
