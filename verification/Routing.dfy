/** Security levels, and the store of route policies filed under them. */
module Routing {
  import opened ModelConfigs

  // ---- Security levels and policies ------------------------------------------------------

  const UNKNOWN := ""
  const UNCLASSIFIED := "unclassified"
  const SENSITIVE := "sensitive"
  const CLASSIFIED := "classified"

  /** Case folding as far as it matters for "unknown": ASCII letters and the Kelvin sign. */
  function Fold(c: char): char {
    if 'A' <= c <= 'Z' then c - 'A' + 'a'
    else if c == '\U{212A}' then 'k'
    else c
  }

  predicate EqualFold(s: string, t: string) {
    |s| == |t| && forall i | 0 <= i < |s| :: Fold(s[i]) == Fold(t[i])
  }

  function NormalizeLevel(level: string): string {
    if level == "" || EqualFold(level, "unknown") then UNKNOWN else level
  }

  predicate Confidential(level: string) {
    NormalizeLevel(level) == CLASSIFIED || NormalizeLevel(level) == UNKNOWN
  }

  datatype RoutePolicy = RoutePolicy(level: string, targetNetwork: string, modelConfigID: string, allowDegradedPublic: bool)

  const ZERO_POLICY := RoutePolicy("", "", "", false)

  function DefaultRoutePolicies(): seq<RoutePolicy> {
    [RoutePolicy(UNKNOWN, PRIVATE, "", false), RoutePolicy(UNCLASSIFIED, PUBLIC, "", false),
     RoutePolicy(SENSITIVE, PUBLIC, "", false), RoutePolicy(CLASSIFIED, PRIVATE, "", false)]
  }

  function DefaultPolicy(level: string): RoutePolicy {
    var ps := DefaultRoutePolicies();
    var l := NormalizeLevel(level);
    if ps[0].level == l then ps[0]
    else if ps[1].level == l then ps[1]
    else if ps[2].level == l then ps[2]
    else if ps[3].level == l then ps[3]
    else RoutePolicy(UNKNOWN, PRIVATE, "", false)
  }

  function HardenPolicy(policy: RoutePolicy): RoutePolicy {
    var p := policy.(level := NormalizeLevel(policy.level));
    if p.level == CLASSIFIED || p.level == UNKNOWN then
      p.(targetNetwork := PRIVATE, allowDegradedPublic := false,
         modelConfigID := if policy.targetNetwork != PRIVATE then "" else p.modelConfigID)
    else p
  }

  type Policies = map<string, RoutePolicy>

  /** Policies are filed under their own normalized level, and are hardened. */
  ghost predicate Sound(policies: Policies) {
    && UNKNOWN in policies
    && forall level | level in policies ::
         && policies[level].level == level && NormalizeLevel(level) == level
         && HardenPolicy(policies[level]) == policies[level]
  }

  function PolicyFor(policies: Policies, level: string): RoutePolicy {
    var l := NormalizeLevel(level);
    HardenPolicy(if l in policies then policies[l] else if UNKNOWN in policies then policies[UNKNOWN] else ZERO_POLICY)
  }

  datatype PolicyChange = PolicyChange(actorID: string, before: RoutePolicy, after: RoutePolicy)

  ghost predicate HoldsDefaults(ps: Policies) {
    forall level | level in {UNKNOWN, UNCLASSIFIED, SENSITIVE, CLASSIFIED} :: level in ps && ps[level] == DefaultPolicy(level)
  }

  /** The default policies under their levels. */
  function FiledDefaults(defaults: seq<RoutePolicy>): Policies {
    if defaults == [] then map[]
    else
      var n := |defaults| - 1;
      FiledDefaults(defaults[..n])[defaults[n].level := defaults[n]]
  }

  lemma {:induction false} DefaultsAreSound()
    ensures Sound(FiledDefaults(DefaultRoutePolicies())) && HoldsDefaults(FiledDefaults(DefaultRoutePolicies()))
  {
    var d := DefaultRoutePolicies();
    var m1: Policies := map[UNKNOWN := d[0]];
    assert d[..1][..0] == [] && d[..1][0] == d[0];
    assert FiledDefaults(d[..1]) == m1;
    assert d[..2][..1] == d[..1] && FiledDefaults(d[..2]) == m1[UNCLASSIFIED := d[1]];
    assert d[..3][..2] == d[..2] && FiledDefaults(d[..3]) == m1[UNCLASSIFIED := d[1]][SENSITIVE := d[2]];
    assert d[..4] == d && d[..4][..3] == d[..3];
    assert FiledDefaults(d) == m1[UNCLASSIFIED := d[1]][SENSITIVE := d[2]][CLASSIFIED := d[3]];
  }

  class MemoryRouteConfigStore {
    var policies: Policies
    var audits: seq<PolicyChange>

    constructor ()
      ensures Sound(policies) && HoldsDefaults(policies) && audits == []
    {
      var ps: Policies, defaults := map[], DefaultRoutePolicies();
      for i := 0 to |defaults|
        invariant ps == FiledDefaults(defaults[..i])
      {
        assert defaults[..i + 1][..i] == defaults[..i];
        ps := ps[defaults[i].level := defaults[i]];
      }
      assert defaults[..|defaults|] == defaults;
      DefaultsAreSound();
      policies, audits := ps, [];
    }

    function GetPolicy(level: string): RoutePolicy
      reads this
    {
      PolicyFor(policies, level)
    }

    method SavePolicy(policy: RoutePolicy)
      requires Sound(policies)
      modifies this
      ensures Sound(policies) && audits == old(audits)
      ensures policies == old(policies)[NormalizeLevel(policy.level) := HardenPolicy(policy)]
    {
      HardenIdempotent(policy);
      var hardened := HardenPolicy(policy);
      policies := policies[hardened.level := hardened];
    }

    method SavePolicyWithAudit(policy: RoutePolicy, actorID: string)
      requires Sound(policies)
      modifies this
      ensures Sound(policies)
      ensures policies == old(policies)[NormalizeLevel(policy.level) := HardenPolicy(policy)]
      ensures audits == old(audits) + [PolicyChange(if actorID == "" then "system" else actorID,
        if NormalizeLevel(policy.level) in old(policies) then old(policies)[NormalizeLevel(policy.level)] else DefaultPolicy(policy.level),
        HardenPolicy(policy))]
    {
      HardenIdempotent(policy);
      var hardened := HardenPolicy(policy);
      NormalizeIdempotent(policy.level);
      var level := NormalizeLevel(hardened.level);
      var before := if level in policies then policies[level] else DefaultPolicy(hardened.level);
      policies := policies[hardened.level := hardened];
      audits := audits + [PolicyChange(if actorID == "" then "system" else actorID, before, hardened)];
    }
  }

  lemma NormalizeIdempotent(level: string)
    ensures NormalizeLevel(NormalizeLevel(level)) == NormalizeLevel(level)
  {
  }

  lemma {:induction false} HardenIdempotent(policy: RoutePolicy)
    ensures HardenPolicy(HardenPolicy(policy)) == HardenPolicy(policy)
    ensures HardenPolicy(policy).level == NormalizeLevel(policy.level)
  {
    NormalizeIdempotent(policy.level);
  }

  /** Whatever was saved, confidential content is routed to the private network and never degraded. */
  lemma ConfidentialStaysPrivate(policies: Policies, level: string)
    requires Sound(policies) && (Confidential(level) || NormalizeLevel(level) !in policies)
    ensures PolicyFor(policies, level).targetNetwork == PRIVATE
    ensures !PolicyFor(policies, level).allowDegradedPublic
  {
  }

  // ---- What a saved policy comes to -------------------------------------------------------

  /** Hardening closes confidential levels and leaves every other policy as it was saved. */
  lemma HardenExactly(policy: RoutePolicy)
    ensures var p := HardenPolicy(policy);
      if Confidential(policy.level) then
        && p.targetNetwork == PRIVATE && !p.allowDegradedPublic
        && p.modelConfigID == (if policy.targetNetwork == PRIVATE then policy.modelConfigID else "")
      else
        && p.targetNetwork == policy.targetNetwork && p.allowDegradedPublic == policy.allowDegradedPublic
        && p.modelConfigID == policy.modelConfigID
  {
  }

  /** A saved policy is served for its level, however that is spelled, and for no other. */
  lemma {:induction false} SavedIsServed(policies: Policies, policy: RoutePolicy, level: string)
    requires Sound(policies)
    ensures NormalizeLevel(level) == NormalizeLevel(policy.level) ==>
      PolicyFor(policies[NormalizeLevel(policy.level) := HardenPolicy(policy)], level) == HardenPolicy(policy)
    ensures NormalizeLevel(level) != NormalizeLevel(policy.level) && NormalizeLevel(level) in policies ==>
      PolicyFor(policies[NormalizeLevel(policy.level) := HardenPolicy(policy)], level) == PolicyFor(policies, level)
  {
    HardenIdempotent(policy);
  }

  /** Before anything is saved, unclassified and sensitive texts go to the public network, all others do not. */
  lemma {:induction false} DefaultsServed(policies: Policies, level: string)
    requires HoldsDefaults(policies) && Sound(policies)
    ensures PolicyFor(policies, UNCLASSIFIED).targetNetwork == PolicyFor(policies, SENSITIVE).targetNetwork == PUBLIC
    ensures PolicyFor(policies, CLASSIFIED).targetNetwork == PolicyFor(policies, UNKNOWN).targetNetwork == PRIVATE
    ensures NormalizeLevel(level) in {UNKNOWN, UNCLASSIFIED, SENSITIVE, CLASSIFIED} ==>
      !PolicyFor(policies, level).allowDegradedPublic && PolicyFor(policies, level).modelConfigID == ""
  {
    assert NormalizeLevel(UNCLASSIFIED) == UNCLASSIFIED && NormalizeLevel(SENSITIVE) == SENSITIVE && NormalizeLevel(CLASSIFIED) == CLASSIFIED;
  }

  /** Spellings of the unknown level. */
  lemma UnknownSpelled()
    ensures NormalizeLevel("") == NormalizeLevel("unknown") == NormalizeLevel("UNKNOWN") == NormalizeLevel("Unknown") == UNKNOWN
    ensures NormalizeLevel("public") == "public"
  {
  }
}
