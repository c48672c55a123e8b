/**
  What the checker of a snapshot accepts, said without its sets and maps: over the rows of
  the tables, their keys and their references. The checker accepts exactly these tables.
*/
module SnapshotMeaning {
  import opened Options
  import opened SetSizes
  import opened SshWire
  import opened SnapshotTables

  // ---- well formed tables ----

  predicate Bounded(t: Tables) {
    && |t.connections| <= 64 && |t.rules| <= 64 && |t.profiles| <= 64 && |t.runtimes| <= 64
    && |t.connectionRuntimes| <= 16 && |t.ruleRuntimes| <= 64 && |t.credentials| <= 64 && |t.challenges| <= 64
  }

  ghost predicate HasConnection(t: Tables, id: string) {
    exists i :: 0 <= i < |t.connections| && t.connections[i].Valid? && t.connections[i].value.id == id
  }

  ghost predicate HasProfile(t: Tables, id: string) {
    exists i :: 0 <= i < |t.profiles| && t.profiles[i].Valid? && t.profiles[i].value.id == id
  }

  ghost predicate GoodConnections(t: Tables, scope: ScopeId) {
    && (forall i | 0 <= i < |t.connections| :: t.connections[i].Valid? && t.connections[i].value.scopeId == scope)
    && (forall i, j | 0 <= i < j < |t.connections| :: t.connections[i].value.id != t.connections[j].value.id)
  }

  ghost predicate GoodProfiles(t: Tables, scope: ScopeId) {
    && (forall i | 0 <= i < |t.profiles| :: t.profiles[i].Valid? && t.profiles[i].value.scopeId == scope)
    && (forall i, j | 0 <= i < j < |t.profiles| :: t.profiles[i].value.id != t.profiles[j].value.id)
  }

  ghost predicate GoodRules(t: Tables, scope: ScopeId) {
    && (forall i | 0 <= i < |t.rules| ::
          t.rules[i].Valid? && t.rules[i].value.scopeId == scope && HasConnection(t, t.rules[i].value.connectionProfileId))
    && (forall i, j | 0 <= i < j < |t.rules| :: t.rules[i].value.id != t.rules[j].value.id)
  }

  predicate Belongs(t: Tables, j: int, i: int)
    requires 0 <= j < |t.credentials| && 0 <= i < |t.connections|
  {
    t.connections[i].Valid? && t.credentials[j].connectionProfileId == Some(t.connections[i].value.id)
  }

  ghost predicate BelongsToSome(t: Tables, j: int)
    requires 0 <= j < |t.credentials|
  {
    exists i :: 0 <= i < |t.connections| && Belongs(t, j, i)
  }

  ghost predicate HasCredential(t: Tables, i: int)
    requires 0 <= i < |t.connections|
  {
    exists j :: 0 <= j < |t.credentials| && Belongs(t, j, i)
  }

  /** Every credential state is some connection's, and every connection has exactly one. */
  ghost predicate GoodCredentials(t: Tables) {
    && (forall j | 0 <= j < |t.credentials| :: t.credentials[j].rest && BelongsToSome(t, j))
    && (forall i | 0 <= i < |t.connections| :: HasCredential(t, i))
    && (forall i, j, k | 0 <= i < |t.connections| && 0 <= j < |t.credentials| && 0 <= k < |t.credentials|
                         && Belongs(t, j, i) && Belongs(t, k, i) :: j == k)
  }

  ghost predicate GoodConnectionRuntimes(t: Tables) {
    && (forall i | 0 <= i < |t.connectionRuntimes| ::
          var r := t.connectionRuntimes[i];
          r.connectionProfileId.Some? && HasConnection(t, r.connectionProfileId.value) && r.generation.Some? && r.rest)
    && (forall i, j | 0 <= i < j < |t.connectionRuntimes| ::
          t.connectionRuntimes[i].connectionProfileId != t.connectionRuntimes[j].connectionProfileId)
  }

  /** The rule of a rule runtime, and the runtime of that rule's parent, with the generation it was opened
      under. */
  ghost predicate RunsRule(t: Tables, r: RuleRuntime) {
    && (exists i :: 0 <= i < |t.rules| && t.rules[i].Valid? && Some(t.rules[i].value.id) == r.ruleId
                    && Some(t.rules[i].value.connectionProfileId) == r.connectionProfileId)
    && (exists i :: 0 <= i < |t.connectionRuntimes| && t.connectionRuntimes[i].connectionProfileId == r.connectionProfileId
                    && t.connectionRuntimes[i].generation == r.connectionGeneration)
  }

  ghost predicate GoodRuleRuntimes(t: Tables) {
    && (forall k | 0 <= k < |t.ruleRuntimes| ::
          var r := t.ruleRuntimes[k];
          RunsRule(t, r) && r.connectionGeneration.Some? && r.generation.Some? && r.rest)
    && (forall i, j | 0 <= i < j < |t.ruleRuntimes| :: t.ruleRuntimes[i].ruleId != t.ruleRuntimes[j].ruleId)
  }

  ghost predicate GoodRuntimes(t: Tables) {
    && (forall i | 0 <= i < |t.runtimes| ::
          t.runtimes[i].profileId.Some? && HasProfile(t, t.runtimes[i].profileId.value) && t.runtimes[i].rest)
    && (forall i, j | 0 <= i < j < |t.runtimes| :: t.runtimes[i].profileId != t.runtimes[j].profileId)
  }

  ghost predicate GoodChallenges(t: Tables, scope: ScopeId) {
    && (forall i | 0 <= i < |t.challenges| ::
          var c := t.challenges[i];
          && c.challengeId.Some? && c.connectionProfileId.Some? && HasConnection(t, c.connectionProfileId.value)
          && c.scopeId == Some(scope) && c.rest)
    && (forall i, j | 0 <= i < j < |t.challenges| :: t.challenges[i].challengeId != t.challenges[j].challengeId)
  }

  ghost predicate WellFormed(t: Tables, scope: ScopeId) {
    && Bounded(t)
    && GoodConnections(t, scope) && GoodProfiles(t, scope) && GoodRules(t, scope)
    && GoodCredentials(t) && GoodConnectionRuntimes(t) && GoodRuleRuntimes(t)
    && GoodRuntimes(t) && GoodChallenges(t, scope)
  }

  // ---- a set of keys is as large as its table exactly if the keys are distinct ----

  ghost predicate Distinct<K(!new)>(keys: seq<K>) {
    forall i, j | 0 <= i < j < |keys| :: keys[i] != keys[j]
  }

  lemma {:induction false} DistinctMeansFullSize<K(!new)>(keys: seq<K>)
    requires Distinct(keys)
    ensures |set k | k in keys| == |keys|
    decreases |keys|
  {
    if keys != [] {
      var n := |keys| - 1;
      DistinctMeansFullSize(keys[..n]);
      assert keys == keys[..n] + [keys[n]];
      assert keys[n] !in keys[..n];
      assert (set k | k in keys) == (set k | k in keys[..n]) + {keys[n]};
    }
  }

  lemma SizeIsDistinct<K(!new)>(keys: seq<K>)
    ensures |set k | k in keys| == |keys| <==> Distinct(keys)
  {
    if |set k | k in keys| == |keys| {
      forall i, j | 0 <= i < j < |keys| ensures keys[i] != keys[j] { FullSizeMeansDistinct(keys, i, j); }
    }
    if Distinct(keys) { DistinctMeansFullSize(keys); }
  }

  lemma KeysDistinct<K(!new)>(all: set<K>, keys: seq<K>)
    requires forall k :: k in all <==> k in keys
    ensures |all| == |keys| <==> Distinct(keys)
  {
    assert all == set k | k in keys;
    SizeIsDistinct(keys);
  }

  lemma ConnectionKeys(t: Tables)
    requires forall i | 0 <= i < |t.connections| :: t.connections[i].Valid?
    ensures |ConnectionIds(t)| == |t.connections| <==>
            forall i, j | 0 <= i < j < |t.connections| :: t.connections[i].value.id != t.connections[j].value.id
  {
    var keys := seq(|t.connections|, i requires 0 <= i < |t.connections| => t.connections[i].value.id);
    assert forall i | 0 <= i < |keys| :: keys[i] == t.connections[i].value.id && t.connections[i] in t.connections;
    KeysDistinct(ConnectionIds(t), keys);
  }

  lemma RuleKeys(t: Tables)
    requires forall i | 0 <= i < |t.rules| :: t.rules[i].Valid?
    ensures |RuleIds(t)| == |t.rules| <==>
            forall i, j | 0 <= i < j < |t.rules| :: t.rules[i].value.id != t.rules[j].value.id
  {
    var keys := seq(|t.rules|, i requires 0 <= i < |t.rules| => t.rules[i].value.id);
    assert forall i | 0 <= i < |keys| :: keys[i] == t.rules[i].value.id && t.rules[i] in t.rules;
    KeysDistinct(RuleIds(t), keys);
  }

  lemma ProfileKeys(t: Tables)
    requires forall i | 0 <= i < |t.profiles| :: t.profiles[i].Valid?
    ensures |ProfileIds(t)| == |t.profiles| <==>
            forall i, j | 0 <= i < j < |t.profiles| :: t.profiles[i].value.id != t.profiles[j].value.id
  {
    var keys := seq(|t.profiles|, i requires 0 <= i < |t.profiles| => t.profiles[i].value.id);
    assert forall i | 0 <= i < |keys| :: keys[i] == t.profiles[i].value.id && t.profiles[i] in t.profiles;
    KeysDistinct(ProfileIds(t), keys);
  }

  lemma RuntimeKeys(t: Tables)
    ensures |(set r | r in t.runtimes :: r.profileId)| == |t.runtimes| <==>
            forall i, j | 0 <= i < j < |t.runtimes| :: t.runtimes[i].profileId != t.runtimes[j].profileId
  {
    var keys := seq(|t.runtimes|, i requires 0 <= i < |t.runtimes| => t.runtimes[i].profileId);
    assert forall i | 0 <= i < |keys| :: keys[i] == t.runtimes[i].profileId && t.runtimes[i] in t.runtimes;
    KeysDistinct((set r | r in t.runtimes :: r.profileId), keys);
  }

  lemma ConnectionRuntimeKeys(t: Tables)
    ensures |(set r | r in t.connectionRuntimes :: r.connectionProfileId)| == |t.connectionRuntimes| <==>
            forall i, j | 0 <= i < j < |t.connectionRuntimes| ::
              t.connectionRuntimes[i].connectionProfileId != t.connectionRuntimes[j].connectionProfileId
  {
    var keys := seq(|t.connectionRuntimes|, i requires 0 <= i < |t.connectionRuntimes| =>
                 t.connectionRuntimes[i].connectionProfileId);
    assert forall i | 0 <= i < |keys| :: keys[i] == t.connectionRuntimes[i].connectionProfileId && t.connectionRuntimes[i] in t.connectionRuntimes;
    KeysDistinct((set r | r in t.connectionRuntimes :: r.connectionProfileId), keys);
  }

  lemma RuleRuntimeKeys(t: Tables)
    ensures |(set r | r in t.ruleRuntimes :: r.ruleId)| == |t.ruleRuntimes| <==>
            forall i, j | 0 <= i < j < |t.ruleRuntimes| :: t.ruleRuntimes[i].ruleId != t.ruleRuntimes[j].ruleId
  {
    var keys := seq(|t.ruleRuntimes|, i requires 0 <= i < |t.ruleRuntimes| => t.ruleRuntimes[i].ruleId);
    assert forall i | 0 <= i < |keys| :: keys[i] == t.ruleRuntimes[i].ruleId && t.ruleRuntimes[i] in t.ruleRuntimes;
    KeysDistinct((set r | r in t.ruleRuntimes :: r.ruleId), keys);
  }

  lemma ChallengeKeys(t: Tables)
    ensures |(set c | c in t.challenges :: c.challengeId)| == |t.challenges| <==>
            forall i, j | 0 <= i < j < |t.challenges| :: t.challenges[i].challengeId != t.challenges[j].challengeId
  {
    var keys := seq(|t.challenges|, i requires 0 <= i < |t.challenges| => t.challenges[i].challengeId);
    assert forall i | 0 <= i < |keys| :: keys[i] == t.challenges[i].challengeId && t.challenges[i] in t.challenges;
    KeysDistinct((set c | c in t.challenges :: c.challengeId), keys);
  }

  lemma CredentialKeys(t: Tables)
    ensures |(set c | c in t.credentials :: c.connectionProfileId)| == |t.credentials| <==>
            forall i, j | 0 <= i < j < |t.credentials| :: t.credentials[i].connectionProfileId != t.credentials[j].connectionProfileId
  {
    var keys := seq(|t.credentials|, i requires 0 <= i < |t.credentials| => t.credentials[i].connectionProfileId);
    assert forall i | 0 <= i < |keys| :: keys[i] == t.credentials[i].connectionProfileId && t.credentials[i] in t.credentials;
    KeysDistinct((set c | c in t.credentials :: c.connectionProfileId), keys);
  }

  // ---- references ----

  lemma ConnectionRefers(t: Tables, id: string)
    ensures id in ConnectionIds(t) <==> HasConnection(t, id)
  {
  }

  lemma ProfileRefers(t: Tables, id: string)
    ensures id in ProfileIds(t) <==> HasProfile(t, id)
  {
  }

  /** Every element of a sequence is at some index. */
  lemma {:induction false} ParentsHave(rules: seq<Raw<Rule>>, i: nat)
    requires i < |rules| && rules[i].Valid?
    ensures rules[i].value.id in RuleParents(rules)
    decreases |rules|
  {
    if i < |rules| - 1 { ParentsHave(rules[..|rules| - 1], i); }
  }

  lemma {:induction false} GenerationsHave(runtimes: seq<ConnectionRuntime>, i: nat)
    requires i < |runtimes| && runtimes[i].connectionProfileId.Some? && runtimes[i].generation.Some?
    ensures runtimes[i].connectionProfileId.value in RuntimeGenerations(runtimes)
    decreases |runtimes|
  {
    if i < |runtimes| - 1 { GenerationsHave(runtimes[..|runtimes| - 1], i); }
  }

  /** Looking a rule's parent up is finding the rule. */
  lemma ParentRefers(t: Tables, id: string, parent: string)
    requires forall i, j | 0 <= i < |t.rules| && 0 <= j < |t.rules| && t.rules[i].Valid? && t.rules[j].Valid?
                           && t.rules[i].value.id == t.rules[j].value.id :: i == j
    ensures MapGet(RuleParents(t.rules), id) == Some(parent) <==>
            exists i :: 0 <= i < |t.rules| && t.rules[i].Valid? && t.rules[i].value.id == id
                        && t.rules[i].value.connectionProfileId == parent
  {
    if id in RuleParents(t.rules) { RuleParentsSound(t.rules, id); }
    if i :| 0 <= i < |t.rules| && t.rules[i].Valid? && t.rules[i].value.id == id
            && t.rules[i].value.connectionProfileId == parent
    {
      ParentsHave(t.rules, i);
    }
  }

  lemma GenerationRefers(t: Tables, id: string, generation: WireCounter)
    requires forall i, j | 0 <= i < j < |t.connectionRuntimes| ::
               t.connectionRuntimes[i].connectionProfileId != t.connectionRuntimes[j].connectionProfileId
    ensures MapGet(RuntimeGenerations(t.connectionRuntimes), id) == Some(generation) <==>
            exists i :: 0 <= i < |t.connectionRuntimes| && t.connectionRuntimes[i].connectionProfileId == Some(id)
                        && t.connectionRuntimes[i].generation == Some(generation)
  {
    if id in RuntimeGenerations(t.connectionRuntimes) { RuntimeGenerationsSound(t.connectionRuntimes, id); }
    if i :| 0 <= i < |t.connectionRuntimes| && t.connectionRuntimes[i].connectionProfileId == Some(id)
            && t.connectionRuntimes[i].generation == Some(generation)
    {
      GenerationsHave(t.connectionRuntimes, i);
    }
  }

  // ---- table by table ----

  predicate ConnectionRows(t: Tables, scope: ScopeId) {
    |ConnectionIds(t)| == |t.connections| && forall c | c in t.connections :: c.Valid? && c.value.scopeId == scope
  }

  lemma ConnectionsChecked(t: Tables, scope: ScopeId)
    ensures ConnectionRows(t, scope) <==> GoodConnections(t, scope)
  {
    if forall c | c in t.connections :: c.Valid? && c.value.scopeId == scope {
      forall i | 0 <= i < |t.connections| ensures t.connections[i].Valid? && t.connections[i].value.scopeId == scope {
        assert t.connections[i] in t.connections;
      }
      ConnectionKeys(t);
    }
    if GoodConnections(t, scope) { ConnectionKeys(t); }
  }

  predicate ProfileRows(t: Tables, scope: ScopeId) {
    |ProfileIds(t)| == |t.profiles| && forall p | p in t.profiles :: p.Valid? && p.value.scopeId == scope
  }

  lemma ProfilesChecked(t: Tables, scope: ScopeId)
    ensures ProfileRows(t, scope) <==> GoodProfiles(t, scope)
  {
    if forall p | p in t.profiles :: p.Valid? && p.value.scopeId == scope {
      forall i | 0 <= i < |t.profiles| ensures t.profiles[i].Valid? && t.profiles[i].value.scopeId == scope {
        assert t.profiles[i] in t.profiles;
      }
      ProfileKeys(t);
    }
    if GoodProfiles(t, scope) { ProfileKeys(t); }
  }

  predicate RuleRows(t: Tables, scope: ScopeId) {
    && |RuleIds(t)| == |t.rules|
    && forall r | r in t.rules :: r.Valid? && r.value.scopeId == scope && r.value.connectionProfileId in ConnectionIds(t)
  }

  lemma RulesChecked(t: Tables, scope: ScopeId)
    ensures RuleRows(t, scope) <==> GoodRules(t, scope)
  {
    forall id ensures id in ConnectionIds(t) <==> HasConnection(t, id) { ConnectionRefers(t, id); }
    if RuleRows(t, scope) {
      forall i | 0 <= i < |t.rules|
        ensures t.rules[i].Valid? && t.rules[i].value.scopeId == scope && HasConnection(t, t.rules[i].value.connectionProfileId)
      {
        assert t.rules[i] in t.rules;
      }
      RuleKeys(t);
    }
    if GoodRules(t, scope) { RuleKeys(t); }
  }

  predicate CredentialRows(t: Tables) {
    && |set c | c in t.credentials :: c.connectionProfileId| == |t.credentials|
    && |t.credentials| == |t.connections|
    && forall c | c in t.credentials ::
         c.connectionProfileId.Some? && c.connectionProfileId.value in ConnectionIds(t) && c.rest
  }

  lemma CredentialNames(t: Tables, scope: ScopeId)
    requires ConnectionRows(t, scope)
    ensures var named := set c | c in t.credentials :: c.connectionProfileId;
            var wanted := set id | id in ConnectionIds(t) :: Some(id);
            && |wanted| == |t.connections|
            && (CredentialRows(t) ==> named == wanted)
            && (GoodCredentials(t) ==> named == wanted)
  {
    var named := set c | c in t.credentials :: c.connectionProfileId;
    var wanted := set id | id in ConnectionIds(t) :: Some(id);
    WrappedSize(ConnectionIds(t));
    if CredentialRows(t) {
      assert named <= wanted;
      SubsetOfSameSize(named, wanted);
    }
    if GoodCredentials(t) {
      forall name | name in named ensures name in wanted {
        var j :| 0 <= j < |t.credentials| && t.credentials[j].connectionProfileId == name;
        assert BelongsToSome(t, j);
        var i :| 0 <= i < |t.connections| && Belongs(t, j, i);
        assert t.connections[i] in t.connections;
      }
      forall name | name in wanted ensures name in named {
        var i :| 0 <= i < |t.connections| && t.connections[i].Valid? && Some(t.connections[i].value.id) == name;
        assert HasCredential(t, i);
        var j :| 0 <= j < |t.credentials| && Belongs(t, j, i);
        assert t.credentials[j] in t.credentials;
      }
    }
  }

  lemma CheckedCredentialsAreGood(t: Tables, scope: ScopeId)
    requires GoodConnections(t, scope) && CredentialRows(t)
    ensures GoodCredentials(t)
  {
    ConnectionsChecked(t, scope);
    CredentialNames(t, scope);
    CredentialKeys(t);
    forall j | 0 <= j < |t.credentials|
      ensures t.credentials[j].rest && BelongsToSome(t, j)
    {
      assert t.credentials[j] in t.credentials;
      ConnectionRefers(t, t.credentials[j].connectionProfileId.value);
      var i :| 0 <= i < |t.connections| && t.connections[i].Valid?
               && t.connections[i].value.id == t.credentials[j].connectionProfileId.value;
      assert Belongs(t, j, i);
    }
    var named, wanted := set c | c in t.credentials :: c.connectionProfileId, set id | id in ConnectionIds(t) :: Some(id);
    forall i | 0 <= i < |t.connections| ensures HasCredential(t, i) {
      assert t.connections[i] in t.connections && t.connections[i].value.id in ConnectionIds(t);
      assert Some(t.connections[i].value.id) in wanted && wanted == named;
      var j :| 0 <= j < |t.credentials| && t.credentials[j].connectionProfileId == Some(t.connections[i].value.id);
      assert Belongs(t, j, i);
    }
  }

  lemma GoodCredentialsAreChecked(t: Tables, scope: ScopeId)
    requires GoodConnections(t, scope) && GoodCredentials(t)
    ensures CredentialRows(t)
  {
    ConnectionsChecked(t, scope);
    CredentialNames(t, scope);
    forall j, k | 0 <= j < k < |t.credentials|
      ensures t.credentials[j].connectionProfileId != t.credentials[k].connectionProfileId
    {
      assert BelongsToSome(t, j);
      var i :| 0 <= i < |t.connections| && Belongs(t, j, i);
      assert Belongs(t, k, i) ==> j == k;
    }
    CredentialKeys(t);
    forall c | c in t.credentials
      ensures c.connectionProfileId.Some? && c.connectionProfileId.value in ConnectionIds(t) && c.rest
    {
      var j :| 0 <= j < |t.credentials| && t.credentials[j] == c;
      assert BelongsToSome(t, j);
      var i :| 0 <= i < |t.connections| && Belongs(t, j, i);
      assert t.connections[i] in t.connections;
    }
  }

  predicate ConnectionRuntimeRows(t: Tables) {
    && |set r | r in t.connectionRuntimes :: r.connectionProfileId| == |t.connectionRuntimes|
    && forall r | r in t.connectionRuntimes ::
         && r.connectionProfileId.Some? && r.connectionProfileId.value in ConnectionIds(t)
         && r.generation.Some? && r.rest
  }

  lemma ConnectionRuntimesChecked(t: Tables)
    ensures ConnectionRuntimeRows(t) <==> GoodConnectionRuntimes(t)
  {
    ConnectionRuntimeKeys(t);
    forall id ensures id in ConnectionIds(t) <==> HasConnection(t, id) { ConnectionRefers(t, id); }
    if ConnectionRuntimeRows(t) {
      forall i | 0 <= i < |t.connectionRuntimes|
        ensures var r := t.connectionRuntimes[i];
                r.connectionProfileId.Some? && HasConnection(t, r.connectionProfileId.value) && r.generation.Some? && r.rest
      {
        assert t.connectionRuntimes[i] in t.connectionRuntimes;
      }
    }
  }

  predicate RuleRuntimeRow(t: Tables, r: RuleRuntime) {
    && r.ruleId.Some? && r.ruleId.value in RuleIds(t)
    && r.connectionProfileId.Some? && r.connectionProfileId.value in ConnectionIds(t)
    && MapGet(RuleParents(t.rules), r.ruleId.value) == r.connectionProfileId
    && MapGet(RuntimeGenerations(t.connectionRuntimes), r.connectionProfileId.value) == r.connectionGeneration
    && r.connectionGeneration.Some? && r.generation.Some? && r.rest
  }

  lemma RuleRuntimeChecked(t: Tables, scope: ScopeId, r: RuleRuntime)
    requires GoodRules(t, scope) && GoodConnectionRuntimes(t)
    ensures RuleRuntimeRow(t, r) <==> RunsRule(t, r) && r.connectionGeneration.Some? && r.generation.Some? && r.rest
  {
    if r.ruleId.Some? && r.connectionProfileId.Some? {
      ParentRefers(t, r.ruleId.value, r.connectionProfileId.value);
      if r.connectionGeneration.Some? {
        GenerationRefers(t, r.connectionProfileId.value, r.connectionGeneration.value);
      }
      if i :| 0 <= i < |t.rules| && t.rules[i].Valid? && t.rules[i].value.id == r.ruleId.value
              && t.rules[i].value.connectionProfileId == r.connectionProfileId.value
      {
        assert t.rules[i] in t.rules;
        ConnectionRefers(t, t.rules[i].value.connectionProfileId);
      }
    }
  }

  lemma RuleRuntimesChecked(t: Tables, scope: ScopeId)
    requires GoodRules(t, scope) && GoodConnectionRuntimes(t)
    ensures GoodRuleRuntimes(t) <==>
            && |set r | r in t.ruleRuntimes :: r.ruleId| == |t.ruleRuntimes|
            && forall r | r in t.ruleRuntimes :: RuleRuntimeRow(t, r)
  {
    RuleRuntimeKeys(t);
    forall r ensures RuleRuntimeRow(t, r) <==>
                     RunsRule(t, r) && r.connectionGeneration.Some? && r.generation.Some? && r.rest
    {
      RuleRuntimeChecked(t, scope, r);
    }
    if forall r | r in t.ruleRuntimes :: RuleRuntimeRow(t, r) {
      forall k | 0 <= k < |t.ruleRuntimes| ensures RuleRuntimeRow(t, t.ruleRuntimes[k]) {
        assert t.ruleRuntimes[k] in t.ruleRuntimes;
      }
    }
  }

  predicate RuntimeRows(t: Tables) {
    && |set r | r in t.runtimes :: r.profileId| == |t.runtimes|
    && forall r | r in t.runtimes :: r.profileId.Some? && r.profileId.value in ProfileIds(t) && r.rest
  }

  lemma RuntimesChecked(t: Tables)
    ensures RuntimeRows(t) <==> GoodRuntimes(t)
  {
    RuntimeKeys(t);
    forall id ensures id in ProfileIds(t) <==> HasProfile(t, id) { ProfileRefers(t, id); }
    if RuntimeRows(t) {
      forall i | 0 <= i < |t.runtimes|
        ensures t.runtimes[i].profileId.Some? && HasProfile(t, t.runtimes[i].profileId.value) && t.runtimes[i].rest
      {
        assert t.runtimes[i] in t.runtimes;
      }
    }
  }

  predicate ChallengeRows(t: Tables, scope: ScopeId) {
    && |set c | c in t.challenges :: c.challengeId| == |t.challenges|
    && forall c | c in t.challenges ::
         && c.challengeId.Some? && c.connectionProfileId.Some? && c.connectionProfileId.value in ConnectionIds(t)
         && c.scopeId == Some(scope) && c.rest
  }

  lemma ChallengesChecked(t: Tables, scope: ScopeId)
    ensures ChallengeRows(t, scope) <==> GoodChallenges(t, scope)
  {
    ChallengeKeys(t);
    forall id ensures id in ConnectionIds(t) <==> HasConnection(t, id) { ConnectionRefers(t, id); }
    if ChallengeRows(t, scope) {
      forall i | 0 <= i < |t.challenges|
        ensures var c := t.challenges[i];
                && c.challengeId.Some? && c.connectionProfileId.Some? && HasConnection(t, c.connectionProfileId.value)
                && c.scopeId == Some(scope) && c.rest
      {
        assert t.challenges[i] in t.challenges;
      }
    }
  }

  /** The checker's conditions, sorted by table. */
  lemma CheckedByTable(t: Tables, scope: ScopeId)
    ensures ValidTables(t, scope) <==>
            && Bounded(t) && ConnectionRows(t, scope) && ProfileRows(t, scope) && RuleRows(t, scope) && CredentialRows(t)
            && ConnectionRuntimeRows(t) && RuntimeRows(t) && ChallengeRows(t, scope)
            && |set r | r in t.ruleRuntimes :: r.ruleId| == |t.ruleRuntimes|
            && forall r | r in t.ruleRuntimes :: RuleRuntimeRow(t, r)
  {
  }

  /** The checker accepts exactly the well formed tables. */
  lemma {:induction false} AcceptsExactlyWellFormed(t: Tables, scope: ScopeId)
    ensures ValidTables(t, scope) <==> WellFormed(t, scope)
  {
    CheckedByTable(t, scope);
    ConnectionsChecked(t, scope);
    ProfilesChecked(t, scope);
    RulesChecked(t, scope);
    ConnectionRuntimesChecked(t);
    RuntimesChecked(t);
    ChallengesChecked(t, scope);
    if GoodConnections(t, scope) && CredentialRows(t) { CheckedCredentialsAreGood(t, scope); }
    if GoodConnections(t, scope) && GoodCredentials(t) { GoodCredentialsAreChecked(t, scope); }
    if GoodRules(t, scope) && GoodConnectionRuntimes(t) { RuleRuntimesChecked(t, scope); }
  }
}
