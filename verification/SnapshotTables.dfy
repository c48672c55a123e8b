/**
  The collection-level half of the snapshot checker: which tables of connections,
  rules, runtimes, credentials and challenges the host accepts, and what acceptance
  guarantees about the references between them.
*/
module SnapshotTables {
  import opened Options
  import opened SshWire
  import opened SetSizes

  /** One element of an untrusted array: either it fails its own shape check or it carries a value. */
  datatype Raw<T> = Malformed | Valid(value: T)

  datatype Connection = Connection(id: string, scopeId: ScopeId)
  datatype Rule = Rule(id: string, scopeId: ScopeId, connectionProfileId: string)
  datatype Profile = Profile(id: string, scopeId: ScopeId)

  /** The runtime tables are checked field by field, so a missing or non-string field is
      None. `rest` stands for the checks on fields that refer to nothing else. */
  datatype ConnectionRuntime = ConnectionRuntime(
    connectionProfileId: Option<string>, generation: Option<WireCounter>, rest: bool)
  datatype RuleRuntime = RuleRuntime(
    ruleId: Option<string>, connectionProfileId: Option<string>,
    connectionGeneration: Option<WireCounter>, generation: Option<WireCounter>, rest: bool)
  datatype Credential = Credential(connectionProfileId: Option<string>, rest: bool)
  datatype Runtime = Runtime(profileId: Option<string>, rest: bool)
  datatype Challenge = Challenge(
    challengeId: Option<string>, connectionProfileId: Option<string>, scopeId: Option<ScopeId>, rest: bool)

  datatype Tables = Tables(
    connections: seq<Raw<Connection>>,
    rules: seq<Raw<Rule>>,
    profiles: seq<Raw<Profile>>,
    connectionRuntimes: seq<ConnectionRuntime>,
    ruleRuntimes: seq<RuleRuntime>,
    credentials: seq<Credential>,
    runtimes: seq<Runtime>,
    challenges: seq<Challenge>)

  // ---- the sets and maps the checker builds before it decides ----

  function ConnectionIds(t: Tables): set<string> {
    set c | c in t.connections && c.Valid? :: c.value.id
  }

  function RuleIds(t: Tables): set<string> {
    set r | r in t.rules && r.Valid? :: r.value.id
  }

  function ProfileIds(t: Tables): set<string> {
    set p | p in t.profiles && p.Valid? :: p.value.id
  }

  /** `new Map(rules.map(rule => [rule.id, rule.connectionProfileId]))`: a later duplicate wins. */
  function RuleParents(rules: seq<Raw<Rule>>): map<string, string> {
    if rules == [] then map[]
    else
      var last := rules[|rules| - 1];
      var before := RuleParents(rules[..|rules| - 1]);
      if last.Valid? then before[last.value.id := last.value.connectionProfileId] else before
  }

  /** The generation recorded for each connection that has a runtime: a later duplicate wins. */
  function RuntimeGenerations(runtimes: seq<ConnectionRuntime>): map<string, WireCounter> {
    if runtimes == [] then map[]
    else
      var last := runtimes[|runtimes| - 1];
      var before := RuntimeGenerations(runtimes[..|runtimes| - 1]);
      if last.connectionProfileId.Some? && last.generation.Some?
      then before[last.connectionProfileId.value := last.generation.value]
      else before
  }

  function MapGet<K, V>(m: map<K, V>, k: K): Option<V> {
    if k in m then Some(m[k]) else None
  }

  predicate Sizes(t: Tables) {
    && |t.connections| <= 64
    && |t.rules| <= 64
    && |t.profiles| <= 64
    && |t.runtimes| <= 64
    && |t.connectionRuntimes| <= 16
    && |t.ruleRuntimes| <= 64
    && |t.credentials| <= 64
    && |t.challenges| <= 64
  }

  predicate NoDuplicates(t: Tables) {
    && |ConnectionIds(t)| == |t.connections|
    && |RuleIds(t)| == |t.rules|
    && |ProfileIds(t)| == |t.profiles|
    && |set r | r in t.runtimes :: r.profileId| == |t.runtimes|
    && |set c | c in t.credentials :: c.connectionProfileId| == |t.credentials|
    && |t.credentials| == |t.connections|
    && |set r | r in t.connectionRuntimes :: r.connectionProfileId| == |t.connectionRuntimes|
    && |set r | r in t.ruleRuntimes :: r.ruleId| == |t.ruleRuntimes|
    && |set c | c in t.challenges :: c.challengeId| == |t.challenges|
  }

  /** The element-wise half: every row is well formed and refers to rows that exist. */
  predicate RowsRefer(t: Tables, scope: ScopeId) {
    && (forall p | p in t.profiles :: p.Valid? && p.value.scopeId == scope)
    && (forall c | c in t.connections :: c.Valid? && c.value.scopeId == scope)
    && (forall r | r in t.rules ::
          r.Valid? && r.value.scopeId == scope && r.value.connectionProfileId in ConnectionIds(t))
    && (forall r | r in t.connectionRuntimes ::
          && r.connectionProfileId.Some? && r.connectionProfileId.value in ConnectionIds(t)
          && r.generation.Some? && r.rest)
    && (forall r | r in t.ruleRuntimes ::
          && r.ruleId.Some? && r.ruleId.value in RuleIds(t)
          && r.connectionProfileId.Some? && r.connectionProfileId.value in ConnectionIds(t)
          && MapGet(RuleParents(t.rules), r.ruleId.value) == r.connectionProfileId
          && MapGet(RuntimeGenerations(t.connectionRuntimes), r.connectionProfileId.value) == r.connectionGeneration
          && r.connectionGeneration.Some? && r.generation.Some? && r.rest)
    && (forall c | c in t.credentials ::
          c.connectionProfileId.Some? && c.connectionProfileId.value in ConnectionIds(t) && c.rest)
    && (forall r | r in t.runtimes ::
          r.profileId.Some? && r.profileId.value in ProfileIds(t) && r.rest)
    && (forall c | c in t.challenges ::
          && c.challengeId.Some? && c.connectionProfileId.Some?
          && c.connectionProfileId.value in ConnectionIds(t)
          && c.scopeId == Some(scope) && c.rest)
  }

  /** The tables a snapshot for `scope` must carry to be accepted. */
  predicate ValidTables(t: Tables, scope: ScopeId) {
    Sizes(t) && NoDuplicates(t) && RowsRefer(t, scope)
  }

  // ---- what acceptance guarantees ----

  /** `i` is the one and only index of `xs` that satisfies `p`. */
  ghost predicate Unique<T(!new)>(xs: seq<T>, p: T -> bool, i: int) {
    0 <= i < |xs| && p(xs[i]) && forall j | 0 <= j < |xs| && p(xs[j]) :: j == i
  }

  ghost predicate ExactlyOne<T(!new)>(xs: seq<T>, p: T -> bool) {
    exists i :: Unique(xs, p, i)
  }

  ghost function HasConnectionId(id: string): Raw<Connection> -> bool {
    (c: Raw<Connection>) => c.Valid? && c.value.id == id
  }

  ghost function HasRuleId(id: string): Raw<Rule> -> bool {
    (r: Raw<Rule>) => r.Valid? && r.value.id == id
  }

  ghost function HasCredentialFor(id: string): Credential -> bool {
    (c: Credential) => c.connectionProfileId == Some(id)
  }

  ghost function HasRuntimeFor(id: string): ConnectionRuntime -> bool {
    (r: ConnectionRuntime) => r.connectionProfileId == Some(id)
  }

  /** No dangling, missing or doubled reference anywhere in the snapshot's main tables. */
  ghost predicate ReferentiallyClosed(t: Tables) {
    // credential states are in bijection with connections
    && (forall i | 0 <= i < |t.connections| ::
          t.connections[i].Valid? && ExactlyOne(t.credentials, HasCredentialFor(t.connections[i].value.id)))
    && (forall j | 0 <= j < |t.credentials| ::
          && t.credentials[j].connectionProfileId.Some?
          && ExactlyOne(t.connections, HasConnectionId(t.credentials[j].connectionProfileId.value)))
    // every rule has exactly one parent connection
    && (forall i | 0 <= i < |t.rules| ::
          t.rules[i].Valid? && ExactlyOne(t.connections, HasConnectionId(t.rules[i].value.connectionProfileId)))
    // every rule runtime belongs to exactly one rule, and the one runtime of that rule's
    // parent connection carries the generation the rule runtime was opened under
    && (forall k | 0 <= k < |t.ruleRuntimes| ::
          RuleRuntimeClosed(t, t.ruleRuntimes[k]))
  }

  ghost predicate RuleRuntimeClosed(t: Tables, r: RuleRuntime) {
    && r.ruleId.Some? && r.connectionProfileId.Some? && r.connectionGeneration.Some?
    && (exists i :: Unique(t.rules, HasRuleId(r.ruleId.value), i)
                    && t.rules[i].value.connectionProfileId == r.connectionProfileId.value)
    && (exists i :: Unique(t.connectionRuntimes, HasRuntimeFor(r.connectionProfileId.value), i)
                    && t.connectionRuntimes[i].generation == r.connectionGeneration)
  }

  // ---- counting: a set as large as the sequence it was built from means no duplicates ----

  lemma {:induction false} ElementsAtMostLength<T>(s: seq<T>)
    ensures |set x | x in s| <= |s|
  {
    if s != [] {
      var rest := s[..|s| - 1];
      ElementsAtMostLength(rest);
      var small, big := set x | x in rest, set x | x in s;
      assert big == small + {s[|s| - 1]} by {
        assert s == rest + [s[|s| - 1]];
      }
    }
  }

  lemma {:induction false} FullSizeMeansDistinct<T>(s: seq<T>, i: nat, j: nat)
    requires |set x | x in s| == |s|
    requires i < j < |s|
    ensures s[i] != s[j]
  {
    if s[i] == s[j] {
      var without := s[..j] + s[j + 1..];
      forall x ensures x in s <==> x in without {
        if x in s {
          var k :| 0 <= k < |s| && s[k] == x;
          if k == j { assert without[i] == x; }
          else if k < j { assert without[k] == x; }
          else { assert without[k - 1] == x; }
        }
      }
      assert (set x | x in s) == (set x | x in without);
      ElementsAtMostLength(without);
    }
  }

  /** The rows of a table whose keys are pairwise distinct have at most one row per key. */
  lemma DistinctKeys<T, K>(xs: seq<T>, keys: seq<K>, all: set<K>)
    requires |keys| == |xs| && all == (set k | k in keys) && |all| == |xs|
    ensures forall i, j | 0 <= i < |keys| && 0 <= j < |keys| && keys[i] == keys[j] :: i == j
  {
    forall i, j | 0 <= i < |keys| && 0 <= j < |keys| && keys[i] == keys[j]
      ensures i == j
    {
      if i < j { FullSizeMeansDistinct(keys, i, j); }
      if j < i { FullSizeMeansDistinct(keys, j, i); }
    }
  }

  lemma ConnectionsDistinct(t: Tables, scope: ScopeId)
    requires ValidTables(t, scope)
    ensures forall i | 0 <= i < |t.connections| :: t.connections[i].Valid?
    ensures forall id | id in ConnectionIds(t) :: ExactlyOne(t.connections, HasConnectionId(id))
  {
    assert forall i | 0 <= i < |t.connections| :: t.connections[i] in t.connections;
    var keys := seq(|t.connections|, i requires 0 <= i < |t.connections| => t.connections[i].value.id);
    assert ConnectionIds(t) == set k | k in keys by {
      forall id | id in ConnectionIds(t) ensures id in keys {
        var i :| 0 <= i < |t.connections| && t.connections[i].value.id == id;
        assert keys[i] == id;
      }
    }
    DistinctKeys(t.connections, keys, ConnectionIds(t));
    forall id | id in ConnectionIds(t) ensures ExactlyOne(t.connections, HasConnectionId(id)) {
      var i :| 0 <= i < |keys| && keys[i] == id;
      forall j | 0 <= j < |t.connections| && HasConnectionId(id)(t.connections[j]) ensures j == i {
        assert keys[j] == keys[i];
      }
      assert Unique(t.connections, HasConnectionId(id), i);
    }
  }

  lemma CredentialsDistinct(t: Tables, scope: ScopeId)
    requires ValidTables(t, scope)
    ensures forall i, j | 0 <= i < |t.credentials| && 0 <= j < |t.credentials|
                          && t.credentials[i].connectionProfileId == t.credentials[j].connectionProfileId :: i == j
  {
    var cs := t.credentials;
    var keys := seq(|cs|, i requires 0 <= i < |cs| => cs[i].connectionProfileId);
    var named := set c | c in cs :: c.connectionProfileId;
    assert named == set k | k in keys by {
      forall id | id in named ensures id in keys {
        var i :| 0 <= i < |cs| && cs[i].connectionProfileId == id;
        assert keys[i] == id;
      }
      forall id | id in keys ensures id in named {
        var i :| 0 <= i < |keys| && keys[i] == id;
        assert cs[i] in cs;
      }
    }
    DistinctKeys(cs, keys, named);
    forall i, j | 0 <= i < |cs| && 0 <= j < |cs| && cs[i].connectionProfileId == cs[j].connectionProfileId
      ensures i == j
    {
      assert keys[i] == keys[j];
    }
  }

  /** As many named connections as connections, and each of them exists: every one is named. */
  lemma EveryConnectionNamed(t: Tables, scope: ScopeId, id: string)
    requires ValidTables(t, scope) && id in ConnectionIds(t)
    ensures exists i :: 0 <= i < |t.credentials| && t.credentials[i].connectionProfileId == Some(id)
  {
    var named := set c | c in t.credentials :: c.connectionProfileId;
    var wanted := set id | id in ConnectionIds(t) :: Some(id);
    WrappedSize(ConnectionIds(t));
    SubsetOfSameSize(named, wanted);
    assert Some(id) in named;
  }

  /** Each connection has exactly one credential row: a bijection. */
  lemma CredentialsBiject(t: Tables, scope: ScopeId)
    requires ValidTables(t, scope)
    ensures forall id | id in ConnectionIds(t) :: ExactlyOne(t.credentials, HasCredentialFor(id))
  {
    CredentialsDistinct(t, scope);
    forall id | id in ConnectionIds(t) ensures ExactlyOne(t.credentials, HasCredentialFor(id)) {
      EveryConnectionNamed(t, scope, id);
      var i :| 0 <= i < |t.credentials| && t.credentials[i].connectionProfileId == Some(id);
      assert Unique(t.credentials, HasCredentialFor(id), i);
    }
  }

  lemma {:induction false} WrappedSize(ids: set<string>)
    ensures |set id | id in ids :: Some(id)| == |ids|
  {
    var wrapped := set id | id in ids :: Some(id);
    if ids == {} {
      assert wrapped == {};
    } else {
      var x :| x in ids;
      var rest := ids - {x};
      WrappedSize(rest);
      assert wrapped == (set id | id in rest :: Some(id)) + {Some(x)};
    }
  }

  lemma {:induction false} RuleParentsSound(rules: seq<Raw<Rule>>, id: string)
    requires id in RuleParents(rules)
    ensures exists i | 0 <= i < |rules| ::
              rules[i].Valid? && rules[i].value.id == id
              && rules[i].value.connectionProfileId == RuleParents(rules)[id]
  {
    var n := |rules| - 1;
    var last := rules[n];
    if !(last.Valid? && last.value.id == id) {
      RuleParentsSound(rules[..n], id);
      var i :| 0 <= i < n && rules[..n][i].Valid? && rules[..n][i].value.id == id
               && rules[..n][i].value.connectionProfileId == RuleParents(rules[..n])[id];
      assert rules[i] == rules[..n][i];
    } else {
      assert rules[n].value.connectionProfileId == RuleParents(rules)[id];
    }
  }

  lemma {:induction false} RuntimeGenerationsSound(runtimes: seq<ConnectionRuntime>, id: string)
    requires id in RuntimeGenerations(runtimes)
    ensures exists i | 0 <= i < |runtimes| ::
              runtimes[i].connectionProfileId == Some(id)
              && runtimes[i].generation == Some(RuntimeGenerations(runtimes)[id])
  {
    var n := |runtimes| - 1;
    var last := runtimes[n];
    if last.connectionProfileId == Some(id) && last.generation.Some? {
      assert runtimes[n].generation == Some(RuntimeGenerations(runtimes)[id]);
    } else {
      RuntimeGenerationsSound(runtimes[..n], id);
      var i :| 0 <= i < n && runtimes[..n][i].connectionProfileId == Some(id)
               && runtimes[..n][i].generation == Some(RuntimeGenerations(runtimes[..n])[id]);
      assert runtimes[i] == runtimes[..n][i];
    }
  }

  lemma RulesDistinct(t: Tables, scope: ScopeId)
    requires ValidTables(t, scope)
    ensures forall i | 0 <= i < |t.rules| :: t.rules[i].Valid?
    ensures forall i, j | 0 <= i < |t.rules| && 0 <= j < |t.rules|
                          && t.rules[i].value.id == t.rules[j].value.id :: i == j
  {
    assert forall i | 0 <= i < |t.rules| :: t.rules[i] in t.rules;
    var keys := seq(|t.rules|, i requires 0 <= i < |t.rules| => t.rules[i].value.id);
    assert RuleIds(t) == set k | k in keys by {
      forall id | id in RuleIds(t) ensures id in keys {
        var i :| 0 <= i < |t.rules| && t.rules[i].value.id == id;
        assert keys[i] == id;
      }
    }
    DistinctKeys(t.rules, keys, RuleIds(t));
    forall i, j | 0 <= i < |t.rules| && 0 <= j < |t.rules|
                  && t.rules[i].value.id == t.rules[j].value.id
      ensures i == j
    {
      assert keys[i] == keys[j];
    }
  }

  lemma RuntimesDistinct(t: Tables, scope: ScopeId)
    requires ValidTables(t, scope)
    ensures forall i, j | 0 <= i < |t.connectionRuntimes| && 0 <= j < |t.connectionRuntimes|
                          && t.connectionRuntimes[i].connectionProfileId == t.connectionRuntimes[j].connectionProfileId :: i == j
  {
    var rs := t.connectionRuntimes;
    var keys := seq(|rs|, i requires 0 <= i < |rs| => rs[i].connectionProfileId);
    var all := set r | r in rs :: r.connectionProfileId;
    assert all == set k | k in keys by {
      forall id | id in all ensures id in keys {
        var i :| 0 <= i < |rs| && rs[i].connectionProfileId == id;
        assert keys[i] == id;
      }
      forall id | id in keys ensures id in all {
        var i :| 0 <= i < |keys| && keys[i] == id;
        assert rs[i] in rs;
      }
    }
    DistinctKeys(rs, keys, all);
    forall i, j | 0 <= i < |rs| && 0 <= j < |rs| && rs[i].connectionProfileId == rs[j].connectionProfileId
      ensures i == j
    {
      assert keys[i] == keys[j];
    }
  }

  lemma RuleRuntimesClosed(t: Tables, scope: ScopeId, k: nat)
    requires ValidTables(t, scope) && k < |t.ruleRuntimes|
    ensures RuleRuntimeClosed(t, t.ruleRuntimes[k])
  {
    var r := t.ruleRuntimes[k];
    assert r in t.ruleRuntimes;
    RulesDistinct(t, scope);
    RuleParentsSound(t.rules, r.ruleId.value);
    var i :| 0 <= i < |t.rules| && t.rules[i].Valid? && t.rules[i].value.id == r.ruleId.value
             && t.rules[i].value.connectionProfileId == r.connectionProfileId.value;
    assert Unique(t.rules, HasRuleId(r.ruleId.value), i);
    RuntimesDistinct(t, scope);
    RuntimeGenerationsSound(t.connectionRuntimes, r.connectionProfileId.value);
    var c :| 0 <= c < |t.connectionRuntimes|
             && t.connectionRuntimes[c].connectionProfileId == r.connectionProfileId
             && t.connectionRuntimes[c].generation == r.connectionGeneration;
    assert Unique(t.connectionRuntimes, HasRuntimeFor(r.connectionProfileId.value), c);
  }

  /** An accepted snapshot is referentially closed. */
  lemma {:induction false} AcceptedTablesAreClosed(t: Tables, scope: ScopeId)
    requires ValidTables(t, scope)
    ensures ReferentiallyClosed(t)
  {
    ConnectionsDistinct(t, scope);
    CredentialsBiject(t, scope);
    forall i | 0 <= i < |t.connections|
      ensures t.connections[i].Valid? && ExactlyOne(t.credentials, HasCredentialFor(t.connections[i].value.id))
    {
      assert t.connections[i] in t.connections;
      assert t.connections[i].value.id in ConnectionIds(t);
    }
    forall j | 0 <= j < |t.credentials|
      ensures && t.credentials[j].connectionProfileId.Some?
              && ExactlyOne(t.connections, HasConnectionId(t.credentials[j].connectionProfileId.value))
    {
      assert t.credentials[j] in t.credentials;
    }
    forall i | 0 <= i < |t.rules|
      ensures t.rules[i].Valid? && ExactlyOne(t.connections, HasConnectionId(t.rules[i].value.connectionProfileId))
    {
      assert t.rules[i] in t.rules;
    }
    forall k | 0 <= k < |t.ruleRuntimes| ensures RuleRuntimeClosed(t, t.ruleRuntimes[k]) {
      RuleRuntimesClosed(t, scope, k);
    }
  }
}
