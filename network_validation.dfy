/** Admission validation of the Ethereum `Network` resource: `ValidateCreate`
    checks one spec, `ValidateUpdate` checks a change from an old spec to a new
    one. Every violated rule contributes one (field path, rejected value,
    message) entry; nothing stops at the first violation. */
module NetworkValidation {
  import opened Wrappers
  import opened Text
  import opened Logging
  import opened FieldErrors
  import opened Rules
  import opened EthereumNetwork
  import opened Capabilities

  // ---------------------------------------------------------------------------
  // Network mode: join a public network, or bootstrap one from a genesis block

  function NetworkModeRules(s: NetworkSpec): seq<Rule<FieldError>> {
    [ Rule(s.join != "" && s.genesis.Some?,
        Invalid("spec.join", Text(s.join), NoGenesisWhenJoining)),
      Rule(s.join != "" && s.consensus.Some?,
        Invalid("spec.consensus", Text(ConsensusField(s.consensus)), NoConsensusWhenJoining)),
      Rule(s.join != "" && s.id != 0,
        Invalid("spec.id", Text(NatToString(s.id)), NoIdWhenJoining)),
      Rule(s.join == "" && s.genesis.None?,
        Invalid("spec.genesis", Text(""), RequiredWithoutJoin)),
      Rule(s.join == "" && s.id == 0,
        Invalid("spec.id", Text(""), RequiredWithoutJoin)) ]
  }

  // ---------------------------------------------------------------------------
  // Genesis block

  /** A fork and the block that activates it. */
  datatype Milestone = Milestone(fork: string, block: nat)

  /** The forks in the order in which they must activate. */
  function ForkSchedule(f: Forks): seq<Milestone> {
    [ Milestone("homestead", f.homestead),
      Milestone("eip150", f.eip150),
      Milestone("eip155", f.eip155),
      Milestone("eip158", f.eip158),
      Milestone("byzantium", f.byzantium),
      Milestone("constantinople", f.constantinople),
      Milestone("petersburg", f.petersburg),
      Milestone("istanbul", f.istanbul),
      Milestone("muirglacier", f.muirGlacier),
      Milestone("berlin", f.berlin),
      Milestone("london", f.london) ]
  }

  /** The field path of a fork: `spec.genesis.forks.<fork>`, from which the fork can be read back. */
  function ForkField(fork: string): (f: string)
    ensures |f| >= 19 && f[..19] == "spec.genesis.forks." && f[19..] == fork
  {
    "spec.genesis.forks." + fork
  }

  /** The fork schedule of a genesis block; a missing schedule counts as all forks at block 0. */
  function ScheduleOf(g: Genesis): seq<Milestone> {
    ForkSchedule(g.forks.GetOr(NoForks))
  }

  function ForkError(later: Milestone, earlier: Milestone): FieldError {
    Invalid(ForkField(later.fork), Text(NatToString(later.block)), ForkOrder(later.fork, later.block, earlier.fork, earlier.block))
  }

  /** Every fork is compared with the one just before it. */
  function ForkRules(ms: seq<Milestone>): seq<Rule<FieldError>> {
    var pairs := if |ms| == 0 then 0 else |ms| - 1;
    seq(pairs, k requires 0 <= k < pairs => Rule(ms[k + 1].block < ms[k].block, ForkError(ms[k + 1], ms[k])))
  }

  /** The rules on the genesis block `g` of spec `s` apart from the fork order. */
  function GenesisBlockRules(s: NetworkSpec, g: Genesis): seq<Rule<FieldError>> {
    [ Rule(s.consensus.None?,
        Invalid("spec.consensus", Text(""), ConsensusRequired)),
      Rule(g.chainId == MainnetChainId,
        Invalid("spec.genesis.chainId", Text(NatToString(g.chainId)), MainnetChainIdReused)),
      Rule(g.clique && s.consensus != Some(ProofOfAuthority),
        Invalid("spec.consensus", Text(ConsensusField(s.consensus)), CliqueNeedsPoA)),
      Rule(g.ibft2 && s.consensus != Some(IstanbulBFT),
        Invalid("spec.consensus", Text(ConsensusField(s.consensus)), Ibft2NeedsIbft2)),
      Rule(g.ethash.Some? && s.consensus != Some(ProofOfWork),
        Invalid("spec.consensus", Text(ConsensusField(s.consensus)), EthashNeedsPoW)) ]
  }

  /** The rules a genesis block `g` of spec `s` must satisfy. */
  function GenesisRules(s: NetworkSpec, g: Genesis): seq<Rule<FieldError>> {
    GenesisBlockRules(s, g) + ForkRules(ScheduleOf(g))
  }

  // ---------------------------------------------------------------------------
  // Nodes

  /** A violation on one node, relative to that node's path `spec.nodes[i]`. */
  datatype NodeIssue = Issue(child: string, badValue: BadValue, detail: Detail)

  function Located(i: nat, iss: NodeIssue): FieldError {
    Invalid(NodePath(i, iss.child), iss.badValue, iss.detail)
  }

  /** The issues of node `i`, placed at that node's path. */
  function AtNode(i: nat, issues: seq<NodeIssue>): (errs: seq<FieldError>)
    ensures |errs| == |issues|
    decreases |issues|
  {
    if |issues| == 0 then [] else [Located(i, issues[0])] + AtNode(i, issues[1..])
  }

  const BootnodeIssue: NodeIssue :=
    Issue("bootnode", Flag(false), BootnodeFirst)

  /** The rule on the node list as a whole. */
  function NodeListRules(s: NetworkSpec): seq<Rule<FieldError>> {
    [Rule(|s.nodes| > 1 && !s.nodes[0].bootnode, Located(0, BootnodeIssue))]
  }

  function FeatureDetail(f: Feature, c: Client): Detail {
    match f
    case AccountImport => ImportClients
    case IBFT2Consensus => NoIbft2
    case FixedDifficultyPoW => NoFixedDifficulty
    case LightSync => LightSyncGethOnly
    case GraphQLServer => NoGraphQL
    case Mining => NoMining
    case LogVerbosity(_) => LevelUnsupported(ClientName(c))
  }

  /** The violation reported when node `n` switches on `f` and its client lacks it:
      a log level is reported on `logging`, every other feature on `client`. */
  function CapabilityIssue(n: Node, f: Feature): NodeIssue {
    match f
    case LogVerbosity(l) => Issue("logging", Text(LogLevelName(l)), FeatureDetail(f, n.client))
    case _ => Issue("client", Text(ClientName(n.client)), FeatureDetail(f, n.client))
  }

  /** The rules every node must satisfy, whatever its client. */
  function FixedNodeRules(n: Node): seq<Rule<NodeIssue>> {
    [ Rule(n.bootnode && n.nodekeySecretName == "",
        Issue("nodekey", Text(""), NodekeyRequired)),
      Rule(n.miner && n.coinbase == "",
        Issue("coinbase", Text(""), CoinbaseRequired)),
      Rule(n.coinbase != "" && !n.miner,
        Issue("miner", Flag(false), MinerRequired)),
      Rule(n.client == Geth && n.miner && n.importedAccount.None?,
        Issue("import", Text(""), ImportRequired)),
      Rule(n.importedAccount.Some? && n.rpc,
        Issue("rpc", Flag(true), OffWhenImporting)),
      Rule(n.importedAccount.Some? && n.ws,
        Issue("ws", Flag(true), OffWhenImporting)),
      Rule(n.importedAccount.Some? && n.graphql,
        Issue("graphql", Flag(true), OffWhenImporting)),
      Rule(n.client == Geth && n.graphql && !n.rpc,
        Issue("rpc", Flag(false), RpcForGraphQL)) ]
  }

  /** Node `n` may switch on `f` only if its client supports it. */
  function GateRule(s: NetworkSpec, n: Node, f: Feature): Rule<NodeIssue> {
    Rule(Enabled(s, n, f) && !Supports(n.client, f), CapabilityIssue(n, f))
  }

  function GateRules(s: NetworkSpec, n: Node): seq<Rule<NodeIssue>> {
    seq(|GatedFeatures|, k requires 0 <= k < |GatedFeatures| => GateRule(s, n, GatedFeatures[k]))
  }

  function NodeRules(s: NetworkSpec, n: Node): seq<Rule<NodeIssue>> {
    FixedNodeRules(n) + GateRules(s, n)
  }

  function NodeIssues(s: NetworkSpec, n: Node): seq<NodeIssue> {
    Violations(NodeRules(s, n))
  }

  function NodesErrors(s: NetworkSpec, from: nat): ErrorList
    decreases |s.nodes| - from
  {
    if from >= |s.nodes| then [] else AtNode(from, NodeIssues(s, s.nodes[from])) + NodesErrors(s, from + 1)
  }

  // ---------------------------------------------------------------------------
  // The two entry points

  /** The genesis rules apply only when there is a genesis block. */
  function GenesisRulesOf(s: NetworkSpec): seq<Rule<FieldError>> {
    match s.genesis
    case None => []
    case Some(g) => GenesisRules(s, g)
  }

  /** The rules on the network as a whole. */
  function SpecRules(s: NetworkSpec): seq<Rule<FieldError>> {
    NetworkModeRules(s) + GenesisRulesOf(s) + NodeListRules(s)
  }

  /** All violations of a spec that is being created. */
  function ValidateCreate(s: NetworkSpec): ErrorList {
    Violations(SpecRules(s)) + NodesErrors(s, 0)
  }

  function ImmutableError(field: string, value: BadValue): FieldError {
    Invalid(field, value, Immutable)
  }

  /** Node names may not change, for the nodes present before and after. */
  function NodeNameRules(olds: seq<Node>, news: seq<Node>): seq<Rule<FieldError>> {
    var common := if |olds| < |news| then |olds| else |news|;
    seq(common, k requires 0 <= k < common =>
      Rule(olds[k].name != news[k].name, ImmutableError(NodePath(k, "name"), Text(news[k].name))))
  }

  /** The fields fixed at creation. The stored spec was defaulted when it was created and
      the new one is defaulted before it is judged, so genesis blocks are compared as
      defaulting leaves them: a missing fork schedule equals the default one. */
  function ImmutabilityRules(before: NetworkSpec, after: NetworkSpec): seq<Rule<FieldError>> {
    [ Rule(before.join != after.join, ImmutableError("spec.join", Text(after.join))),
      Rule(before.consensus != after.consensus, ImmutableError("spec.consensus", Text(ConsensusField(after.consensus)))),
      Rule(DefaultedGenesis(before.genesis) != DefaultedGenesis(after.genesis), ImmutableError("spec.genesis", Text(""))),
      Rule(before.id != after.id, ImmutableError("spec.id", Text(NatToString(after.id)))) ]
    + NodeNameRules(before.nodes, after.nodes)
  }

  /** All violations of a change from `before` to `after`: the fields fixed at creation
      that changed, then every violation of `after` itself. */
  function ValidateUpdate(before: NetworkSpec, after: NetworkSpec): ErrorList {
    Violations(ImmutabilityRules(before, after)) + ValidateCreate(after)
  }

  // ---------------------------------------------------------------------------
  // Every rule makes a report of its own

  lemma LocatedInjective(i: nat, a: NodeIssue, j: nat, b: NodeIssue)
    requires Located(i, a) == Located(j, b)
    ensures i == j && a == b
  {
    NodePathInjective(i, a.child, j, b.child);
  }

  /** What a fork-order error looks like. */
  predicate ForkShaped(e: FieldError) {
    e.detail.ForkOrder?
  }

  /** What an error on the network as a whole, rather than on one node, looks like. */
  predicate NetworkLevel(e: FieldError) {
    |e.field| > 5 && e.field[5] != 'n' && e.detail != Immutable
  }

  lemma ForkRulesShape(ms: seq<Milestone>)
    ensures forall k :: 0 <= k < |ForkRules(ms)| ==> ForkShaped(ForkRules(ms)[k].report)
    ensures forall k :: 0 <= k < |ForkRules(ms)| ==> NetworkLevel(ForkRules(ms)[k].report)
  {
    forall k | 0 <= k < |ForkRules(ms)| ensures NetworkLevel(ForkRules(ms)[k].report) {
      ForkRuleAt(ms, k);
      ForkErrorNetworkLevel(ms[k + 1], ms[k]);
    }
  }

  lemma ForkErrorNetworkLevel(later: Milestone, earlier: Milestone)
    ensures NetworkLevel(ForkError(later, earlier))
  {
    var f := ForkField(later.fork);
    assert f[5] == f[..19][5] == 'g';
  }

  /** Fork-order errors name the later fork in their field, so each fork pair has its own. */
  lemma ForkRulesDistinct(ms: seq<Milestone>)
    requires forall a, b :: 0 <= a < b < |ms| ==> ms[a].fork != ms[b].fork
    ensures DistinctReports(ForkRules(ms))
  {
    var rules := ForkRules(ms);
    forall a, b | 0 <= a < b < |rules| ensures rules[a].report.field != rules[b].report.field {
      ForkRuleAt(ms, a);
      ForkRuleAt(ms, b);
    }
  }

  lemma ForkRuleAt(ms: seq<Milestone>, k: nat)
    requires k < |ForkRules(ms)|
    ensures k + 1 < |ms|
    ensures ForkRules(ms)[k] == Rule(ms[k + 1].block < ms[k].block, ForkError(ms[k + 1], ms[k]))
  {
  }

  lemma ForkScheduleNamesDistinct(f: Forks)
    ensures forall a, b :: 0 <= a < b < |ForkSchedule(f)| ==> ForkSchedule(f)[a].fork != ForkSchedule(f)[b].fork
  {
  }

  lemma GenesisBlockRulesShape(s: NetworkSpec, g: Genesis)
    ensures |GenesisBlockRules(s, g)| == 5
    ensures DistinctReports(GenesisBlockRules(s, g))
    ensures forall k :: 0 <= k < 5 ==> NetworkLevel(GenesisBlockRules(s, g)[k].report)
    ensures forall k :: 0 <= k < 5 ==> !ForkShaped(GenesisBlockRules(s, g)[k].report)
  {
  }

  lemma GenesisRulesDistinct(s: NetworkSpec, g: Genesis)
    ensures DistinctReports(GenesisRules(s, g))
  {
    var ms := ScheduleOf(g);
    var block, forks := GenesisBlockRules(s, g), ForkRules(ms);
    ForkScheduleNamesDistinct(g.forks.GetOr(NoForks));
    ForkRulesDistinct(ms);
    ForkRulesShape(ms);
    GenesisBlockRulesShape(s, g);
    DistinctReportsAppend(block, forks);
  }

  lemma GenesisRulesShape(s: NetworkSpec, g: Genesis)
    ensures forall k :: 0 <= k < |GenesisRules(s, g)| ==> NetworkLevel(GenesisRules(s, g)[k].report)
  {
    var ms := ScheduleOf(g);
    var block, forks := GenesisBlockRules(s, g), ForkRules(ms);
    ForkRulesShape(ms);
    GenesisBlockRulesShape(s, g);
    ReportsAppend(block, forks, NetworkLevel);
  }

  lemma NetworkModeRulesShape(s: NetworkSpec)
    ensures DistinctReports(NetworkModeRules(s))
    ensures forall k :: 0 <= k < 5 ==> NetworkLevel(NetworkModeRules(s)[k].report)
    ensures forall k :: 0 <= k < 5 ==> !ForkShaped(NetworkModeRules(s)[k].report)
  {
  }

  /** The network-mode rules and the genesis-block rules never make the same report. */
  lemma NetworkModeApartFromGenesis(s: NetworkSpec, g: Genesis)
    ensures forall a, b :: 0 <= a < 5 && 0 <= b < 5 ==>
      NetworkModeRules(s)[a].report.detail != GenesisBlockRules(s, g)[b].report.detail
  {
  }

  lemma SpecRulesDistinct(s: NetworkSpec)
    ensures DistinctReports(SpecRules(s))
  {
    var mode := NetworkModeRules(s);
    var genesis := GenesisRulesOf(s);
    NetworkModeRulesShape(s);
    if s.genesis.Some? {
      var g := s.genesis.value;
      var ms := ScheduleOf(g);
      GenesisRulesDistinct(s, g);
      NetworkModeApartFromGenesis(s, g);
      ForkRulesShape(ms);
      forall a, b | 0 <= a < |mode| && 0 <= b < |genesis| ensures mode[a].report != genesis[b].report {
        if b >= 5 {
          assert genesis[b] == ForkRules(ms)[b - 5];
        }
      }
    }
    DistinctReportsAppend(mode, genesis);
    SpecRulesShape(s);
    var rules := mode + genesis;
    forall a, b | 0 <= a < |rules| && 0 <= b < 1 ensures rules[a].report != NodeListRules(s)[b].report {
      assert SpecRules(s)[a] == rules[a];
    }
    DistinctReportsAppend(rules, NodeListRules(s));
  }

  /** Every network-level rule reports on the network as a whole, except the one
      on the node list, which reports at the first node. */
  lemma SpecRulesShape(s: NetworkSpec)
    ensures forall k :: 0 <= k < |SpecRules(s)| - 1 ==> NetworkLevel(SpecRules(s)[k].report)
    ensures SpecRules(s)[|SpecRules(s)| - 1].report == Located(0, BootnodeIssue)
  {
    var mode, genesis := NetworkModeRules(s), GenesisRulesOf(s);
    var rules := mode + genesis;
    NetworkModeRulesShape(s);
    if s.genesis.Some? {
      GenesisRulesShape(s, s.genesis.value);
    }
    forall k | 0 <= k < |rules| ensures NetworkLevel(rules[k].report) {
      if k >= 5 {
        assert rules[k] == genesis[k - 5];
      }
    }
    assert SpecRules(s) == rules + NodeListRules(s);
  }

  lemma CapabilityIssueInjective(n: Node, f: Feature, g: Feature)
    requires CapabilityIssue(n, f) == CapabilityIssue(n, g)
    ensures f == g
  {
    if f.LogVerbosity? && g.LogVerbosity? {
      LogLevelNameInjective(f.level, g.level);
    }
  }

  predicate NodeShapedIssue(x: NodeIssue) {
    x.child != "bootnode" && x.detail != Immutable
  }

  lemma FixedNodeRulesShape(n: Node)
    ensures DistinctReports(FixedNodeRules(n))
    ensures forall k :: 0 <= k < 8 ==> NodeShapedIssue(FixedNodeRules(n)[k].report)
    ensures forall k :: 0 <= k < 8 ==>
      FixedNodeRules(n)[k].report.child != "client" && FixedNodeRules(n)[k].report.child != "logging"
  {
  }

  lemma GateRulesShape(s: NetworkSpec, n: Node)
    ensures DistinctReports(GateRules(s, n))
    ensures forall k :: 0 <= k < |GateRules(s, n)| ==> NodeShapedIssue(GateRules(s, n)[k].report)
    ensures forall k :: 0 <= k < |GateRules(s, n)| ==>
      GateRules(s, n)[k].report.child == "client" || GateRules(s, n)[k].report.child == "logging"
  {
    var gates := GateRules(s, n);
    forall a, b | 0 <= a < b < |gates| ensures gates[a].report != gates[b].report {
      GatedFeaturesComplete(GatedFeatures[a]);
      if gates[a].report == gates[b].report {
        CapabilityIssueInjective(n, GatedFeatures[a], GatedFeatures[b]);
      }
    }
  }

  lemma NodeRulesShape(s: NetworkSpec, n: Node)
    ensures DistinctReports(NodeRules(s, n))
    ensures forall k :: 0 <= k < |NodeRules(s, n)| ==> NodeShapedIssue(NodeRules(s, n)[k].report)
  {
    var fixed, gates := FixedNodeRules(n), GateRules(s, n);
    FixedNodeRulesShape(n);
    GateRulesShape(s, n);
    DistinctReportsAppend(fixed, gates);
    var rules := fixed + gates;
    forall k | 0 <= k < |rules| ensures NodeShapedIssue(rules[k].report) {
      if k >= 8 {
        assert rules[k] == gates[k - 8];
      }
    }
  }

  // ---------------------------------------------------------------------------
  // Each rule is reported exactly when it is violated

  /** An issue placed at node `i` occurs in node `j`'s errors only when `i == j`,
      and then as often as among that node's issues. */
  lemma {:induction false} AtNodeCount(j: nat, issues: seq<NodeIssue>, i: nat, iss: NodeIssue)
    ensures multiset(AtNode(j, issues))[Located(i, iss)] == if i == j then multiset(issues)[iss] else 0
    decreases |issues|
  {
    if |issues| > 0 {
      AtNodeCount(j, issues[1..], i, iss);
      if Located(j, issues[0]) == Located(i, iss) {
        LocatedInjective(j, issues[0], i, iss);
      }
      assert issues == [issues[0]] + issues[1..];
    }
  }

  lemma {:induction false} NodesErrorsCount(s: NetworkSpec, from: nat, i: nat, iss: NodeIssue)
    ensures multiset(NodesErrors(s, from))[Located(i, iss)]
         == if from <= i < |s.nodes| then multiset(NodeIssues(s, s.nodes[i]))[iss] else 0
    decreases |s.nodes| - from
  {
    if from < |s.nodes| {
      AtNodeCount(from, NodeIssues(s, s.nodes[from]), i, iss);
      NodesErrorsCount(s, from + 1, i, iss);
    }
  }

  /** What every error placed on a node looks like. */
  predicate NodeShaped(e: FieldError) {
    |e.field| > 5 && e.field[5] == 'n' && e.detail != Immutable
  }

  lemma {:induction false} AtNodeShaped(i: nat, issues: seq<NodeIssue>)
    requires forall x :: x in issues ==> x.detail != Immutable
    ensures forall e :: e in AtNode(i, issues) ==> NodeShaped(e)
    decreases |issues|
  {
    if |issues| > 0 {
      AtNodeShaped(i, issues[1..]);
    }
  }

  lemma NodeIssuesShaped(s: NetworkSpec, n: Node)
    ensures forall x :: x in NodeIssues(s, n) ==> NodeShapedIssue(x)
  {
    NodeRulesShape(s, n);
    forall x | x in NodeIssues(s, n) ensures NodeShapedIssue(x) {
      ViolationsMember(NodeRules(s, n), x);
    }
  }

  lemma {:induction false} NodesErrorsShaped(s: NetworkSpec, from: nat)
    ensures forall e :: e in NodesErrors(s, from) ==> NodeShaped(e)
    decreases |s.nodes| - from
  {
    if from < |s.nodes| {
      NodeIssuesShaped(s, s.nodes[from]);
      AtNodeShaped(from, NodeIssues(s, s.nodes[from]));
      NodesErrorsShaped(s, from + 1);
    }
  }

  /** A network-level rule is reported once when it is violated and not at all otherwise. */
  lemma SpecRuleCount(s: NetworkSpec, k: nat)
    requires k < |SpecRules(s)|
    ensures multiset(ValidateCreate(s))[SpecRules(s)[k].report] == if SpecRules(s)[k].violated then 1 else 0
  {
    var rules := SpecRules(s);
    var x := rules[k].report;
    assert multiset(ValidateCreate(s)) == multiset(Violations(rules)) + multiset(NodesErrors(s, 0));
    SpecRulesDistinct(s);
    ViolationsCount(rules, k);
    SpecReportNotOnNodes(s, k);
  }

  /** No node makes a report that a network-level rule makes. */
  lemma SpecReportNotOnNodes(s: NetworkSpec, k: nat)
    requires k < |SpecRules(s)|
    ensures multiset(NodesErrors(s, 0))[SpecRules(s)[k].report] == 0
  {
    SpecRulesShape(s);
    if k < |SpecRules(s)| - 1 {
      NetworkLevelNotOnNodes(s, SpecRules(s)[k].report);
    } else {
      BootnodeNotOnNodes(s);
    }
  }

  lemma NetworkLevelNotOnNodes(s: NetworkSpec, e: FieldError)
    requires NetworkLevel(e)
    ensures multiset(NodesErrors(s, 0))[e] == 0
  {
    NodesErrorsShaped(s, 0);
    assert !NodeShaped(e);
  }

  /** The nodes' own rules never make the report of the rule on the node list. */
  lemma BootnodeNotOnNodes(s: NetworkSpec)
    ensures multiset(NodesErrors(s, 0))[Located(0, BootnodeIssue)] == 0
  {
    NodesErrorsCount(s, 0, 0, BootnodeIssue);
    if |s.nodes| > 0 {
      NodeRulesShape(s, s.nodes[0]);
      ViolationsAbsent(NodeRules(s, s.nodes[0]), BootnodeIssue);
    }
  }

  /** A node rule is reported, at that node's path, once when the node violates it
      and not at all otherwise. */
  lemma NodeRuleCount(s: NetworkSpec, i: nat, k: nat)
    requires i < |s.nodes|
    requires k < |NodeRules(s, s.nodes[i])|
    ensures multiset(ValidateCreate(s))[Located(i, NodeRules(s, s.nodes[i])[k].report)]
         == if NodeRules(s, s.nodes[i])[k].violated then 1 else 0
  {
    var rules := NodeRules(s, s.nodes[i]);
    var iss := rules[k].report;
    NodeRulesShape(s, s.nodes[i]);
    NodesErrorsCount(s, 0, i, iss);
    ViolationsCount(rules, k);
    SpecRulesShape(s);
    forall j | 0 <= j < |SpecRules(s)| ensures SpecRules(s)[j].report != Located(i, iss) {
      if j == |SpecRules(s)| - 1 && SpecRules(s)[j].report == Located(i, iss) {
        LocatedInjective(0, BootnodeIssue, i, iss);
      }
    }
    ViolationsAbsent(SpecRules(s), Located(i, iss));
  }

  // ---------------------------------------------------------------------------
  // The rules, one by one

  /** A spec either joins a public network or bootstraps one from a genesis block and a
      network id; each way of mixing the two is reported exactly once. */
  lemma NetworkModeReported(s: NetworkSpec)
    ensures multiset(ValidateCreate(s))[Invalid("spec.join", Text(s.join), NoGenesisWhenJoining)]
         == if s.join != "" && s.genesis.Some? then 1 else 0
    ensures multiset(ValidateCreate(s))[Invalid("spec.consensus", Text(ConsensusField(s.consensus)), NoConsensusWhenJoining)]
         == if s.join != "" && s.consensus.Some? then 1 else 0
    ensures multiset(ValidateCreate(s))[Invalid("spec.id", Text(NatToString(s.id)), NoIdWhenJoining)]
         == if s.join != "" && s.id != 0 then 1 else 0
    ensures multiset(ValidateCreate(s))[Invalid("spec.genesis", Text(""), RequiredWithoutJoin)]
         == if s.join == "" && s.genesis.None? then 1 else 0
    ensures multiset(ValidateCreate(s))[Invalid("spec.id", Text(""), RequiredWithoutJoin)]
         == if s.join == "" && s.id == 0 then 1 else 0
  {
    NetworkModeRuleCount(s, 0);
    NetworkModeRuleCount(s, 1);
    NetworkModeRuleCount(s, 2);
    NetworkModeRuleCount(s, 3);
    NetworkModeRuleCount(s, 4);
  }

  lemma NetworkModeRuleCount(s: NetworkSpec, k: nat)
    requires k < 5
    ensures multiset(ValidateCreate(s))[NetworkModeRules(s)[k].report] == if NetworkModeRules(s)[k].violated then 1 else 0
  {
    assert SpecRules(s)[k] == NetworkModeRules(s)[k];
    SpecRuleCount(s, k);
  }

  /** A genesis block needs a consensus engine that matches its engine sub-block and a
      chain id other than the main network's; each mismatch is reported exactly once. */
  lemma GenesisReported(s: NetworkSpec)
    requires s.genesis.Some?
    ensures multiset(ValidateCreate(s))[Invalid("spec.consensus", Text(""), ConsensusRequired)]
         == if s.consensus.None? then 1 else 0
    ensures multiset(ValidateCreate(s))[Invalid("spec.genesis.chainId", Text(NatToString(s.genesis.value.chainId)),
              MainnetChainIdReused)]
         == if s.genesis.value.chainId == MainnetChainId then 1 else 0
    ensures multiset(ValidateCreate(s))[Invalid("spec.consensus", Text(ConsensusField(s.consensus)), CliqueNeedsPoA)]
         == if s.genesis.value.clique && s.consensus != Some(ProofOfAuthority) then 1 else 0
    ensures multiset(ValidateCreate(s))[Invalid("spec.consensus", Text(ConsensusField(s.consensus)), Ibft2NeedsIbft2)]
         == if s.genesis.value.ibft2 && s.consensus != Some(IstanbulBFT) then 1 else 0
    ensures multiset(ValidateCreate(s))[Invalid("spec.consensus", Text(ConsensusField(s.consensus)), EthashNeedsPoW)]
         == if s.genesis.value.ethash.Some? && s.consensus != Some(ProofOfWork) then 1 else 0
  {
    GenesisBlockRuleCount(s, 0);
    GenesisBlockRuleCount(s, 1);
    GenesisBlockRuleCount(s, 2);
    GenesisBlockRuleCount(s, 3);
    GenesisBlockRuleCount(s, 4);
  }

  lemma GenesisBlockRuleCount(s: NetworkSpec, k: nat)
    requires s.genesis.Some?
    requires k < 5
    ensures multiset(ValidateCreate(s))[GenesisBlockRules(s, s.genesis.value)[k].report]
         == if GenesisBlockRules(s, s.genesis.value)[k].violated then 1 else 0
  {
    assert SpecRules(s)[5 + k] == GenesisRules(s, s.genesis.value)[k] == GenesisBlockRules(s, s.genesis.value)[k];
    SpecRuleCount(s, 5 + k);
  }

  /** Every fork activated before the fork preceding it in the schedule is reported once. */
  lemma ForkOrderReported(s: NetworkSpec, k: nat)
    requires s.genesis.Some?
    requires 0 < k < |ScheduleOf(s.genesis.value)|
    ensures multiset(ValidateCreate(s))[ForkError(ScheduleOf(s.genesis.value)[k], ScheduleOf(s.genesis.value)[k - 1])]
         == if ScheduleOf(s.genesis.value)[k].block < ScheduleOf(s.genesis.value)[k - 1].block then 1 else 0
  {
    var g := s.genesis.value;
    ForkRuleAt(ScheduleOf(g), k - 1);
    SpecRuleAtFork(s, k - 1);
    SpecRuleCount(s, 10 + (k - 1));
  }

  /** The rule on the `j`-th pair of neighbouring forks is network-level rule `10 + j`. */
  lemma SpecRuleAtFork(s: NetworkSpec, j: nat)
    requires s.genesis.Some?
    requires j < |ForkRules(ScheduleOf(s.genesis.value))|
    ensures 10 + j < |SpecRules(s)|
    ensures SpecRules(s)[10 + j] == ForkRules(ScheduleOf(s.genesis.value))[j]
  {
    var g := s.genesis.value;
    GenesisRuleAtFork(s, g, j);
    var rules := NetworkModeRules(s) + GenesisRules(s, g);
    assert SpecRules(s) == rules + NodeListRules(s);
    assert rules[10 + j] == GenesisRules(s, g)[5 + j];
  }

  lemma GenesisRuleAtFork(s: NetworkSpec, g: Genesis, j: nat)
    requires j < |ForkRules(ScheduleOf(g))|
    ensures 5 + j < |GenesisRules(s, g)|
    ensures GenesisRules(s, g)[5 + j] == ForkRules(ScheduleOf(g))[j]
  {
    assert |GenesisBlockRules(s, g)| == 5;
  }

  /** With more than one node, the first must be a bootnode; otherwise this is
      reported exactly once, at the first node. */
  lemma BootnodeReported(s: NetworkSpec)
    ensures multiset(ValidateCreate(s))[Invalid(NodePath(0, "bootnode"), Flag(false), BootnodeFirst)]
         == if |s.nodes| > 1 && !s.nodes[0].bootnode then 1 else 0
  {
    SpecRulesShape(s);
    SpecRuleCount(s, |SpecRules(s)| - 1);
  }

  /** A bootnode needs a node key; a miner needs a coinbase and a coinbase needs a
      miner, each violation reported exactly once on its own field. */
  lemma NodeRoleReported(s: NetworkSpec, i: nat)
    requires i < |s.nodes|
    ensures multiset(ValidateCreate(s))[Located(i, Issue("nodekey", Text(""), NodekeyRequired))]
         == if s.nodes[i].bootnode && s.nodes[i].nodekeySecretName == "" then 1 else 0
    ensures multiset(ValidateCreate(s))[Located(i, Issue("coinbase", Text(""), CoinbaseRequired))]
         == if s.nodes[i].miner && s.nodes[i].coinbase == "" then 1 else 0
    ensures multiset(ValidateCreate(s))[Located(i, Issue("miner", Flag(false), MinerRequired))]
         == if s.nodes[i].coinbase != "" && !s.nodes[i].miner then 1 else 0
  {
    NodeRuleCount(s, i, 0);
    NodeRuleCount(s, i, 1);
    NodeRuleCount(s, i, 2);
  }

  /** A Geth miner must import its coinbase account; a node that imports an account
      must keep its rpc, ws and graphQL servers off; a Geth node serving graphQL must
      serve rpc. Each violation is reported exactly once. */
  lemma NodeAccountReported(s: NetworkSpec, i: nat)
    requires i < |s.nodes|
    ensures multiset(ValidateCreate(s))[Located(i, Issue("import", Text(""), ImportRequired))]
         == if s.nodes[i].client == Geth && s.nodes[i].miner && s.nodes[i].importedAccount.None? then 1 else 0
    ensures multiset(ValidateCreate(s))[Located(i, Issue("rpc", Flag(true), OffWhenImporting))]
         == if s.nodes[i].importedAccount.Some? && s.nodes[i].rpc then 1 else 0
    ensures multiset(ValidateCreate(s))[Located(i, Issue("ws", Flag(true), OffWhenImporting))]
         == if s.nodes[i].importedAccount.Some? && s.nodes[i].ws then 1 else 0
    ensures multiset(ValidateCreate(s))[Located(i, Issue("graphql", Flag(true), OffWhenImporting))]
         == if s.nodes[i].importedAccount.Some? && s.nodes[i].graphql then 1 else 0
    ensures multiset(ValidateCreate(s))[Located(i, Issue("rpc", Flag(false), RpcForGraphQL))]
         == if s.nodes[i].client == Geth && s.nodes[i].graphql && !s.nodes[i].rpc then 1 else 0
  {
    NodeRuleCount(s, i, 3);
    NodeRuleCount(s, i, 4);
    NodeRuleCount(s, i, 5);
    NodeRuleCount(s, i, 6);
    NodeRuleCount(s, i, 7);
  }

  /** A node that switches on a feature its client lacks is reported exactly once for it. */
  lemma CapabilityReported(s: NetworkSpec, i: nat, f: Feature)
    requires i < |s.nodes|
    ensures multiset(ValidateCreate(s))[Located(i, CapabilityIssue(s.nodes[i], f))]
         == if Enabled(s, s.nodes[i], f) && !Supports(s.nodes[i].client, f) then 1 else 0
  {
    GatedFeaturesComplete(f);
    var j :| 0 <= j < |GatedFeatures| && GatedFeatures[j] == f;
    GateRuleAt(s, s.nodes[i], j);
    NodeRuleCount(s, i, 8 + j);
  }

  /** The gate on the `j`-th gated feature is the node's rule `8 + j`. */
  lemma GateRuleAt(s: NetworkSpec, n: Node, j: nat)
    requires j < |GatedFeatures|
    ensures 8 + j < |NodeRules(s, n)|
    ensures NodeRules(s, n)[8 + j] == GateRule(s, n, GatedFeatures[j])
  {
    assert |FixedNodeRules(n)| == 8;
    assert NodeRules(s, n)[8 + j] == GateRules(s, n)[j];
  }

  // ---------------------------------------------------------------------------
  // What an admitted spec looks like

  /** Every fork activates no earlier than the forks before it in the schedule. */
  predicate InOrder(ms: seq<Milestone>) {
    forall a, b :: 0 <= a <= b < |ms| ==> ms[a].block <= ms[b].block
  }

  /** Comparing neighbours is enough: a schedule whose neighbours are in order is in order. */
  lemma {:induction false} NeighboursInOrder(ms: seq<Milestone>)
    requires forall k :: 0 < k < |ms| ==> ms[k - 1].block <= ms[k].block
    ensures InOrder(ms)
    decreases |ms|
  {
    if |ms| > 1 {
      var rest := ms[1..];
      assert forall k :: 0 <= k < |rest| ==> rest[k] == ms[k + 1];
      NeighboursInOrder(rest);
      forall a, b | 0 <= a <= b < |ms| ensures ms[a].block <= ms[b].block {
        if 0 < a {
          assert rest[a - 1].block <= rest[b - 1].block;
        } else if 0 < b {
          assert rest[0].block <= rest[b - 1].block;
        }
      }
    }
  }

  lemma ForkRulesPass(ms: seq<Milestone>)
    ensures NoneViolated(ForkRules(ms)) <==> InOrder(ms)
  {
    if NoneViolated(ForkRules(ms)) {
      forall k | 0 < k < |ms| ensures ms[k - 1].block <= ms[k].block {
        ForkRuleAt(ms, k - 1);
      }
      NeighboursInOrder(ms);
    }
    if InOrder(ms) {
      forall k | 0 <= k < |ForkRules(ms)| ensures !ForkRules(ms)[k].violated {
        ForkRuleAt(ms, k);
      }
    }
  }

  predicate GenesisAdmissible(s: NetworkSpec, g: Genesis) {
    && s.consensus.Some?
    && g.chainId != MainnetChainId
    && (g.clique ==> s.consensus == Some(ProofOfAuthority))
    && (g.ibft2 ==> s.consensus == Some(IstanbulBFT))
    && (g.ethash.Some? ==> s.consensus == Some(ProofOfWork))
    && InOrder(ScheduleOf(g))
  }

  /** The network-level invariants of an admitted spec. */
  predicate NetworkAdmissible(s: NetworkSpec) {
    && (s.join != "" ==> s.genesis.None? && s.consensus.None? && s.id == 0)
    && (s.join == "" ==> s.genesis.Some? && s.id != 0)
    && (s.genesis.Some? ==> GenesisAdmissible(s, s.genesis.value))
    && (|s.nodes| > 1 ==> s.nodes[0].bootnode)
  }

  /** The invariants of every node of an admitted spec. */
  ghost predicate NodeAdmissible(s: NetworkSpec, n: Node) {
    && (n.bootnode ==> n.nodekeySecretName != "")
    && (n.miner <==> n.coinbase != "")
    && (n.client == Geth && n.miner ==> n.importedAccount.Some?)
    && (n.importedAccount.Some? ==> !n.rpc && !n.ws && !n.graphql)
    && (n.client == Geth && n.graphql ==> n.rpc)
    && (forall f :: Enabled(s, n, f) ==> Supports(n.client, f))
  }

  ghost predicate Admissible(s: NetworkSpec) {
    NetworkAdmissible(s) && forall i :: 0 <= i < |s.nodes| ==> NodeAdmissible(s, s.nodes[i])
  }

  lemma NetworkModeRulesPass(s: NetworkSpec)
    ensures NoneViolated(NetworkModeRules(s)) <==>
      (s.join != "" ==> s.genesis.None? && s.consensus.None? && s.id == 0)
      && (s.join == "" ==> s.genesis.Some? && s.id != 0)
  {
    var mode := NetworkModeRules(s);
    assert NoneViolated(mode) <==>
      !mode[0].violated && !mode[1].violated && !mode[2].violated && !mode[3].violated && !mode[4].violated;
  }

  lemma GenesisBlockRulesPass(s: NetworkSpec, g: Genesis)
    ensures NoneViolated(GenesisBlockRules(s, g)) <==>
      s.consensus.Some? && g.chainId != MainnetChainId
      && (g.clique ==> s.consensus == Some(ProofOfAuthority))
      && (g.ibft2 ==> s.consensus == Some(IstanbulBFT))
      && (g.ethash.Some? ==> s.consensus == Some(ProofOfWork))
  {
    var block := GenesisBlockRules(s, g);
    assert NoneViolated(block) <==>
      !block[0].violated && !block[1].violated && !block[2].violated && !block[3].violated && !block[4].violated;
  }

  lemma GenesisRulesPass(s: NetworkSpec, g: Genesis)
    ensures NoneViolated(GenesisRules(s, g)) <==> GenesisAdmissible(s, g)
  {
    NoneViolatedAppend(GenesisBlockRules(s, g), ForkRules(ScheduleOf(g)));
    ForkRulesPass(ScheduleOf(g));
    GenesisBlockRulesPass(s, g);
  }

  lemma SpecRulesPass(s: NetworkSpec)
    ensures NoneViolated(SpecRules(s)) <==> NetworkAdmissible(s)
  {
    var mode, genesis, list := NetworkModeRules(s), GenesisRulesOf(s), NodeListRules(s);
    NoneViolatedAppend(mode, genesis);
    NoneViolatedAppend(mode + genesis, list);
    NetworkModeRulesPass(s);
    assert NoneViolated(list) <==> !list[0].violated;
    if s.genesis.Some? {
      GenesisRulesPass(s, s.genesis.value);
    }
  }

  lemma NodeRulesPass(s: NetworkSpec, n: Node)
    ensures NodeIssues(s, n) == [] <==> NodeAdmissible(s, n)
  {
    var rules := NodeRules(s, n);
    ViolationsEmpty(rules);
    NoneViolatedAppend(FixedNodeRules(n), GateRules(s, n));
    var fixed := FixedNodeRules(n);
    assert NoneViolated(fixed) <==>
      !fixed[0].violated && !fixed[1].violated && !fixed[2].violated && !fixed[3].violated
      && !fixed[4].violated && !fixed[5].violated && !fixed[6].violated && !fixed[7].violated;
    if NoneViolated(rules) {
      forall f | Enabled(s, n, f) ensures Supports(n.client, f) {
        GatedFeaturesComplete(f);
        var j :| 0 <= j < |GatedFeatures| && GatedFeatures[j] == f;
        assert GateRules(s, n)[j] == GateRule(s, n, f);
      }
    }
    if NodeAdmissible(s, n) {
      forall j | 0 <= j < |GateRules(s, n)| ensures !GateRules(s, n)[j].violated {
        assert GateRules(s, n)[j] == GateRule(s, n, GatedFeatures[j]);
      }
    }
  }

  lemma {:induction false} NodesErrorsEmpty(s: NetworkSpec, from: nat)
    ensures NodesErrors(s, from) == [] <==> forall i :: from <= i < |s.nodes| ==> NodeIssues(s, s.nodes[i]) == []
    decreases |s.nodes| - from
  {
    if from < |s.nodes| {
      NodesErrorsEmpty(s, from + 1);
    }
  }

  /** A spec is admitted on creation exactly when it satisfies every invariant. */
  lemma AdmissionCriterion(s: NetworkSpec)
    ensures ValidateCreate(s) == [] <==> Admissible(s)
  {
    ViolationsEmpty(SpecRules(s));
    SpecRulesPass(s);
    NodesErrorsEmpty(s, 0);
    forall i | 0 <= i < |s.nodes| ensures NodeIssues(s, s.nodes[i]) == [] <==> NodeAdmissible(s, s.nodes[i]) {
      NodeRulesPass(s, s.nodes[i]);
    }
  }

  // ---------------------------------------------------------------------------
  // Updates

  /** No creation rule ever reports a field as immutable. */
  lemma CreateNeverImmutable(s: NetworkSpec)
    ensures forall e :: e in ValidateCreate(s) ==> e.detail != Immutable
  {
    SpecRulesShape(s);
    NodesErrorsShaped(s, 0);
    forall e | e in Violations(SpecRules(s)) ensures e.detail != Immutable {
      ViolationsMember(SpecRules(s), e);
    }
  }

  lemma NodeNameRulesDistinct(olds: seq<Node>, news: seq<Node>)
    ensures DistinctReports(NodeNameRules(olds, news))
  {
    var names := NodeNameRules(olds, news);
    forall a, b | 0 <= a < b < |names| ensures names[a].report != names[b].report {
      if names[a].report.field == names[b].report.field {
        NodePathInjective(a, "name", b, "name");
      }
    }
  }

  lemma ImmutabilityRulesDistinct(before: NetworkSpec, after: NetworkSpec)
    ensures DistinctReports(ImmutabilityRules(before, after))
  {
    var rules := ImmutabilityRules(before, after);
    var fixed, names := rules[..4], NodeNameRules(before.nodes, after.nodes);
    assert rules == fixed + names;
    NodeNameRulesDistinct(before.nodes, after.nodes);
    forall a, b | 0 <= a < |fixed| && 0 <= b < |names| ensures fixed[a].report != names[b].report {
      assert names[b].report.field[5] == 'n';
    }
    DistinctReportsAppend(fixed, names);
  }

  lemma ImmutabilityViolationsCount(before: NetworkSpec, after: NetworkSpec, k: nat)
    requires k < |ImmutabilityRules(before, after)|
    ensures ImmutabilityRules(before, after)[k].report.detail == Immutable
    ensures multiset(Violations(ImmutabilityRules(before, after)))[ImmutabilityRules(before, after)[k].report]
         == if ImmutabilityRules(before, after)[k].violated then 1 else 0
  {
    var rules := ImmutabilityRules(before, after);
    ImmutabilityRulesDistinct(before, after);
    ViolationsCount(rules, k);
    if k >= 4 {
      assert rules[k] == NodeNameRules(before.nodes, after.nodes)[k - 4];
    }
  }

  lemma NeverImmutableOnCreate(s: NetworkSpec, e: FieldError)
    requires e.detail == Immutable
    ensures multiset(ValidateCreate(s))[e] == 0
  {
    CreateNeverImmutable(s);
  }

  /** A change to a field fixed at creation is reported once, and only when it happens. */
  lemma ImmutabilityRuleCount(before: NetworkSpec, after: NetworkSpec, k: nat)
    requires k < |ImmutabilityRules(before, after)|
    ensures multiset(ValidateUpdate(before, after))[ImmutabilityRules(before, after)[k].report]
         == if ImmutabilityRules(before, after)[k].violated then 1 else 0
  {
    ImmutabilityViolationsCount(before, after, k);
    NeverImmutableOnCreate(after, ImmutabilityRules(before, after)[k].report);
  }

  /** The join mode, consensus, genesis block and network id are fixed at creation:
      changing one is reported exactly once, with the new value. */
  lemma ImmutableFieldsReported(before: NetworkSpec, after: NetworkSpec)
    ensures multiset(ValidateUpdate(before, after))[Invalid("spec.join", Text(after.join), Immutable)]
         == if before.join != after.join then 1 else 0
    ensures multiset(ValidateUpdate(before, after))[Invalid("spec.consensus", Text(ConsensusField(after.consensus)), Immutable)]
         == if before.consensus != after.consensus then 1 else 0
    ensures multiset(ValidateUpdate(before, after))[Invalid("spec.genesis", Text(""), Immutable)]
         == if DefaultedGenesis(before.genesis) != DefaultedGenesis(after.genesis) then 1 else 0
    ensures multiset(ValidateUpdate(before, after))[Invalid("spec.id", Text(NatToString(after.id)), Immutable)]
         == if before.id != after.id then 1 else 0
  {
    IdentityRulesAt(before, after);
    ImmutabilityRuleCount(before, after, 0);
    ImmutabilityRuleCount(before, after, 1);
    ImmutabilityRuleCount(before, after, 2);
    ImmutabilityRuleCount(before, after, 3);
  }

  lemma IdentityRulesAt(before: NetworkSpec, after: NetworkSpec)
    ensures |ImmutabilityRules(before, after)| >= 4
    ensures ImmutabilityRules(before, after)[0] == Rule(before.join != after.join, ImmutableError("spec.join", Text(after.join)))
    ensures ImmutabilityRules(before, after)[1]
         == Rule(before.consensus != after.consensus, ImmutableError("spec.consensus", Text(ConsensusField(after.consensus))))
    ensures ImmutabilityRules(before, after)[2]
         == Rule(DefaultedGenesis(before.genesis) != DefaultedGenesis(after.genesis), ImmutableError("spec.genesis", Text("")))
    ensures ImmutabilityRules(before, after)[3] == Rule(before.id != after.id, ImmutableError("spec.id", Text(NatToString(after.id))))
  {
  }

  /** Renaming a node that exists before and after the update is reported exactly once. */
  lemma NodeNameReported(before: NetworkSpec, after: NetworkSpec, i: nat)
    requires i < |before.nodes| && i < |after.nodes|
    ensures multiset(ValidateUpdate(before, after))[Invalid(NodePath(i, "name"), Text(after.nodes[i].name), Immutable)]
         == if before.nodes[i].name != after.nodes[i].name then 1 else 0
  {
    NodeNameRuleAt(before, after, i);
    ImmutabilityRuleCount(before, after, 4 + i);
  }

  lemma NodeNameRuleAt(before: NetworkSpec, after: NetworkSpec, i: nat)
    requires i < |before.nodes| && i < |after.nodes|
    ensures 4 + i < |ImmutabilityRules(before, after)|
    ensures ImmutabilityRules(before, after)[4 + i]
         == Rule(before.nodes[i].name != after.nodes[i].name, ImmutableError(NodePath(i, "name"), Text(after.nodes[i].name)))
  {
    assert ImmutabilityRules(before, after)[4 + i] == NodeNameRules(before.nodes, after.nodes)[i];
  }

  /** The fields an update may not change. */
  predicate SameIdentity(before: NetworkSpec, after: NetworkSpec) {
    && before.join == after.join
    && before.consensus == after.consensus
    && DefaultedGenesis(before.genesis) == DefaultedGenesis(after.genesis)
    && before.id == after.id
    && forall k :: 0 <= k < |before.nodes| && k < |after.nodes| ==> before.nodes[k].name == after.nodes[k].name
  }

  lemma ImmutabilityRulesPass(before: NetworkSpec, after: NetworkSpec)
    ensures NoneViolated(ImmutabilityRules(before, after)) <==> SameIdentity(before, after)
  {
    var rules := ImmutabilityRules(before, after);
    var fixed, names := rules[..4], NodeNameRules(before.nodes, after.nodes);
    assert rules == fixed + names;
    NoneViolatedAppend(fixed, names);
    IdentityRulesAt(before, after);
    assert NoneViolated(fixed) <==> !fixed[0].violated && !fixed[1].violated && !fixed[2].violated && !fixed[3].violated;
    if NoneViolated(names) {
      forall k | 0 <= k < |before.nodes| && k < |after.nodes| ensures before.nodes[k].name == after.nodes[k].name {
        assert !names[k].violated;
      }
    }
  }

  /** An update is judged like a creation of the new spec exactly when it keeps the
      fields fixed at creation. */
  lemma UpdateJudgedAsCreate(before: NetworkSpec, after: NetworkSpec)
    ensures ValidateUpdate(before, after) == ValidateCreate(after) <==> SameIdentity(before, after)
  {
    var changes := Violations(ImmutabilityRules(before, after));
    ViolationsEmpty(ImmutabilityRules(before, after));
    ImmutabilityRulesPass(before, after);
    assert ValidateUpdate(before, after) == changes + ValidateCreate(after);
    assert |changes + ValidateCreate(after)| == |changes| + |ValidateCreate(after)|;
  }

  // ---------------------------------------------------------------------------
  // Defaulting before validation

  lemma DefaultKeepsSpecRules(s: NetworkSpec)
    ensures SpecRules(Default(s)) == SpecRules(s)
  {
    var d := Default(s);
    assert NetworkModeRules(d) == NetworkModeRules(s);
    assert NodeListRules(d) == NodeListRules(s);
    if s.genesis.Some? {
      var g, g' := s.genesis.value, d.genesis.value;
      assert GenesisBlockRules(d, g') == GenesisBlockRules(s, g);
      assert ScheduleOf(g') == ScheduleOf(g);
    }
  }

  lemma DefaultKeepsNodeRules(s: NetworkSpec, n: Node)
    ensures NodeRules(Default(s), DefaultNode(n)) == NodeRules(s, n)
  {
    var d, n' := Default(s), DefaultNode(n);
    assert FixedNodeRules(n') == FixedNodeRules(n);
    DefaultLoggingSupported(n.client);
    forall j | 0 <= j < |GatedFeatures| ensures GateRules(d, n')[j] == GateRules(s, n)[j] {
      assert GateRule(d, n', GatedFeatures[j]) == GateRule(s, n, GatedFeatures[j]);
    }
  }

  lemma {:induction false} DefaultKeepsNodesErrors(s: NetworkSpec, from: nat)
    ensures NodesErrors(Default(s), from) == NodesErrors(s, from)
    decreases |s.nodes| - from
  {
    if from < |s.nodes| {
      DefaultKeepsNodeRules(s, s.nodes[from]);
      DefaultKeepsNodesErrors(s, from + 1);
    }
  }

  /** Defaulting never changes what creation reports: the log level it fills in is one
      every client accepts, and the fork schedule it fills in is the one a missing
      schedule already stands for. */
  lemma DefaultKeepsVerdict(s: NetworkSpec)
    ensures ValidateCreate(Default(s)) == ValidateCreate(s)
  {
    DefaultKeepsSpecRules(s);
    DefaultKeepsNodesErrors(s, 0);
  }

  /** Submitting a stored spec again, defaulted as every update is, changes none of
      the fields fixed at creation: it is judged exactly as its creation was. */
  lemma ResubmitJudgedAsCreate(s: NetworkSpec)
    ensures ValidateUpdate(s, Default(s)) == ValidateCreate(s)
  {
    var d := Default(s);
    if s.genesis.Some? {
      assert d.genesis == Some(DefaultGenesis(s.genesis.value));
      assert DefaultGenesis(DefaultGenesis(s.genesis.value)) == DefaultGenesis(s.genesis.value);
    }
    assert DefaultedGenesis(d.genesis) == DefaultedGenesis(s.genesis);
    assert SameIdentity(s, d);
    UpdateJudgedAsCreate(s, d);
    DefaultKeepsVerdict(s);
  }
}
