/** The admission cases of the Ethereum network resource: for each spec, after
    defaulting, the violation that validation must report among its causes. */
module NetworkValidationCases {
  import opened Wrappers
  import opened Text
  import opened Logging
  import opened FieldErrors
  import opened EthereumNetwork
  import opened Capabilities
  import opened Rules
  import opened NetworkValidation

  const Rinkeby: string := "rinkeby"
  const Ropsten: string := "ropsten"
  const Coinbase: string := "0xd2c21213027cbf4d46c16b55fa98e5252b048706"
  const Account: Option<ImportedAccount> := Some(ImportedAccount("my-account-privatekey", "my-account-password"))

  /** A node with a name and a client and every other setting left out. */
  function Plain(name: string, client: Client): Node {
    Node(name, false, "", client, false, "", None, false, false, false, None, None)
  }

  /** A Geth or Besu miner with a coinbase, optionally importing its account. */
  function Miner(client: Client, importedAccount: Option<ImportedAccount>): Node {
    Plain("node-1", client).(miner := true, coinbase := Coinbase, importedAccount := importedAccount)
  }

  /** A genesis block with only a chain id. */
  function Chain(chainId: nat): Genesis {
    Genesis(chainId, false, false, None, None)
  }

  function Joining(network: string, nodes: seq<Node>): NetworkSpec {
    NetworkSpec(network, 0, None, None, nodes)
  }

  function Private(id: nat, consensus: Consensus, g: Genesis, nodes: seq<Node>): NetworkSpec {
    NetworkSpec("", id, Some(consensus), Some(g), nodes)
  }

  // ---------------------------------------------------------------------------
  // Creation

  /** Joining a public network with an explicit consensus engine is the only violation. */
  lemma CreateCase1()
    ensures ValidateCreate(Default(NetworkSpec(Rinkeby, 0, Some(ProofOfWork), None, [Plain("node-1", Besu)])))
         == [Invalid("spec.consensus", Text("pow"), NoConsensusWhenJoining)]
  {
    var s := NetworkSpec(Rinkeby, 0, Some(ProofOfWork), None, [Plain("node-1", Besu)]);
    DefaultKeepsVerdict(s);
    var n := s.nodes[0];
    assert NodeIssues(s, n) == [] by {
      NodeRulesPass(s, n);
      forall f | Enabled(s, n, f) ensures Supports(n.client, f) {
      }
    }
    assert NodesErrors(s, 1) == [];
    assert NodesErrors(s, 0) == [];
    assert GenesisRulesOf(s) == [];
    var mode, list := NetworkModeRules(s), NodeListRules(s);
    assert SpecRules(s) == mode + list;
    assert !list[0].violated;
    assert Violations(list) == [];
    assert mode[1].violated && !mode[0].violated && !mode[2].violated && !mode[3].violated && !mode[4].violated;
    assert Violations(mode[4..]) == [];
    assert Violations(mode[3..]) == [];
    assert Violations(mode[2..]) == [];
    assert Violations(mode[1..]) == [mode[1].report];
    assert Violations(mode) == [mode[1].report];
    ViolationsAppend(mode, list);
  }

  // ---------------------------------------------------------------------------
  // The texts the cases expect, computed once

  /** The path of a field of the first node. */
  lemma FirstNodePath(child: string)
    ensures NodePath(0, child) == "spec.nodes[0]." + child
  {
    assert NatToString(0) == "0";
  }

  lemma FirstNodePaths()
    ensures NodePath(0, "bootnode") == "spec.nodes[0].bootnode"
    ensures NodePath(0, "nodekey") == "spec.nodes[0].nodekey"
    ensures NodePath(0, "coinbase") == "spec.nodes[0].coinbase"
    ensures NodePath(0, "miner") == "spec.nodes[0].miner"
    ensures NodePath(0, "import") == "spec.nodes[0].import"
    ensures NodePath(0, "rpc") == "spec.nodes[0].rpc"
  {
    FirstNodePath("bootnode");
    FirstNodePath("nodekey");
    FirstNodePath("coinbase");
    FirstNodePath("miner");
    FirstNodePath("import");
    FirstNodePath("rpc");
  }

  lemma MoreFirstNodePaths()
    ensures NodePath(0, "ws") == "spec.nodes[0].ws"
    ensures NodePath(0, "graphql") == "spec.nodes[0].graphql"
    ensures NodePath(0, "name") == "spec.nodes[0].name"
    ensures NodePath(0, "client") == "spec.nodes[0].client"
    ensures NodePath(0, "logging") == "spec.nodes[0].logging"
  {
    FirstNodePath("ws");
    FirstNodePath("graphql");
    FirstNodePath("name");
    FirstNodePath("client");
    FirstNodePath("logging");
  }

  /** The fork-order message is assembled in two halves; each is a lemma of its own
      because one proof of the whole literal exceeds the solver's budget. */
  lemma ForkDetailHead()
    ensures "Fork " + "eip150" + " can't be activated (at block " + "1" == "Fork eip150 can't be activated (at block 1"
  {
  }

  lemma ForkDetailTail()
    ensures "Fork eip150 can't be activated (at block 1" + ") before fork " + "homestead" + " (at block " + "2" + ")"
         == "Fork eip150 can't be activated (at block 1) before fork homestead (at block 2)"
  {
  }

  lemma ForkErrorRendered()
    ensures ForkError(Milestone("eip150", 1), Milestone("homestead", 2))
         == Invalid("spec.genesis.forks.eip150", Text("1"), ForkOrder("eip150", 1, "homestead", 2))
  {
    assert NatToString(1) == "1";
  }

  /** The message of the fork-order case, as the case expects it. */
  lemma ForkOrderRendered()
    ensures DetailText(ForkOrder("eip150", 1, "homestead", 2))
         == "Fork eip150 can't be activated (at block 1) before fork homestead (at block 2)"
  {
    var one, two := NatToString(1), NatToString(2);
    assert one == "1" && two == "2";
    ForkDetailHead();
    ForkDetailTail();
  }

  // ---------------------------------------------------------------------------
  // Each rule, stated for any spec that breaks it, as creation sees it after defaulting

  /** The rules on the network mode, each for a spec that breaks it. */
  lemma NetworkModeFires(s: NetworkSpec)
    ensures s.join != "" && s.genesis.Some? ==>
      Invalid("spec.join", Text(s.join), NoGenesisWhenJoining) in ValidateCreate(Default(s))
    ensures s.join != "" && s.id != 0 ==>
      Invalid("spec.id", Text(NatToString(s.id)), NoIdWhenJoining) in ValidateCreate(Default(s))
    ensures s.join == "" && s.genesis.None? ==>
      Invalid("spec.genesis", Text(""), RequiredWithoutJoin) in ValidateCreate(Default(s))
    ensures s.join == "" && s.id == 0 ==>
      Invalid("spec.id", Text(""), RequiredWithoutJoin) in ValidateCreate(Default(s))
  {
    DefaultKeepsVerdict(s);
    NetworkModeReported(s);
  }

  /** The rules on the genesis block, each for a spec that breaks it. */
  lemma GenesisFires(s: NetworkSpec)
    requires s.genesis.Some?
    ensures s.consensus.None? ==>
      Invalid("spec.consensus", Text(""), ConsensusRequired) in ValidateCreate(Default(s))
    ensures s.genesis.value.chainId == MainnetChainId ==>
      Invalid("spec.genesis.chainId", Text(NatToString(s.genesis.value.chainId)), MainnetChainIdReused)
        in ValidateCreate(Default(s))
    ensures s.genesis.value.clique && s.consensus != Some(ProofOfAuthority) ==>
      Invalid("spec.consensus", Text(ConsensusField(s.consensus)), CliqueNeedsPoA)
        in ValidateCreate(Default(s))
    ensures s.genesis.value.ibft2 && s.consensus != Some(IstanbulBFT) ==>
      Invalid("spec.consensus", Text(ConsensusField(s.consensus)), Ibft2NeedsIbft2)
        in ValidateCreate(Default(s))
    ensures s.genesis.value.ethash.Some? && s.consensus != Some(ProofOfWork) ==>
      Invalid("spec.consensus", Text(ConsensusField(s.consensus)), EthashNeedsPoW)
        in ValidateCreate(Default(s))
  {
    DefaultKeepsVerdict(s);
    GenesisReported(s);
  }

  lemma ScheduleStart(f: Forks)
    ensures |ForkSchedule(f)| > 1
    ensures ForkSchedule(f)[0] == Milestone("homestead", f.homestead)
    ensures ForkSchedule(f)[1] == Milestone("eip150", f.eip150)
  {
  }

  /** The second fork of the schedule activated before the first. */
  lemma Eip150BeforeHomestead(s: NetworkSpec, f: Forks)
    requires s.genesis.Some? && s.genesis.value.forks == Some(f)
    requires f.eip150 < f.homestead
    ensures ForkError(Milestone("eip150", f.eip150), Milestone("homestead", f.homestead)) in ValidateCreate(Default(s))
  {
    DefaultKeepsVerdict(s);
    ScheduleStart(f);
    ForkOrderReported(s, 1);
  }

  /** The rules on the first node, each for a spec that breaks it. */
  lemma FirstNodeFires(s: NetworkSpec)
    requires |s.nodes| > 0
    ensures |s.nodes| > 1 && !s.nodes[0].bootnode ==>
      Invalid("spec.nodes[0].bootnode", Flag(false), BootnodeFirst)
        in ValidateCreate(Default(s))
    ensures s.nodes[0].bootnode && s.nodes[0].nodekeySecretName == "" ==>
      Invalid("spec.nodes[0].nodekey", Text(""), NodekeyRequired) in ValidateCreate(Default(s))
    ensures s.nodes[0].miner && s.nodes[0].coinbase == "" ==>
      Invalid("spec.nodes[0].coinbase", Text(""), CoinbaseRequired) in ValidateCreate(Default(s))
    ensures s.nodes[0].coinbase != "" && !s.nodes[0].miner ==>
      Invalid("spec.nodes[0].miner", Flag(false), MinerRequired) in ValidateCreate(Default(s))
  {
    DefaultKeepsVerdict(s);
    FirstNodePaths();
    BootnodeReported(s);
    NodeRoleReported(s, 0);
  }

  /** The account rules on the first node, each for a spec that breaks it. */
  lemma FirstNodeAccountFires(s: NetworkSpec)
    requires |s.nodes| > 0
    ensures s.nodes[0].client == Geth && s.nodes[0].miner && s.nodes[0].importedAccount.None? ==>
      Invalid("spec.nodes[0].import", Text(""), ImportRequired) in ValidateCreate(Default(s))
    ensures s.nodes[0].importedAccount.Some? && s.nodes[0].rpc ==>
      Invalid("spec.nodes[0].rpc", Flag(true), OffWhenImporting) in ValidateCreate(Default(s))
    ensures s.nodes[0].importedAccount.Some? && s.nodes[0].ws ==>
      Invalid("spec.nodes[0].ws", Flag(true), OffWhenImporting) in ValidateCreate(Default(s))
    ensures s.nodes[0].importedAccount.Some? && s.nodes[0].graphql ==>
      Invalid("spec.nodes[0].graphql", Flag(true), OffWhenImporting) in ValidateCreate(Default(s))
    ensures s.nodes[0].client == Geth && s.nodes[0].graphql && !s.nodes[0].rpc ==>
      Invalid("spec.nodes[0].rpc", Flag(false), RpcForGraphQL)
        in ValidateCreate(Default(s))
  {
    DefaultKeepsVerdict(s);
    FirstNodePaths();
    MoreFirstNodePaths();
    NodeAccountReported(s, 0);
  }

  /** A feature other than a log level that the first node's client lacks. */
  lemma FirstNodeClientLacks(s: NetworkSpec, f: Feature)
    requires |s.nodes| > 0 && !f.LogVerbosity?
    requires Enabled(s, s.nodes[0], f) && !Supports(s.nodes[0].client, f)
    ensures Invalid("spec.nodes[0].client", Text(ClientName(s.nodes[0].client)), FeatureDetail(f, s.nodes[0].client)) in ValidateCreate(Default(s))
  {
    DefaultKeepsVerdict(s);
    MoreFirstNodePaths();
    CapabilityReported(s, 0, f);
  }

  /** A log level the first node's client lacks. */
  lemma FirstNodeLevelUnsupported(s: NetworkSpec, l: LogLevel)
    requires |s.nodes| > 0
    requires s.nodes[0].logging == Some(l) && !Supports(s.nodes[0].client, LogVerbosity(l))
    ensures Invalid("spec.nodes[0].logging", Text(LogLevelName(l)), LevelUnsupported(ClientName(s.nodes[0].client)))
         in ValidateCreate(Default(s))
  {
    DefaultKeepsVerdict(s);
    MoreFirstNodePaths();
    CapabilityReported(s, 0, LogVerbosity(l));
  }

  /** The fields fixed at creation, each for an update that changes it. */
  lemma IdentityFires(before: NetworkSpec, after: NetworkSpec)
    ensures before.join != after.join ==>
      Invalid("spec.join", Text(after.join), Immutable) in ValidateUpdate(before, after)
    ensures before.consensus != after.consensus ==>
      Invalid("spec.consensus", Text(ConsensusField(after.consensus)), Immutable) in ValidateUpdate(before, after)
    ensures DefaultedGenesis(before.genesis) != DefaultedGenesis(after.genesis) <==>
      Invalid("spec.genesis", Text(""), Immutable) in ValidateUpdate(before, after)
    ensures before.id != after.id ==>
      Invalid("spec.id", Text(NatToString(after.id)), Immutable) in ValidateUpdate(before, after)
  {
    ImmutableFieldsReported(before, after);
  }

  /** Renaming the first node. */
  lemma FirstNodeRenamed(before: NetworkSpec, after: NetworkSpec)
    requires |before.nodes| > 0 && |after.nodes| > 0
    requires before.nodes[0].name != after.nodes[0].name
    ensures Invalid("spec.nodes[0].name", Text(after.nodes[0].name), Immutable) in ValidateUpdate(before, after)
  {
    MoreFirstNodePaths();
    NodeNameReported(before, after, 0);
  }

  // ---------------------------------------------------------------------------
  // Creation

  /** A spec may not both join a network and carry a genesis block. */
  lemma CreateCase2()
    ensures Invalid("spec.join", Text("rinkeby"), NoGenesisWhenJoining)
         in ValidateCreate(Default(NetworkSpec(Rinkeby, 0, None, Some(Chain(444)), [Plain("node-1", Besu)])))
  {
    var s := NetworkSpec(Rinkeby, 0, None, Some(Chain(444)), [Plain("node-1", Besu)]);
    NetworkModeFires(s);
  }

  /** A spec that joins no network needs a genesis block. */
  lemma CreateCase3()
    ensures Invalid("spec.genesis", Text(""), RequiredWithoutJoin)
         in ValidateCreate(Default(NetworkSpec("", 0, None, None, [Plain("node-1", Besu)])))
  {
    var s := NetworkSpec("", 0, None, None, [Plain("node-1", Besu)]);
    NetworkModeFires(s);
  }

  /** A private network may not reuse the main network's chain id. */
  lemma CreateCase4()
    ensures Invalid("spec.genesis.chainId", Text("1"), MainnetChainIdReused)
         in ValidateCreate(Default(NetworkSpec("", 0, Some(ProofOfAuthority), Some(Chain(1)), [Plain("node-1", Besu)])))
  {
    var s := NetworkSpec("", 0, Some(ProofOfAuthority), Some(Chain(1)), [Plain("node-1", Besu)]);
    GenesisFires(s);
  }

  /** A clique genesis needs proof-of-authority consensus. */
  lemma CreateCase5()
    ensures Invalid("spec.consensus", Text("pow"), CliqueNeedsPoA)
         in ValidateCreate(Default(NetworkSpec("", 0, Some(ProofOfWork), Some(Chain(55555).(clique := true)), [Plain("node-1", Besu)])))
  {
    var s := NetworkSpec("", 0, Some(ProofOfWork), Some(Chain(55555).(clique := true)), [Plain("node-1", Besu)]);
    GenesisFires(s);
  }

  /** An ibft2 genesis needs ibft2 consensus. */
  lemma CreateCase6()
    ensures Invalid("spec.consensus", Text("pow"), Ibft2NeedsIbft2)
         in ValidateCreate(Default(NetworkSpec("", 0, Some(ProofOfWork), Some(Chain(55555).(ibft2 := true)), [Plain("node-1", Besu)])))
  {
    var s := NetworkSpec("", 0, Some(ProofOfWork), Some(Chain(55555).(ibft2 := true)), [Plain("node-1", Besu)]);
    GenesisFires(s);
  }

  /** An ethash genesis needs proof-of-work consensus. */
  lemma CreateCase7()
    ensures Invalid("spec.consensus", Text("ibft2"), EthashNeedsPoW)
         in ValidateCreate(Default(NetworkSpec("", 0, Some(IstanbulBFT), Some(Chain(55555).(ethash := Some(Ethash(None)))), [Plain("node-1", Besu)])))
  {
    var s := NetworkSpec("", 0, Some(IstanbulBFT), Some(Chain(55555).(ethash := Some(Ethash(None)))), [Plain("node-1", Besu)]);
    GenesisFires(s);
  }

  /** The first of several nodes must be a bootnode. */
  lemma CreateCase8()
    ensures Invalid("spec.nodes[0].bootnode", Flag(false), BootnodeFirst)
         in ValidateCreate(Default(NetworkSpec("", 0, Some(IstanbulBFT), Some(Chain(55555)), [Plain("node-1", Besu), Plain("node-2", Besu)])))
  {
    var s := NetworkSpec("", 0, Some(IstanbulBFT), Some(Chain(55555)), [Plain("node-1", Besu), Plain("node-2", Besu)]);
    FirstNodeFires(s);
  }

  /** A bootnode needs a node key. */
  lemma CreateCase9()
    ensures Invalid("spec.nodes[0].nodekey", Text(""), NodekeyRequired)
         in ValidateCreate(Default(NetworkSpec("", 0, Some(IstanbulBFT), Some(Chain(55555)), [Plain("node-1", Besu).(bootnode := true), Plain("node-2", Besu)])))
  {
    var s := NetworkSpec("", 0, Some(IstanbulBFT), Some(Chain(55555)), [Plain("node-1", Besu).(bootnode := true), Plain("node-2", Besu)]);
    FirstNodeFires(s);
  }

  /** A miner needs a coinbase. */
  lemma CreateCase10()
    ensures Invalid("spec.nodes[0].coinbase", Text(""), CoinbaseRequired)
         in ValidateCreate(Default(NetworkSpec("", 0, Some(IstanbulBFT), Some(Chain(55555)), [Plain("node-1", Besu).(miner := true)])))
  {
    var s := NetworkSpec("", 0, Some(IstanbulBFT), Some(Chain(55555)), [Plain("node-1", Besu).(miner := true)]);
    FirstNodeFires(s);
  }

  /** A coinbase needs a miner. */
  lemma CreateCase11()
    ensures Invalid("spec.nodes[0].miner", Flag(false), MinerRequired)
         in ValidateCreate(Default(NetworkSpec("", 0, Some(IstanbulBFT), Some(Chain(55555)), [Plain("node-1", Besu).(coinbase := "0x676aEda2E67D24eb304cFf75A5190824831E3399")])))
  {
    var s := NetworkSpec("", 0, Some(IstanbulBFT), Some(Chain(55555)), [Plain("node-1", Besu).(coinbase := "0x676aEda2E67D24eb304cFf75A5190824831E3399")]);
    FirstNodeFires(s);
  }

  /** A genesis block needs a consensus engine. */
  lemma CreateCase12()
    ensures Invalid("spec.consensus", Text(""), ConsensusRequired)
         in ValidateCreate(Default(NetworkSpec("", 0, None, Some(Chain(55555)), [Plain("node-1", Besu)])))
  {
    var s := NetworkSpec("", 0, None, Some(Chain(55555)), [Plain("node-1", Besu)]);
    GenesisFires(s);
  }

  /** A fork may not activate before the fork preceding it. */
  lemma CreateCase13()
    ensures Invalid("spec.genesis.forks.eip150", Text("1"), ForkOrder("eip150", 1, "homestead", 2))
         in ValidateCreate(Default(NetworkSpec("", 0, Some(ProofOfAuthority), Some(Chain(55555).(forks := Some(NoForks.(homestead := 2, eip150 := 1)))), [Plain("node-1", Besu)])))
  {
    var s := NetworkSpec("", 0, Some(ProofOfAuthority), Some(Chain(55555).(forks := Some(NoForks.(homestead := 2, eip150 := 1)))), [Plain("node-1", Besu)]);
    Eip150BeforeHomestead(s, NoForks.(homestead := 2, eip150 := 1));
    ForkErrorRendered();
  }

  /** A spec that joins a network may not set a network id. */
  lemma CreateCase14()
    ensures Invalid("spec.id", Text("77777"), NoIdWhenJoining)
         in ValidateCreate(Default(NetworkSpec(Rinkeby, 77777, None, None, [Plain("node-1", Besu)])))
  {
    var s := NetworkSpec(Rinkeby, 77777, None, None, [Plain("node-1", Besu)]);
    NetworkModeFires(s);
    assert NatToString(77777) == "77777";
  }

  /** A spec that joins no network needs a network id. */
  lemma CreateCase15()
    ensures Invalid("spec.id", Text(""), RequiredWithoutJoin)
         in ValidateCreate(Default(NetworkSpec("", 0, Some(ProofOfWork), Some(Chain(55555)), [Plain("node-1", Besu)])))
  {
    var s := NetworkSpec("", 0, Some(ProofOfWork), Some(Chain(55555)), [Plain("node-1", Besu)]);
    NetworkModeFires(s);
  }

  /** A Geth miner must import its coinbase account. */
  lemma CreateCase16()
    ensures Invalid("spec.nodes[0].import", Text(""), ImportRequired)
         in ValidateCreate(Default(Private(77777, ProofOfWork, Chain(55555), [Miner(Geth, None)])))
  {
    var s := Private(77777, ProofOfWork, Chain(55555), [Miner(Geth, None)]);
    FirstNodeAccountFires(s);
  }

  /** Besu cannot import an account. */
  lemma CreateCase18()
    ensures Invalid("spec.nodes[0].client", Text("besu"), ImportClients)
         in ValidateCreate(Default(Private(77777, ProofOfWork, Chain(55555), [Miner(Besu, Account)])))
  {
    var s := Private(77777, ProofOfWork, Chain(55555), [Miner(Besu, Account)]);
    FirstNodeClientLacks(s, AccountImport);
  }

  /** Geth cannot run an ibft2 network. */
  lemma CreateCase19()
    ensures Invalid("spec.nodes[0].client", Text("geth"), NoIbft2)
         in ValidateCreate(Default(Private(77777, IstanbulBFT, Chain(55555), [Plain("node-1", Geth)])))
  {
    var s := Private(77777, IstanbulBFT, Chain(55555), [Plain("node-1", Geth)]);
    FirstNodeClientLacks(s, IBFT2Consensus);
  }

  /** A node that imports an account must keep rpc off. */
  lemma CreateCase20()
    ensures Invalid("spec.nodes[0].rpc", Flag(true), OffWhenImporting)
         in ValidateCreate(Default(Private(77777, ProofOfAuthority, Chain(55555), [Miner(Geth, Account).(rpc := true)])))
  {
    var s := Private(77777, ProofOfAuthority, Chain(55555), [Miner(Geth, Account).(rpc := true)]);
    FirstNodeAccountFires(s);
  }

  /** A node that imports an account must keep ws off. */
  lemma CreateCase21()
    ensures Invalid("spec.nodes[0].ws", Flag(true), OffWhenImporting)
         in ValidateCreate(Default(Private(77777, ProofOfAuthority, Chain(55555), [Miner(Geth, Account).(ws := true)])))
  {
    var s := Private(77777, ProofOfAuthority, Chain(55555), [Miner(Geth, Account).(ws := true)]);
    FirstNodeAccountFires(s);
  }

  /** A node that imports an account must keep graphQL off. */
  lemma CreateCase22()
    ensures Invalid("spec.nodes[0].graphql", Flag(true), OffWhenImporting)
         in ValidateCreate(Default(Private(77777, ProofOfAuthority, Chain(55555), [Miner(Geth, Account).(graphql := true)])))
  {
    var s := Private(77777, ProofOfAuthority, Chain(55555), [Miner(Geth, Account).(graphql := true)]);
    FirstNodeAccountFires(s);
  }

  /** Geth cannot run a fixed-difficulty proof-of-work network. */
  lemma CreateCase23()
    ensures Invalid("spec.nodes[0].client", Text("geth"), NoFixedDifficulty)
         in ValidateCreate(Default(Private(77777, ProofOfWork, Chain(55555).(ethash := Some(Ethash(Some(1500)))), [Plain("node-1", Geth)])))
  {
    var s := Private(77777, ProofOfWork, Chain(55555).(ethash := Some(Ethash(Some(1500)))), [Plain("node-1", Geth)]);
    FirstNodeClientLacks(s, FixedDifficultyPoW);
  }

  /** Besu cannot sync in light mode. */
  lemma CreateCase24()
    ensures Invalid("spec.nodes[0].client", Text("besu"), LightSyncGethOnly)
         in ValidateCreate(Default(Joining(Rinkeby, [Plain("node-1", Besu).(syncMode := Some(LightSynchronization))])))
  {
    var s := Joining(Rinkeby, [Plain("node-1", Besu).(syncMode := Some(LightSynchronization))]);
    FirstNodeClientLacks(s, LightSync);
  }

  /** Geth has no fatal log level. */
  lemma CreateCase28()
    ensures Invalid("spec.nodes[0].logging", Text("fatal"), LevelUnsupported("geth"))
         in ValidateCreate(Default(Joining(Rinkeby, [Plain("node-1", Geth).(logging := Some(FatalLogs))])))
  {
    var s := Joining(Rinkeby, [Plain("node-1", Geth).(logging := Some(FatalLogs))]);
    FirstNodeLevelUnsupported(s, FatalLogs);
    assert ClientName(Geth) == "geth";
  }

  /** Geth has no trace log level. */
  lemma CreateCase29()
    ensures Invalid("spec.nodes[0].logging", Text("trace"), LevelUnsupported("geth"))
         in ValidateCreate(Default(Joining(Rinkeby, [Plain("node-1", Geth).(logging := Some(TraceLogs))])))
  {
    var s := Joining(Rinkeby, [Plain("node-1", Geth).(logging := Some(TraceLogs))]);
    FirstNodeLevelUnsupported(s, TraceLogs);
    assert ClientName(Geth) == "geth";
  }

  /** Parity cannot turn logging off. */
  lemma CreateCase30()
    ensures Invalid("spec.nodes[0].logging", Text("off"), LevelUnsupported("parity"))
         in ValidateCreate(Default(Joining(Rinkeby, [Plain("node-1", Parity).(logging := Some(NoLogs))])))
  {
    var s := Joining(Rinkeby, [Plain("node-1", Parity).(logging := Some(NoLogs))]);
    FirstNodeLevelUnsupported(s, NoLogs);
    assert ClientName(Parity) == "parity";
  }

  /** Parity has no fatal log level. */
  lemma CreateCase31()
    ensures Invalid("spec.nodes[0].logging", Text("fatal"), LevelUnsupported("parity"))
         in ValidateCreate(Default(Joining(Rinkeby, [Plain("node-1", Parity).(logging := Some(FatalLogs))])))
  {
    var s := Joining(Rinkeby, [Plain("node-1", Parity).(logging := Some(FatalLogs))]);
    FirstNodeLevelUnsupported(s, FatalLogs);
    assert ClientName(Parity) == "parity";
  }

  /** Parity has no all log level. */
  lemma CreateCase32()
    ensures Invalid("spec.nodes[0].logging", Text("all"), LevelUnsupported("parity"))
         in ValidateCreate(Default(Joining(Rinkeby, [Plain("node-1", Parity).(logging := Some(AllLogs))])))
  {
    var s := Joining(Rinkeby, [Plain("node-1", Parity).(logging := Some(AllLogs))]);
    FirstNodeLevelUnsupported(s, AllLogs);
    assert ClientName(Parity) == "parity";
  }

  /** Parity has no graphQL server. */
  lemma CreateCase33()
    ensures Invalid("spec.nodes[0].client", Text("parity"), NoGraphQL)
         in ValidateCreate(Default(Joining(Rinkeby, [Plain("node-1", Parity).(graphql := true)])))
  {
    var s := Joining(Rinkeby, [Plain("node-1", Parity).(graphql := true)]);
    FirstNodeClientLacks(s, GraphQLServer);
  }

  /** Parity cannot run an ibft2 network. */
  lemma CreateCase34()
    ensures Invalid("spec.nodes[0].client", Text("parity"), NoIbft2)
         in ValidateCreate(Default(Private(77777, IstanbulBFT, Chain(55555), [Plain("node-1", Parity)])))
  {
    var s := Private(77777, IstanbulBFT, Chain(55555), [Plain("node-1", Parity)]);
    FirstNodeClientLacks(s, IBFT2Consensus);
  }

  /** Parity cannot sync in light mode. */
  lemma CreateCase35()
    ensures Invalid("spec.nodes[0].client", Text("parity"), LightSyncGethOnly)
         in ValidateCreate(Default(Joining(Rinkeby, [Plain("node-1", Parity).(syncMode := Some(LightSynchronization))])))
  {
    var s := Joining(Rinkeby, [Plain("node-1", Parity).(syncMode := Some(LightSynchronization))]);
    FirstNodeClientLacks(s, LightSync);
  }

  /** Parity cannot mine. */
  lemma CreateCase36()
    ensures Invalid("spec.nodes[0].client", Text("parity"), NoMining)
         in ValidateCreate(Default(Private(77777, ProofOfWork, Chain(55555), [Miner(Parity, None)])))
  {
    var s := Private(77777, ProofOfWork, Chain(55555), [Miner(Parity, None)]);
    FirstNodeClientLacks(s, Mining);
  }

  /** A Geth node serving graphQL must serve rpc. */
  lemma CreateCase37()
    ensures Invalid("spec.nodes[0].rpc", Flag(false), RpcForGraphQL)
         in ValidateCreate(Default(Joining(Rinkeby, [Plain("node-1", Geth).(graphql := true)])))
  {
    var s := Joining(Rinkeby, [Plain("node-1", Geth).(graphql := true)]);
    FirstNodeAccountFires(s);
  }

  // ---------------------------------------------------------------------------
  // Update: the stored spec against the new one after defaulting

  /** The network joined is fixed at creation. */
  lemma UpdateCase1()
    ensures Invalid("spec.join", Text("ropsten"), Immutable)
         in ValidateUpdate(Joining(Rinkeby, [Plain("node-1", Besu)]),
                           Default(Joining(Ropsten, [Plain("node-1", Besu)])))
  {
    var before, after := Joining(Rinkeby, [Plain("node-1", Besu)]),
                         Joining(Ropsten, [Plain("node-1", Besu)]);
    IdentityFires(before, Default(after));
  }

  /** The consensus engine is fixed at creation. */
  lemma UpdateCase2()
    ensures Invalid("spec.consensus", Text("pow"), Immutable)
         in ValidateUpdate(Private(0, ProofOfAuthority, Chain(55555), [Plain("node-1", Besu)]),
                           Default(Private(0, ProofOfWork, Chain(55555), [Plain("node-1", Besu)])))
  {
    var before, after := Private(0, ProofOfAuthority, Chain(55555), [Plain("node-1", Besu)]),
                         Private(0, ProofOfWork, Chain(55555), [Plain("node-1", Besu)]);
    IdentityFires(before, Default(after));
  }

  /** The genesis block is fixed at creation. */
  lemma UpdateCase3()
    ensures Invalid("spec.genesis", Text(""), Immutable)
         in ValidateUpdate(Private(0, ProofOfAuthority, Chain(55555), [Plain("node-1", Geth)]),
                           Default(Private(0, ProofOfAuthority, Chain(4444), [Plain("node-1", Geth)])))
  {
    var before, after := Private(0, ProofOfAuthority, Chain(55555), [Plain("node-1", Geth)]),
                         Private(0, ProofOfAuthority, Chain(4444), [Plain("node-1", Geth)]);
    IdentityFires(before, Default(after));
  }

  /** A node keeps its name. The stored spec has no fork schedule and the new one gets
      the default schedule, which is the same genesis block: no genesis change is reported. */
  lemma UpdateCase4()
    ensures Invalid("spec.nodes[0].name", Text("node-2"), Immutable)
         in ValidateUpdate(Private(0, ProofOfAuthority, Chain(55555), [Plain("node-1", Besu)]),
                           Default(Private(0, ProofOfAuthority, Chain(55555), [Plain("node-2", Besu)])))
    ensures Invalid("spec.genesis", Text(""), Immutable)
         !in ValidateUpdate(Private(0, ProofOfAuthority, Chain(55555), [Plain("node-1", Besu)]),
                            Default(Private(0, ProofOfAuthority, Chain(55555), [Plain("node-2", Besu)])))
  {
    var before, after := Private(0, ProofOfAuthority, Chain(55555), [Plain("node-1", Besu)]),
                         Private(0, ProofOfAuthority, Chain(55555), [Plain("node-2", Besu)]);
    FirstNodeRenamed(before, Default(after));
    IdentityFires(before, Default(after));
  }

  /** The network id is fixed at creation. */
  lemma UpdateCase5()
    ensures Invalid("spec.id", Text("8888"), Immutable)
         in ValidateUpdate(Private(77777, ProofOfAuthority, Chain(55555), [Plain("node-1", Besu)]),
                           Default(Private(8888, ProofOfAuthority, Chain(55555), [Plain("node-1", Besu)])))
  {
    var before, after := Private(77777, ProofOfAuthority, Chain(55555), [Plain("node-1", Besu)]),
                         Private(8888, ProofOfAuthority, Chain(55555), [Plain("node-1", Besu)]);
    IdentityFires(before, Default(after));
    assert NatToString(8888) == "8888";
  }
}
