/** The Ethereum `Network` resource: a network configuration (join a public
    network, or bootstrap a private one from a genesis block) and the list of
    nodes that run it, with the defaulting applied before validation. */
module EthereumNetwork {
  import opened Wrappers
  import opened Logging

  datatype Client = Besu | Geth | Parity

  /** The client as it is written in a spec and reported in errors. */
  function ClientName(c: Client): string {
    match c
    case Besu => "besu"
    case Geth => "geth"
    case Parity => "parity"
  }

  datatype Consensus = ProofOfAuthority | ProofOfWork | IstanbulBFT

  function ConsensusName(c: Consensus): string {
    match c
    case ProofOfAuthority => "poa"
    case ProofOfWork => "pow"
    case IstanbulBFT => "ibft2"
  }

  /** The consensus field as a string: empty when it is not set. */
  function ConsensusField(c: Option<Consensus>): string {
    match c
    case None => ""
    case Some(k) => ConsensusName(k)
  }

  datatype SyncMode = FastSynchronization | FullSynchronization | LightSynchronization

  /** An account whose private key and password live in secrets. */
  datatype ImportedAccount = ImportedAccount(privateKeySecretName: string, passwordSecretName: string)

  /** One node of the network. Empty strings stand for unset strings. */
  datatype Node = Node(
    name: string,
    bootnode: bool,
    nodekeySecretName: string,
    client: Client,
    miner: bool,
    coinbase: string,
    importedAccount: Option<ImportedAccount>,
    rpc: bool,
    ws: bool,
    graphql: bool,
    syncMode: Option<SyncMode>,
    logging: Option<LogLevel>)

  datatype Ethash = Ethash(fixedDifficulty: Option<nat>)

  /** Activation blocks of the hard forks, in canonical order. */
  datatype Forks = Forks(
    homestead: nat,
    eip150: nat,
    eip155: nat,
    eip158: nat,
    byzantium: nat,
    constantinople: nat,
    petersburg: nat,
    istanbul: nat,
    muirGlacier: nat,
    berlin: nat,
    london: nat)

  const NoForks: Forks := Forks(0, 0, 0, 0, 0, 0, 0, 0, 0, 0, 0)

  /** A genesis block: chain id, at most one engine sub-block each for clique,
      ibft2 and ethash (`clique` and `ibft2` record only their presence), and
      the fork schedule. */
  datatype Genesis = Genesis(
    chainId: nat,
    clique: bool,
    ibft2: bool,
    ethash: Option<Ethash>,
    forks: Option<Forks>)

  /** `join` is the public network to join ("" for none); `id` is the network
      id (0 for none). */
  datatype NetworkSpec = NetworkSpec(
    join: string,
    id: nat,
    consensus: Option<Consensus>,
    genesis: Option<Genesis>,
    nodes: seq<Node>)

  /** Chain id of the Ethereum main network. */
  const MainnetChainId: nat := 1

  function DefaultNode(n: Node): (r: Node)
    ensures r.logging.Some?
    ensures n.logging.Some? ==> r.logging == n.logging
    ensures r.(logging := n.logging) == n
  {
    if n.logging.None? then n.(logging := Some(DefaultLogging)) else n
  }

  function DefaultGenesis(g: Genesis): (r: Genesis)
    ensures r.forks.Some?
    ensures g.forks.Some? ==> r.forks == g.forks
    ensures r.(forks := g.forks) == g
  {
    if g.forks.None? then g.(forks := Some(NoForks)) else g
  }

  /** A genesis block, if any, as defaulting leaves it. */
  function DefaultedGenesis(g: Option<Genesis>): Option<Genesis> {
    if g.Some? then Some(DefaultGenesis(g.value)) else None
  }

  /** Defaulting: every node without a logging level gets the default level and a
      genesis without a fork schedule gets the all-zero schedule; nothing else changes. */
  function Default(s: NetworkSpec): (r: NetworkSpec)
    ensures |r.nodes| == |s.nodes|
    ensures forall i :: 0 <= i < |s.nodes| ==> r.nodes[i] == DefaultNode(s.nodes[i])
    ensures r.(nodes := s.nodes, genesis := s.genesis) == s
    ensures r.genesis.Some? <==> s.genesis.Some?
    ensures s.genesis.Some? ==> r.genesis == Some(DefaultGenesis(s.genesis.value))
  {
    s.(genesis := DefaultedGenesis(s.genesis),
       nodes := seq(|s.nodes|, i requires 0 <= i < |s.nodes| => DefaultNode(s.nodes[i])))
  }

  /** Defaulting a defaulted spec changes nothing. */
  lemma DefaultIdempotent(s: NetworkSpec)
    ensures Default(Default(s)) == Default(s)
  {
    var d := Default(s);
    assert Default(d).nodes == d.nodes;
  }
}
