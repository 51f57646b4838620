/** Structured validation errors: Kubernetes' `field.Invalid(path, value, detail)`,
    reduced to the triple the admission response reports for each cause. */
module FieldErrors {
  import Text

  /** The rejected value as it is reported: a string, or a boolean flag. */
  datatype BadValue = Text(text: string) | Flag(flag: bool)

  /** Why a field is rejected. Each reason has one message, `DetailText`; the fork-order
      and log-level reasons carry what their message mentions. */
  datatype Detail =
    | NoGenesisWhenJoining
    | NoConsensusWhenJoining
    | NoIdWhenJoining
    | RequiredWithoutJoin
    | ConsensusRequired
    | MainnetChainIdReused
    | CliqueNeedsPoA
    | Ibft2NeedsIbft2
    | EthashNeedsPoW
    | ForkOrder(fork: string, block: nat, earlierFork: string, earlierBlock: nat)
    | BootnodeFirst
    | NodekeyRequired
    | CoinbaseRequired
    | MinerRequired
    | ImportRequired
    | OffWhenImporting
    | RpcForGraphQL
    | ImportClients
    | NoIbft2
    | NoFixedDifficulty
    | LightSyncGethOnly
    | NoGraphQL
    | NoMining
    | LevelUnsupported(client: string)
    | Immutable

  /** The message the admission response carries for each reason. */
  function DetailText(d: Detail): string {
    match d
    case NoGenesisWhenJoining => "must be none if spec.genesis is specified"
    case NoConsensusWhenJoining => "must be none while joining a network"
    case NoIdWhenJoining => "must be none if spec.join is provided"
    case RequiredWithoutJoin => "must be specified if spec.join is none"
    case ConsensusRequired => "must be specified if spec.genesis is provided"
    case MainnetChainIdReused => "can't use chain id of mainnet network to avoid tx replay"
    case CliqueNeedsPoA => "must be poa if spec.genesis.clique is specified"
    case Ibft2NeedsIbft2 => "must be ibft2 if spec.genesis.ibft2 is specified"
    case EthashNeedsPoW => "must be pow if spec.genesis.ethash is specified"
    case ForkOrder(fork, block, earlierFork, earlierBlock) =>
      "Fork " + fork + " can't be activated (at block " + Text.NatToString(block)
      + ") before fork " + earlierFork + " (at block " + Text.NatToString(earlierBlock) + ")"
    case BootnodeFirst => "first node must be a bootnode if network has multiple nodes"
    case NodekeyRequired => "must provide nodekeySecretName if bootnode is true"
    case CoinbaseRequired => "must provide coinbase if miner is true"
    case MinerRequired => "must set miner to true if coinbase is provided"
    case ImportRequired => "must import coinbase account"
    case OffWhenImporting => "must be false if import is provided"
    case RpcForGraphQL => "must enable rpc if client is geth and graphql is enabled"
    case ImportClients => "must be geth or parity if import is provided"
    case NoIbft2 => "client doesn't support ibft2 consensus"
    case NoFixedDifficulty => "client doesn't support fixed difficulty pow networks"
    case LightSyncGethOnly => "must be geth if syncMode is light"
    case NoGraphQL => "client doesn't support graphQL"
    case NoMining => "client doesn't support mining"
    case LevelUnsupported(client) => "not supported by client " + client
    case Immutable => "field is immutable"
  }

  datatype FieldError = Invalid(field: string, badValue: BadValue, detail: Detail)

  type ErrorList = seq<FieldError>

  /** The field path `spec.nodes[i].<child>`. */
  function NodePath(i: nat, child: string): (p: string)
    ensures |p| > 13 && p[..11] == "spec.nodes["
    ensures p[5] == 'n'
  {
    "spec.nodes[" + Text.NatToString(i) + "]." + child
  }

  /** Two node paths are equal only when they name the same node and the same child. */
  lemma NodePathInjective(i: nat, a: string, j: nat, b: string)
    requires NodePath(i, a) == NodePath(j, b)
    ensures i == j && a == b
  {
    var di, dj := Text.NatToString(i), Text.NatToString(j);
    var p, q := NodePath(i, a), NodePath(j, b);
    assert p[11 + |di|] == ']';
    assert q[11 + |dj|] == ']';
    assert |di| == |dj|;
    assert di == p[11..11 + |di|] == q[11..11 + |dj|] == dj;
    Text.NatToStringInjective(i, j);
    assert a == p[13 + |di|..] == q[13 + |dj|..] == b;
  }
}
