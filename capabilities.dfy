/** The capability registry of the Ethereum execution clients: which client
    supports which consensus engine, sync mode, API, role and log level. */
module Capabilities {
  import opened Wrappers
  import opened Logging
  import opened EthereumNetwork

  datatype Feature =
    | AccountImport
    | IBFT2Consensus
    | FixedDifficultyPoW
    | LightSync
    | GraphQLServer
    | Mining
    | LogVerbosity(level: LogLevel)

  /** The registry. A pair that is not listed as unsupported is supported. */
  function Supports(c: Client, f: Feature): bool {
    match (c, f)
    case (Besu, AccountImport) => false
    case (Besu, LightSync) => false
    case (Geth, IBFT2Consensus) => false
    case (Geth, FixedDifficultyPoW) => false
    case (Geth, LogVerbosity(l)) => l != FatalLogs && l != TraceLogs
    case (Parity, IBFT2Consensus) => false
    case (Parity, LightSync) => false
    case (Parity, GraphQLServer) => false
    case (Parity, Mining) => false
    case (Parity, LogVerbosity(l)) => l != NoLogs && l != FatalLogs && l != AllLogs
    case _ => true
  }

  /** Every feature that a node's spec can switch on and that the registry gates,
      each listed once. */
  const GatedFeatures: seq<Feature> := [
    AccountImport, IBFT2Consensus, FixedDifficultyPoW, LightSync, GraphQLServer, Mining,
    LogVerbosity(NoLogs), LogVerbosity(FatalLogs), LogVerbosity(ErrorLogs), LogVerbosity(WarnLogs),
    LogVerbosity(InfoLogs), LogVerbosity(DebugLogs), LogVerbosity(TraceLogs), LogVerbosity(AllLogs)]

  /** Whether the network spec switches feature `f` on for node `n`. */
  predicate Enabled(s: NetworkSpec, n: Node, f: Feature) {
    match f
    case AccountImport => n.importedAccount.Some?
    case IBFT2Consensus => s.consensus == Some(IstanbulBFT)
    case FixedDifficultyPoW =>
      s.genesis.Some? && s.genesis.value.ethash.Some? && s.genesis.value.ethash.value.fixedDifficulty.Some?
    case LightSync => n.syncMode == Some(LightSynchronization)
    case GraphQLServer => n.graphql
    case Mining => n.miner
    case LogVerbosity(l) => n.logging == Some(l)
  }

  /** The gated-feature list is complete and has no repeats. */
  lemma GatedFeaturesComplete(f: Feature)
    ensures f in GatedFeatures
    ensures forall i, j :: 0 <= i < j < |GatedFeatures| ==> GatedFeatures[i] != GatedFeatures[j]
  {
    match f
    case LogVerbosity(l) => {
      match l
      case NoLogs => assert GatedFeatures[6] == f;
      case FatalLogs => assert GatedFeatures[7] == f;
      case ErrorLogs => assert GatedFeatures[8] == f;
      case WarnLogs => assert GatedFeatures[9] == f;
      case InfoLogs => assert GatedFeatures[10] == f;
      case DebugLogs => assert GatedFeatures[11] == f;
      case TraceLogs => assert GatedFeatures[12] == f;
      case AllLogs => assert GatedFeatures[13] == f;
    }
    case _ =>
  }

  /** Every client accepts the level that defaulting fills in. */
  lemma DefaultLoggingSupported(c: Client)
    ensures Supports(c, LogVerbosity(DefaultLogging))
  {
  }

  /** Only Besu runs IBFT2 networks, and only Geth syncs in light mode. */
  lemma ExclusiveFeatures(c: Client)
    ensures Supports(c, IBFT2Consensus) <==> c == Besu
    ensures Supports(c, LightSync) <==> c == Geth
    ensures Supports(c, AccountImport) <==> c != Besu
  {
  }
}
