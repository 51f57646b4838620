# kotal core, modelled in Dafny

kotal is a Kubernetes operator for blockchain nodes. This project models four of its parts.

- **Admission of an Ethereum `Network` resource.** `ValidateCreate` and `ValidateUpdate` run after `Default()`.
  - The model is a function from a network spec (and, for updates, the old spec) to a list of field errors.
  - Each error is a triple: field path, bad value and detail.
  - Every check is a *rule*: a condition paired with the error it reports.
  - The main results:
    - every rule's error is reported exactly once when its condition holds, and never otherwise;
    - the error list is empty exactly when the spec is admissible;
    - an update reports the create errors of the new spec plus one "field is immutable" error per changed identity field;
    - the model's defaulting (the source's is not shown) never changes the verdict;
    - submitting a stored spec again is judged exactly as its creation was.
  - `FieldErrors.Detail` names each kind of error. `FieldErrors.DetailText` gives its message text exactly as the admission webhook writes it, e.g. "must be none while joining a network".
- **Teku beacon-node client.** Its image, command, environment, home directory and argument list.
  - Arguments are groups switched on by spec fields.
  - Teku passes a flag and its value as two elements.
- **Nimbus validator client.**
  - The dispatcher that picks the argument compiler by client name.
  - The arguments, each flag and value joined into one element by `argWithVal`.
- **IPFS cluster-peer controller.** The in-place spec builders that the reconcile loop applies to a cluster peer's labels and to its Service, ConfigMap, PersistentVolumeClaim and StatefulSet.
  - Each of these objects is a Dafny `class` whose methods state the whole new state.
  - Lemmas prove what the new state carries: the identifying labels, seven distinct ports, an idempotent claim update, the init environment and the mounted volumes.

Names and paths that the shown code uses but does not define are parameters of the model:
- Teku and Nimbus flag names;
- `argWithVal`, `shared.PathData` and `shared.PathConfig`;
- the default image and the home directory;
- the `EnvIPFSCluster*` variable names.

Every lemma therefore holds whatever their values are.

Files:
- `wrappers.dfy`, `text.dfy`: Option and Result types; decimal formatting, ASCII case mapping, join and split, each with its round trip.
- `logging.dfy`, `ethereum_network.dfy`, `capabilities.dfy`: the network spec, its defaulting and the per-client capability table.
- `rules.dfy`: rule lists and the counting lemmas for the errors they report.
- `field_errors.dfy`, `network_validation.dfy`: the validator and its laws.
- `network_validation_cases.dfy`: the admission cases of the webhook test file, one lemma each.
- `client_args.dfy`, `ethereum2.dfy`, `teku_beacon_node.dfy`, `nimbus_validator_client.dfy`: the Ethereum 2 clients.
- `ipfs_cluster_peer.dfy`: the cluster-peer controller.

## Model

| member | source | states |
|---|---|---|
| EthereumNetwork.Default | apis/ethereum/v1alpha1/network_validation_webhook_test.go:1329 | defaulting keeps the node count, fills each node's logging level and the genesis fork schedule, and changes nothing else; what it fills is the model's own choice (see Left out) |
| EthereumNetwork.DefaultIdempotent | apis/ethereum/v1alpha1/network_validation_webhook_test.go:1329 | defaulting a defaulted spec changes nothing |
| Capabilities.ExclusiveFeatures | apis/ethereum/v1alpha1/network_validation_webhook_test.go:506-743 | only Besu runs IBFT2, only Geth syncs in light mode, and every client but Besu imports accounts |
| Capabilities.DefaultLoggingSupported | apis/ethereum/v1alpha1/network_validation_webhook_test.go:1329 | every client supports the logging level that defaulting fills in |
| NetworkValidation.NetworkModeReported | apis/ethereum/v1alpha1/network_validation_webhook_test.go:28-106 | joining a public network excludes genesis, consensus and id, and a network that joins none needs a genesis and an id; each error is reported exactly once iff its condition holds |
| NetworkValidation.GenesisReported | apis/ethereum/v1alpha1/network_validation_webhook_test.go:107-225 | with a genesis: consensus is required; chain id 1 is refused; clique needs poa, ibft2 needs ibft2 and ethash needs pow; each error is reported exactly once iff violated |
| NetworkValidation.ForkOrderReported | apis/ethereum/v1alpha1/network_validation_webhook_test.go:385-417 | a fork activated before its predecessor in the canonical schedule is reported once, at its own field, with its block as the bad value; a fork in order is never reported |
| NetworkValidation.ForkRulesPass | apis/ethereum/v1alpha1/network_validation_webhook_test.go:385-417 | no fork error iff the whole schedule is in non-decreasing block order, not only neighbouring pairs |
| NetworkValidation.BootnodeReported | apis/ethereum/v1alpha1/network_validation_webhook_test.go:226-260 | with more than one node, the first node must be a bootnode; reported exactly once iff it is not |
| NetworkValidation.NodeRoleReported | apis/ethereum/v1alpha1/network_validation_webhook_test.go:261-356 | for every node: a bootnode needs a nodekey secret, a miner needs a coinbase, and a coinbase needs a miner; each error is reported exactly once at that node's path iff violated |
| NetworkValidation.NodeAccountReported | apis/ethereum/v1alpha1/network_validation_webhook_test.go:474-682 | a Geth miner must import its coinbase account; importing an account switches off rpc, ws and graphql; Geth graphql needs rpc; each error is reported exactly once iff violated |
| NetworkValidation.CapabilityReported | apis/ethereum/v1alpha1/network_validation_webhook_test.go:806-1083 | for every node and gated feature (import, ibft2, fixed difficulty, light sync, graphql, mining, each log level), the client error is reported exactly once iff the spec switches the feature on and the node's client lacks it |
| NetworkValidation.AdmissionCriterion | apis/ethereum/v1alpha1/network_validation_webhook_test.go:1324-1340 | creation reports no error iff the network is admissible and every node is admissible |
| NetworkValidation.ImmutableFieldsReported | apis/ethereum/v1alpha1/network_validation_webhook_test.go:1092-1320 | an update reports "field is immutable" exactly once for each of join, consensus, genesis and id that changed, carrying the new value (genesis carries ""), and never for one that did not; genesis blocks are compared as defaulting leaves them, since the stored spec was defaulted at its creation |
| NetworkValidation.NodeNameReported | apis/ethereum/v1alpha1/network_validation_webhook_test.go:1227-1273 | renaming the node at an index both specs have is reported once at that node's name path with the new name; keeping the name is never reported |
| NetworkValidation.UpdateJudgedAsCreate | apis/ethereum/v1alpha1/network_validation_webhook_test.go:1342-1358 | an update gives the same errors as creating the new spec iff no identity field and no node name changed |
| NetworkValidation.ResubmitJudgedAsCreate | apis/ethereum/v1alpha1/network_validation_webhook_test.go:1346-1348 | an update from a stored spec to that spec defaulted, as the update path defaults the new spec, reports exactly the spec's creation errors and no immutability error |
| NetworkValidation.DefaultKeepsVerdict | apis/ethereum/v1alpha1/network_validation_webhook_test.go:1328-1330 | validating a defaulted spec gives the same errors as validating the spec itself |
| NetworkValidationCases.CreateCase1 | apis/ethereum/v1alpha1/network_validation_webhook_test.go:28-54 | joining rinkeby with consensus pow yields exactly one error: spec.consensus "pow", must be none while joining |
| NetworkValidationCases.CreateCase2 | apis/ethereum/v1alpha1/network_validation_webhook_test.go:55-83 | joining with a genesis is reported at spec.join |
| NetworkValidationCases.CreateCase3 | apis/ethereum/v1alpha1/network_validation_webhook_test.go:84-106 | neither join nor genesis is reported at spec.genesis |
| NetworkValidationCases.CreateCase4 | apis/ethereum/v1alpha1/network_validation_webhook_test.go:107-135 | genesis chain id 1 is reported at spec.genesis.chainId with value "1" |
| NetworkValidationCases.CreateCase5 | apis/ethereum/v1alpha1/network_validation_webhook_test.go:136-165 | a clique genesis with pow consensus is reported at spec.consensus |
| NetworkValidationCases.CreateCase6 | apis/ethereum/v1alpha1/network_validation_webhook_test.go:166-195 | an ibft2 genesis with pow consensus is reported at spec.consensus |
| NetworkValidationCases.CreateCase7 | apis/ethereum/v1alpha1/network_validation_webhook_test.go:196-225 | an ethash genesis with ibft2 consensus is reported at spec.consensus |
| NetworkValidationCases.CreateCase8 | apis/ethereum/v1alpha1/network_validation_webhook_test.go:226-260 | two nodes whose first is no bootnode is reported at spec.nodes[0].bootnode |
| NetworkValidationCases.CreateCase9 | apis/ethereum/v1alpha1/network_validation_webhook_test.go:261-296 | a bootnode without nodekey secret is reported at spec.nodes[0].nodekey |
| NetworkValidationCases.CreateCase10 | apis/ethereum/v1alpha1/network_validation_webhook_test.go:297-326 | a miner without coinbase is reported at spec.nodes[0].coinbase |
| NetworkValidationCases.CreateCase11 | apis/ethereum/v1alpha1/network_validation_webhook_test.go:327-356 | a coinbase without miner is reported at spec.nodes[0].miner with value false |
| NetworkValidationCases.CreateCase12 | apis/ethereum/v1alpha1/network_validation_webhook_test.go:357-384 | a genesis without consensus is reported at spec.consensus |
| NetworkValidationCases.CreateCase13 | apis/ethereum/v1alpha1/network_validation_webhook_test.go:385-417 | eip150 at block 1 before homestead at block 2 is reported at spec.genesis.forks.eip150 with value "1" |
| NetworkValidationCases.ForkOrderRendered | apis/ethereum/v1alpha1/network_validation_webhook_test.go:385-417 | the fork-order message names both forks and both blocks: "Fork eip150 can't be activated (at block 1) before fork homestead (at block 2)" |
| NetworkValidationCases.CreateCase14 | apis/ethereum/v1alpha1/network_validation_webhook_test.go:418-444 | joining with id 77777 is reported at spec.id with value "77777" |
| NetworkValidationCases.CreateCase15 | apis/ethereum/v1alpha1/network_validation_webhook_test.go:445-473 | no join and no id is reported at spec.id |
| NetworkValidationCases.CreateCase16 | apis/ethereum/v1alpha1/network_validation_webhook_test.go:474-505 | a Geth miner without import is reported at spec.nodes[0].import |
| NetworkValidationCases.CreateCase18 | apis/ethereum/v1alpha1/network_validation_webhook_test.go:506-541 | Besu importing an account is reported at spec.nodes[0].client |
| NetworkValidationCases.CreateCase19 | apis/ethereum/v1alpha1/network_validation_webhook_test.go:542-571 | Geth in an ibft2 network is reported at spec.nodes[0].client |
| NetworkValidationCases.CreateCase20 | apis/ethereum/v1alpha1/network_validation_webhook_test.go:572-608 | rpc with an imported account is reported at spec.nodes[0].rpc |
| NetworkValidationCases.CreateCase21 | apis/ethereum/v1alpha1/network_validation_webhook_test.go:609-645 | ws with an imported account is reported at spec.nodes[0].ws |
| NetworkValidationCases.CreateCase22 | apis/ethereum/v1alpha1/network_validation_webhook_test.go:646-682 | graphql with an imported account is reported at spec.nodes[0].graphql |
| NetworkValidationCases.CreateCase23 | apis/ethereum/v1alpha1/network_validation_webhook_test.go:683-715 | Geth with a fixed ethash difficulty is reported at spec.nodes[0].client |
| NetworkValidationCases.CreateCase24 | apis/ethereum/v1alpha1/network_validation_webhook_test.go:716-743 | Besu in light sync mode is reported at spec.nodes[0].client |
| NetworkValidationCases.CreateCase28 | apis/ethereum/v1alpha1/network_validation_webhook_test.go:806-832 | Geth with fatal logging is reported at spec.nodes[0].logging |
| NetworkValidationCases.CreateCase29 | apis/ethereum/v1alpha1/network_validation_webhook_test.go:833-859 | Geth with trace logging is reported at spec.nodes[0].logging |
| NetworkValidationCases.CreateCase30 | apis/ethereum/v1alpha1/network_validation_webhook_test.go:860-886 | Parity with logging off is reported at spec.nodes[0].logging |
| NetworkValidationCases.CreateCase31 | apis/ethereum/v1alpha1/network_validation_webhook_test.go:887-913 | Parity with fatal logging is reported at spec.nodes[0].logging |
| NetworkValidationCases.CreateCase32 | apis/ethereum/v1alpha1/network_validation_webhook_test.go:914-940 | Parity with all logging is reported at spec.nodes[0].logging |
| NetworkValidationCases.CreateCase33 | apis/ethereum/v1alpha1/network_validation_webhook_test.go:941-967 | Parity with graphql is reported at spec.nodes[0].client |
| NetworkValidationCases.CreateCase34 | apis/ethereum/v1alpha1/network_validation_webhook_test.go:968-997 | Parity in an ibft2 network is reported at spec.nodes[0].client |
| NetworkValidationCases.CreateCase35 | apis/ethereum/v1alpha1/network_validation_webhook_test.go:998-1024 | Parity in light sync mode is reported at spec.nodes[0].client |
| NetworkValidationCases.CreateCase36 | apis/ethereum/v1alpha1/network_validation_webhook_test.go:1025-1056 | a Parity miner is reported at spec.nodes[0].client |
| NetworkValidationCases.CreateCase37 | apis/ethereum/v1alpha1/network_validation_webhook_test.go:1057-1083 | Geth with graphql and without rpc is reported at spec.nodes[0].rpc with value false |
| NetworkValidationCases.UpdateCase1 | apis/ethereum/v1alpha1/network_validation_webhook_test.go:1092-1132 | changing join to ropsten is reported as immutable at spec.join with value "ropsten" |
| NetworkValidationCases.UpdateCase2 | apis/ethereum/v1alpha1/network_validation_webhook_test.go:1133-1179 | changing the consensus is reported as immutable at spec.consensus with the new value |
| NetworkValidationCases.UpdateCase3 | apis/ethereum/v1alpha1/network_validation_webhook_test.go:1180-1226 | changing the genesis is reported as immutable at spec.genesis with value "" |
| NetworkValidationCases.UpdateCase4 | apis/ethereum/v1alpha1/network_validation_webhook_test.go:1227-1273 | renaming the first node is reported as immutable at spec.nodes[0].name with the new name; the unchanged genesis, whose fork schedule only the new spec has filled in, is not reported |
| NetworkValidationCases.UpdateCase5 | apis/ethereum/v1alpha1/network_validation_webhook_test.go:1274-1320 | changing the id is reported as immutable at spec.id with value "8888" |
| ClientArgs.SpreadKeeps | clients/ethereum2/teku_beacon_node_test.go:203-213 | spreading an argument list keeps every flag, and puts every option's value right after its flag |
| ClientArgs.JoinedKeeps | controllers/ethereum2/nimbus_validator_client_test.go:38-49 | joining an argument list keeps every argument as one `argWithVal(flag, value)` element |
| TekuBeaconNode.Image | clients/ethereum2/teku_beacon_node_test.go:24-38 | the spec image wins, then the image override, then the default image |
| TekuBeaconNode.ImageCase | clients/ethereum2/teku_beacon_node_test.go:24-38 | default image when none is set; "kotalco/teku:spec" once the spec sets it; "kotalco/teku:test" once spec and override both say so |
| TekuBeaconNode.FixedOutputs | clients/ethereum2/teku_beacon_node_test.go:40-50 | no command, no environment, and the Teku home directory, whatever the spec |
| TekuBeaconNode.DefaultLaws | clients/ethereum2/teku_beacon_node_test.go:207 | defaulting is idempotent; it only fills logging, the p2p port and, with REST on, the REST port and host; set values are kept |
| TekuBeaconNode.BaseArgs | clients/ethereum2/teku_beacon_node_test.go:66-69 | the arguments always carry the data path flag followed by the data path, and the network flag followed by the network |
| TekuBeaconNode.LoggingArg | clients/ethereum2/teku_beacon_node_test.go:57-73 | a logging level adds the logging flag followed by the upper-cased level name |
| TekuBeaconNode.LoggingValueInjective | clients/ethereum2/teku_beacon_node_test.go:71 | different levels give different upper-cased values |
| TekuBeaconNode.EndpointAndPortArgs | clients/ethereum2/teku_beacon_node_test.go:74-90 | a set execution endpoint adds its flag followed by the endpoint; a set p2p port adds its flag followed by the decimal port, which parses back to the port |
| TekuBeaconNode.RestEnabledArgs | clients/ethereum2/teku_beacon_node_test.go:91-168 | REST on adds the enabled flag, CORS origins "*" and host allowlist "*", plus the port and host flags with their values when set |
| TekuBeaconNode.RestDisabledArgs | clients/ethereum2/teku_beacon_node_test.go:57-90 | REST off adds none of the five REST flags |
| TekuBeaconNode.ArgsCaseLogging | clients/ethereum2/teku_beacon_node_test.go:57-73 | mainnet with error logging: the expected elements are all present, the level as "ERROR" |
| TekuBeaconNode.ArgsCaseEndpoint | clients/ethereum2/teku_beacon_node_test.go:74-90 | mainnet with an engine endpoint: the expected elements are all present |
| TekuBeaconNode.ArgsCaseRest | clients/ethereum2/teku_beacon_node_test.go:91-113 | REST enabled: the expected elements are all present |
| TekuBeaconNode.ArgsCaseRestPort | clients/ethereum2/teku_beacon_node_test.go:114-139 | REST on port 3333: the expected elements, "3333" among them, are all present |
| TekuBeaconNode.FullRestArgs | clients/ethereum2/teku_beacon_node_test.go:140-168 | for any spec with endpoint, REST, port and host set, every base, endpoint and REST element is present |
| TekuBeaconNode.ArgsCaseRestPortHost | clients/ethereum2/teku_beacon_node_test.go:140-168 | REST on port 3333 and host 0.0.0.0: the expected elements are all present |
| TekuBeaconNode.ArgsCaseP2P | clients/ethereum2/teku_beacon_node_test.go:169-200 | as above, with p2p port 7891: "7891" is present too |
| Ethereum2.NewValidatorClient | controllers/ethereum2/nimbus_validator_client_test.go:43-44 | a dispatched client bears the requested name; any other name fails as an unsupported client |
| Ethereum2.DispatchTotal | controllers/ethereum2/nimbus_validator_client_test.go:43-44 | every client, Nimbus included, is dispatched by its own name; dispatch fails iff no client has the name |
| NimbusValidatorClient.EndpointSplit | controllers/ethereum2/nimbus_validator_client_test.go:24-32 | an endpoint without a port is the RPC address itself with port "80"; with a port, the address drops the port and the port is passed alone |
| NimbusValidatorClient.ArgsContents | controllers/ethereum2/nimbus_validator_client_test.go:28-34 | the arguments contain non-interactive, data dir, RPC address, RPC port, and the graffiti when set, each as one element; the count covers the model's argument list only |
| NimbusValidatorClient.ArgsCaseMainnet | controllers/ethereum2/nimbus_validator_client_test.go:18-49 | Nimbus dispatches; the mainnet validator's arguments contain the expected five elements, RPC port "80" among them |
| ClusterPeerController.UpdateLabels | controllers/ipfs/cluster_peer_controller.go:150-159 | the label map, allocated when nil, gains the four identifying labels and keeps the rest; name and spec are unchanged |
| ClusterPeerController.LabelsLaws | controllers/ipfs/cluster_peer_controller.go:150-159 | updated labels have exactly the old keys plus name, protocol, client and instance, with their values; other keys keep theirs; updating again changes nothing |
| ClusterPeerController.SpecClusterPeerService | controllers/ipfs/cluster_peer_controller.go:96-147 | the service gets the peer's labels, the fixed port list, and the peer's labels as selector |
| ClusterPeerController.ServicePortsShape | controllers/ipfs/cluster_peer_controller.go:100-145 | seven ports, each targeting its own port, with distinct names and distinct port and protocol pairs; only swarm-udp 9096 is UDP |
| ClusterPeerController.SpecClusterPeerConfig | controllers/ipfs/cluster_peer_controller.go:183-191 | the config data, allocated when nil, gets the init script under init_ipfs_cluster_config.sh and keeps its other keys |
| ClusterPeerController.ReconciledClaim | controllers/ipfs/cluster_peer_controller.go:215-236 | the storage request is set; a created claim changes nothing else; a new one is ReadWriteOnce with no volume or storage class |
| ClusterPeerController.ReconciledClaimIdempotent | controllers/ipfs/cluster_peer_controller.go:215-236 | reconciling the claim twice is the same as once |
| ClusterPeerController.SpecClusterPeerPVC | controllers/ipfs/cluster_peer_controller.go:215-236 | the claim spec becomes the reconciled claim; labels are set only on a claim not yet created |
| ClusterPeerController.InitClusterPeerEnv | controllers/ipfs/cluster_peer_controller.go:276-326 | the init environment has seven entries with an id and five without |
| ClusterPeerController.InitEnvContents | controllers/ipfs/cluster_peer_controller.go:276-326 | the entries in order: data path, consensus, peer endpoint, cluster secret (key "secret"), trusted peers joined by ","; with an id, also the id and the private-key secret (key "key") |
| ClusterPeerController.TrustedPeersRecoverable | controllers/ipfs/cluster_peer_controller.go:300-303 | splitting the trusted-peers entry on "," gives back the peer list, when it is non-empty and no peer contains "," |
| ClusterPeerController.SpecClusterPeerStatefulset | controllers/ipfs/cluster_peer_controller.go:270-415 | the statefulset gets the peer's labels and the spec built from the init environment |
| ClusterPeerController.StatefulSetShape | controllers/ipfs/cluster_peer_controller.go:328-390 | selector and template labels are the peer's labels; one init container runs /bin/sh on the config path plus "/init_ipfs_cluster_config.sh" with the init environment; the main container uses the same image, the given command and args, and the environment [data path, peer name] |
| ClusterPeerController.StatefulSetVolumes | controllers/ipfs/cluster_peer_controller.go:337-411 | every mount names a declared volume; the data claim and the config map are both named after the peer; both containers mount data at the data path |

## Left out

- The implementation file of the Ethereum network validator is not part of this model. The rules are reconstructed from the webhook test file: each case's field, bad value and message. The order of errors within the list is a modelling choice; the tests only check containment.
- NetworkValidation.ValidateUpdate: it returns the immutability errors followed by the create errors of the new spec. The tests pin only that the immutability errors are among the causes.
- Cases #25 and #26 of the webhook test file are commented out. Their resource-limit rules compare quantities and are not modelled.
- The DAO fork and the other genesis sub-block contents (accounts, clique and ibft2 parameters) are left out. Only the presence of each engine block, the chain id, the ethash fixed difficulty and the fork schedule take part in validation.
- EthereumNetwork.Default: the network's defaulting is not shown, and the tests assert nothing about it. The model fills only the nodes' logging level, with the same level (info) for every client rather than a client-specific one, and a missing fork schedule, with the all-zero schedule. DefaultKeepsVerdict and ResubmitJudgedAsCreate hold for that choice.
- Error wrapping (`errors.StatusError`, `shared.ErrorsToCauses`) is left out: errors are a plain list of triples.
- TekuBeaconNode.Image: it gives the spec image precedence over the environment override. The test sets both to the same value, so it does not decide the order. The process environment is a parameter.
- TekuBeaconNode.Args: the tests fix membership only, so only membership and flag-value adjacency are proved. Element order is not.
- Teku arguments other than the ones the tests name are left out, as are the default values of Teku and Nimbus. The defaults that are used are parameters.
- NimbusValidatorClient.Args: only the five arguments the test names are modelled, so the length stated in ArgsContents is that of the model's list, not of the client's.
- NimbusValidatorClient.RPCPort: an endpoint is read as `scheme:host[:port]` with no path, so "http://10.0.0.11:5052/eth" gives port "5052/eth" and a scheme-less "10.0.0.11:5052" gives port "80". The port of an endpoint without one is "80" for every scheme. An https default port and IPv6 addresses are not modelled.
- Reconcile, `reconcileClusterPeerService/Config/PVC/Statefulset`, `ctrl.CreateOrUpdate`, `SetControllerReference` and `SetupWithManager` are Kubernetes client I/O and manager plumbing. They are left out.
- `controllers/network_controller.go` is a reconcile loop of client calls around a fixed Deployment literal, so it is left out.
- `apis/aptos/v1alpha1/node.go` and `apis/chainlink/v1alpha1/node.go` declare types only. `apis/ipfs/v1alpha1/peer_validation_webhook.go` only delegates to resource validation, whose code is not shown. All three are left out.
- `resource.MustParse` is a foreign quantity parser. Storage, CPU and memory quantities are opaque strings, and parse failures are not modelled.
- ClusterPeerController.SpecClusterPeerService: Go shares one label map by reference between the peer, the service selector and the other objects. Dafny maps are values, so later writes through an alias are not modelled.
- The cluster-peer client's image, command, args and home directory are parameters of `SpecClusterPeerStatefulset`. The client code that computes them is not part of this model.
