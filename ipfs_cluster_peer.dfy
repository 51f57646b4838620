/** The IPFS cluster peer controller: how a `ClusterPeer` resource is turned
    into the Kubernetes objects that run it (a Service, a ConfigMap with the
    init script, a PersistentVolumeClaim and a StatefulSet). Each `spec...`
    operation updates an object in place, as the controller does inside
    `CreateOrUpdate`; fetching and writing the objects is not part of this model.
    Environment variable names and the data and config directory layout belong to
    other packages and are parameters. */
module ClusterPeerController {
  import opened Wrappers
  import opened Text
  import opened Shared

  /** Object labels, name to value. */
  type Labels = map<string, string>

  datatype PeerSpec = PeerSpec(
    id: string,
    privatekeySecretName: string,
    clusterSecretName: string,
    consensus: string,
    peerEndpoint: string,
    trustedPeers: seq<string>,
    storage: string,
    cpu: string,
    memory: string,
    cpuLimit: string,
    memoryLimit: string)

  class ClusterPeer {
    var name: string
    /** `None` is Go's nil map: it reads as empty but cannot be written. */
    var labels: Option<Labels>
    var spec: PeerSpec

    constructor (name: string, labels: Option<Labels>, spec: PeerSpec)
      ensures this.name == name && this.labels == labels && this.spec == spec
    {
      this.name := name;
      this.labels := labels;
      this.spec := spec;
    }
  }

  // ---------------------------------------------------------------------------
  // Labels

  /** The labels that identify a cluster peer named `name`. */
  function PeerLabels(name: string): Labels {
    map["name" := "cluster-peer", "protocol" := "ipfs", "client" := "ipfs-cluster-service", "instance" := name]
  }

  /** Allocates the label map if there is none, then sets the identifying labels. */
  method UpdateLabels(peer: ClusterPeer)
    modifies peer
    ensures peer.labels == Some(old(peer.labels).GetOr(map[]) + PeerLabels(peer.name))
    ensures peer.name == old(peer.name) && peer.spec == old(peer.spec)
  {
    if peer.labels.None? {
      peer.labels := Some(map[]);
    }
    var m := peer.labels.value;
    m := m["name" := "cluster-peer"];
    m := m["protocol" := "ipfs"];
    m := m["client" := "ipfs-cluster-service"];
    m := m["instance" := peer.name];
    peer.labels := Some(m);
    assert m == old(peer.labels).GetOr(map[]) + PeerLabels(peer.name);
  }

  /** Labelling sets the four identifying labels, keeps every other label, and a second
      labelling changes nothing. */
  lemma LabelsLaws(m: Labels, name: string)
    ensures var r := m + PeerLabels(name);
      && r.Keys == m.Keys + {"name", "protocol", "client", "instance"}
      && r["name"] == "cluster-peer" && r["protocol"] == "ipfs"
      && r["client"] == "ipfs-cluster-service" && r["instance"] == name
      && (forall k :: k in m && k !in {"name", "protocol", "client", "instance"} ==> r[k] == m[k])
      && r + PeerLabels(name) == r
  {
    var r := m + PeerLabels(name);
    assert PeerLabels(name).Keys == {"name", "protocol", "client", "instance"};
    assert r + PeerLabels(name) == r;
  }

  // ---------------------------------------------------------------------------
  // Service

  datatype Protocol = TCP | UDP

  datatype ServicePort = ServicePort(name: string, port: nat, targetPort: nat, protocol: Protocol)

  class Service {
    /** As on the peer, `None` is a nil map. */
    var labels: Option<Labels>
    var ports: seq<ServicePort>
    var selector: Option<Labels>
  }

  function Port(name: string, port: nat, protocol: Protocol): ServicePort {
    ServicePort(name, port, port, protocol)
  }

  /** The ports a cluster peer serves: the swarm over TCP and UDP, the IPFS API and
      proxy, the REST API, metrics and tracing. */
  function ClusterPeerServicePorts(): seq<ServicePort> {
    [ Port("swarm", 9096, TCP),
      Port("swarm-udp", 9096, UDP),
      Port("ipfs-api", 5001, TCP),
      Port("ipfs-proxy", 9095, TCP),
      Port("rest-api", 9094, TCP),
      Port("metrics", 8888, TCP),
      Port("tracing", 6831, TCP) ]
  }

  /** Seven ports, each forwarded to the same port of the pod; no two share a name or a
      port and protocol, and only the swarm port is also served over UDP. */
  lemma ServicePortsShape()
    ensures var ps := ClusterPeerServicePorts();
      && |ps| == 7
      && (forall k :: 0 <= k < |ps| ==> ps[k].targetPort == ps[k].port)
      && (forall i, j :: 0 <= i < j < |ps| ==> ps[i].name != ps[j].name)
      && (forall i, j :: 0 <= i < j < |ps| ==> (ps[i].port, ps[i].protocol) != (ps[j].port, ps[j].protocol))
      && (forall k :: 0 <= k < |ps| && ps[k].protocol == UDP ==> ps[k].port == 9096 && ps[k].name == "swarm-udp")
  {
  }

  /** The service carries the peer's labels, serves the cluster peer ports and selects
      the pods that carry the peer's labels. */
  method SpecClusterPeerService(peer: ClusterPeer, svc: Service)
    modifies svc
    ensures svc.labels == peer.labels
    ensures svc.ports == ClusterPeerServicePorts()
    ensures svc.selector == peer.labels
  {
    var labels := peer.labels;
    svc.labels := labels;
    svc.ports := ClusterPeerServicePorts();
    svc.selector := labels;
  }

  // ---------------------------------------------------------------------------
  // ConfigMap

  /** The key under which the init script is stored, and the file name it is mounted as. */
  const InitScriptKey: string := "init_ipfs_cluster_config.sh"

  class ConfigMap {
    var labels: Option<Labels>
    var data: Option<map<string, string>>
  }

  /** The config map carries the peer's labels and the init script; other entries stay. */
  method SpecClusterPeerConfig(peer: ClusterPeer, config: ConfigMap, initScript: string)
    modifies config
    ensures config.labels == peer.labels
    ensures config.data == Some(old(config.data).GetOr(map[])[InitScriptKey := initScript])
  {
    config.labels := peer.labels;
    if config.data.None? {
      config.data := Some(map[]);
    }
    config.data := Some(config.data.value[InitScriptKey := initScript]);
  }

  // ---------------------------------------------------------------------------
  // PersistentVolumeClaim

  datatype ResourceName = Storage | CPU | Memory

  datatype AccessMode = ReadWriteOnce | ReadOnlyMany | ReadWriteMany

  /** Quantities are kept as the strings the spec gives. */
  datatype ClaimSpec = ClaimSpec(
    accessModes: seq<AccessMode>,
    requests: map<ResourceName, string>,
    volumeName: string,
    storageClassName: Option<string>)

  class PersistentVolumeClaim {
    /** Whether the claim has a creation timestamp, that is, exists in the cluster. */
    var created: bool
    var labels: Option<Labels>
    var spec: ClaimSpec
  }

  /** The claim spec after reconciliation: a claim that exists only has its storage
      request updated, since the rest of its spec is immutable; a new claim asks for a
      single-writer volume of the requested size and nothing else. */
  function ReconciledClaim(created: bool, spec: ClaimSpec, storage: string): (r: ClaimSpec)
    ensures r.requests == map[Storage := storage]
    ensures created ==> r.(requests := spec.requests) == spec
    ensures !created ==> r.accessModes == [ReadWriteOnce] && r.volumeName == "" && r.storageClassName.None?
  {
    var request := map[Storage := storage];
    if created then spec.(requests := request)
    else ClaimSpec([ReadWriteOnce], request, "", None)
  }

  /** Reconciling a claim a second time with the same storage changes nothing. */
  lemma ReconciledClaimIdempotent(created: bool, spec: ClaimSpec, storage: string)
    ensures ReconciledClaim(created, ReconciledClaim(created, spec, storage), storage) == ReconciledClaim(created, spec, storage)
  {
  }

  method SpecClusterPeerPVC(peer: ClusterPeer, pvc: PersistentVolumeClaim)
    modifies pvc
    ensures pvc.spec == ReconciledClaim(old(pvc.created), old(pvc.spec), peer.spec.storage)
    ensures pvc.labels == if old(pvc.created) then old(pvc.labels) else peer.labels
    ensures pvc.created == old(pvc.created)
  {
    var request := map[Storage := peer.spec.storage];
    if pvc.created {
      pvc.spec := pvc.spec.(requests := request);
      return;
    }
    pvc.labels := peer.labels;
    pvc.spec := ClaimSpec([ReadWriteOnce], request, "", None);
  }

  // ---------------------------------------------------------------------------
  // StatefulSet

  /** An environment variable holds a literal value or refers to a key of a secret. */
  datatype EnvSource = Value(value: string) | SecretKeyRef(secretName: string, key: string)

  datatype EnvVar = EnvVar(name: string, source: EnvSource)

  datatype VolumeMount = VolumeMount(name: string, mountPath: string)

  datatype Container = Container(
    name: string,
    image: string,
    command: seq<string>,
    args: seq<string>,
    env: seq<EnvVar>,
    volumeMounts: seq<VolumeMount>,
    requests: map<ResourceName, string>,
    limits: map<ResourceName, string>)

  datatype VolumeSource = ClaimVolume(claimName: string) | ConfigMapVolume(configMapName: string)

  datatype Volume = Volume(name: string, source: VolumeSource)

  datatype StatefulSetSpec = StatefulSetSpec(
    selector: Option<Labels>,
    templateLabels: Option<Labels>,
    initContainers: seq<Container>,
    containers: seq<Container>,
    volumes: seq<Volume>)

  class StatefulSet {
    var labels: Option<Labels>
    var spec: StatefulSetSpec
  }

  /** The names of the environment variables `ipfs-cluster-service` reads. */
  datatype EnvNames = EnvNames(
    path: string,
    consensus: string,
    peerEndpoint: string,
    secret: string,
    trustedPeers: string,
    id: string,
    privatekey: string,
    peerName: string)

  /** The environment of `ipfs-cluster-service init`: the data path, the consensus, the
      peer endpoint, the cluster secret, the trusted peers separated by commas and, for a
      peer that brings its own identity, its id and private key. */
  function InitClusterPeerEnv(spec: PeerSpec, homeDir: string, names: EnvNames, paths: Paths): (env: seq<EnvVar>)
    ensures |env| == if spec.id != "" then 7 else 5
  {
    [ EnvVar(names.path, Value(paths.data(homeDir))),
      EnvVar(names.consensus, Value(spec.consensus)),
      EnvVar(names.peerEndpoint, Value(spec.peerEndpoint)),
      EnvVar(names.secret, SecretKeyRef(spec.clusterSecretName, "secret")),
      EnvVar(names.trustedPeers, Value(Join(spec.trustedPeers, ','))) ]
    + if spec.id != "" then
        [ EnvVar(names.id, Value(spec.id)),
          EnvVar(names.privatekey, SecretKeyRef(spec.privatekeySecretName, "key")) ]
      else []
  }

  /** The path of the init script inside the init container. */
  function InitScriptPath(homeDir: string, paths: Paths): string {
    paths.config(homeDir) + ("/" + InitScriptKey)
  }

  function StatefulSetSpecOf(name: string, labels: Option<Labels>, spec: PeerSpec, img: string, homeDir: string,
                             command: seq<string>, args: seq<string>, initEnv: seq<EnvVar>,
                             names: EnvNames, paths: Paths): StatefulSetSpec
  {
    StatefulSetSpec(
      labels,
      labels,
      [ Container("init-cluster-peer", img, ["/bin/sh"], [InitScriptPath(homeDir, paths)], initEnv,
          [VolumeMount("data", paths.data(homeDir)), VolumeMount("config", paths.config(homeDir))],
          map[], map[]) ],
      [ Container("cluster-peer", img, command, args,
          [EnvVar(names.path, Value(paths.data(homeDir))), EnvVar(names.peerName, Value(name))],
          [VolumeMount("data", paths.data(homeDir))],
          map[CPU := spec.cpu, Memory := spec.memory],
          map[CPU := spec.cpuLimit, Memory := spec.memoryLimit]) ],
      [ Volume("data", ClaimVolume(name)), Volume("config", ConfigMapVolume(name)) ])
  }

  /** Builds the init environment, appending the identity variables when the peer has
      an id, and lays out the pods: an init container that writes the cluster
      configuration, then the cluster peer itself. */
  method SpecClusterPeerStatefulset(peer: ClusterPeer, sts: StatefulSet, img: string, homeDir: string,
                                    command: seq<string>, args: seq<string>, names: EnvNames, paths: Paths)
    modifies sts
    ensures sts.labels == peer.labels
    ensures sts.spec == StatefulSetSpecOf(peer.name, peer.labels, peer.spec, img, homeDir, command, args,
                                          InitClusterPeerEnv(peer.spec, homeDir, names, paths), names, paths)
  {
    var labels := peer.labels;
    sts.labels := labels;
    var initEnv := [
      EnvVar(names.path, Value(paths.data(homeDir))),
      EnvVar(names.consensus, Value(peer.spec.consensus)),
      EnvVar(names.peerEndpoint, Value(peer.spec.peerEndpoint)),
      EnvVar(names.secret, SecretKeyRef(peer.spec.clusterSecretName, "secret")),
      EnvVar(names.trustedPeers, Value(Join(peer.spec.trustedPeers, ',')))
    ];
    if peer.spec.id != "" {
      initEnv := initEnv + [EnvVar(names.id, Value(peer.spec.id))];
      initEnv := initEnv + [EnvVar(names.privatekey, SecretKeyRef(peer.spec.privatekeySecretName, "key"))];
    }
    assert initEnv == InitClusterPeerEnv(peer.spec, homeDir, names, paths);
    sts.spec := StatefulSetSpecOf(peer.name, labels, peer.spec, img, homeDir, command, args, initEnv, names, paths);
  }

  // ---------------------------------------------------------------------------
  // What the pods get

  /** The init environment starts with the five variables every peer gets, in order; the
      cluster secret is passed by reference. A peer with an id gets exactly two more, its
      id and a reference to its private key; a peer without one gets none. */
  lemma InitEnvContents(spec: PeerSpec, homeDir: string, names: EnvNames, paths: Paths)
    ensures var env := InitClusterPeerEnv(spec, homeDir, names, paths);
      && env[0] == EnvVar(names.path, Value(paths.data(homeDir)))
      && env[1] == EnvVar(names.consensus, Value(spec.consensus))
      && env[2] == EnvVar(names.peerEndpoint, Value(spec.peerEndpoint))
      && env[3] == EnvVar(names.secret, SecretKeyRef(spec.clusterSecretName, "secret"))
      && env[4] == EnvVar(names.trustedPeers, Value(Join(spec.trustedPeers, ',')))
      && (spec.id != "" <==> |env| == 7)
      && (spec.id != "" ==>
            env[5] == EnvVar(names.id, Value(spec.id)) &&
            env[6] == EnvVar(names.privatekey, SecretKeyRef(spec.privatekeySecretName, "key")))
  {
  }

  /** The trusted peers can be read back from their variable, provided there is at least
      one and none contains a comma. */
  lemma TrustedPeersRecoverable(spec: PeerSpec, homeDir: string, names: EnvNames, paths: Paths)
    requires |spec.trustedPeers| >= 1
    requires forall i :: 0 <= i < |spec.trustedPeers| ==> Excludes(spec.trustedPeers[i], ',')
    ensures Split(InitClusterPeerEnv(spec, homeDir, names, paths)[4].source.value, ',') == spec.trustedPeers
  {
    SplitJoin(spec.trustedPeers, ',');
  }

  /** The statefulset selects exactly the pods it creates, which carry the peer's
      labels; both containers run the same image; the init container runs the init
      script under `/bin/sh`; the peer container gets only the data path and its own
      name in its environment. */
  lemma StatefulSetShape(name: string, labels: Option<Labels>, spec: PeerSpec, img: string, homeDir: string,
                         command: seq<string>, args: seq<string>, initEnv: seq<EnvVar>, names: EnvNames, paths: Paths)
    ensures var s := StatefulSetSpecOf(name, labels, spec, img, homeDir, command, args, initEnv, names, paths);
      && s.selector == s.templateLabels == labels
      && |s.initContainers| == 1 && |s.containers| == 1
      && s.initContainers[0].image == s.containers[0].image == img
      && s.initContainers[0].command == ["/bin/sh"]
      && s.initContainers[0].args == [paths.config(homeDir) + "/init_ipfs_cluster_config.sh"]
      && s.initContainers[0].env == initEnv
      && s.containers[0].command == command && s.containers[0].args == args
      && s.containers[0].env == [EnvVar(names.path, Value(paths.data(homeDir))), EnvVar(names.peerName, Value(name))]
  {
    assert "/" + InitScriptKey == "/init_ipfs_cluster_config.sh";
  }

  /** Every volume a container mounts is declared, the data volume is the peer's claim
      and the config volume the peer's config map; the init script is run from where the
      config map is mounted, under the key the config map stores it at. */
  lemma StatefulSetVolumes(name: string, labels: Option<Labels>, spec: PeerSpec, img: string, homeDir: string,
                           command: seq<string>, args: seq<string>, initEnv: seq<EnvVar>, names: EnvNames, paths: Paths)
    ensures var s := StatefulSetSpecOf(name, labels, spec, img, homeDir, command, args, initEnv, names, paths);
      && (forall c, m :: c in s.initContainers + s.containers && m in c.volumeMounts ==>
            exists v :: v in s.volumes && v.name == m.name)
      && Volume("data", ClaimVolume(name)) in s.volumes
      && Volume("config", ConfigMapVolume(name)) in s.volumes
      && VolumeMount("config", paths.config(homeDir)) in s.initContainers[0].volumeMounts
      && s.initContainers[0].args[0] == paths.config(homeDir) + ("/" + InitScriptKey)
      && (forall c :: c in s.initContainers + s.containers ==> VolumeMount("data", paths.data(homeDir)) in c.volumeMounts)
  {
    var s := StatefulSetSpecOf(name, labels, spec, img, homeDir, command, args, initEnv, names, paths);
    forall c, m | c in s.initContainers + s.containers && m in c.volumeMounts
      ensures exists v :: v in s.volumes && v.name == m.name
    {
      if m.name == "data" {
        assert s.volumes[0] in s.volumes;
      } else {
        assert s.volumes[1] in s.volumes;
      }
    }
  }
}
