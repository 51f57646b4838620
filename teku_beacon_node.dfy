/** The Teku beacon node compiler: from a defaulted beacon node spec to the
    container image, command, arguments, environment and home directory of the
    Teku process. Flag names, the default image, the home directory and the
    data path are values of the Teku client package that are not part of this
    model; they are parameters here. */
module TekuBeaconNode {
  import opened Wrappers
  import opened Text
  import opened Logging
  import opened Shared
  import opened ClientArgs

  datatype BeaconNodeSpec = BeaconNodeSpec(
    network: string,
    image: Option<string>,
    logging: Option<LogLevel>,
    executionEngineEndpoint: string,
    rest: bool,
    restPort: nat,
    restHost: string,
    p2pPort: nat)

  /** The values defaulting fills in; the REST ones only when REST is enabled. */
  datatype BeaconDefaults = BeaconDefaults(logging: LogLevel, restPort: nat, restHost: string, p2pPort: nat)

  /** The constants of the Teku client. */
  datatype Teku = Teku(
    defaultImage: string,
    homeDir: string,
    dataPath: string,
    p2pPortFlag: string,
    networkFlag: string,
    loggingFlag: string,
    executionEngineEndpointFlag: string,
    restEnabledFlag: string,
    restPortFlag: string,
    restHostFlag: string,
    corsOriginsFlag: string,
    hostAllowlistFlag: string)

  /** No two flags share a name. */
  predicate DistinctFlags(t: Teku) {
    var flags := [t.dataPath, t.p2pPortFlag, t.networkFlag, t.loggingFlag, t.executionEngineEndpointFlag,
                  t.restEnabledFlag, t.restPortFlag, t.restHostFlag, t.corsOriginsFlag, t.hostAllowlistFlag];
    forall i, j :: 0 <= i < j < |flags| ==> flags[i] != flags[j]
  }

  // ---------------------------------------------------------------------------
  // Defaulting

  function Default(s: BeaconNodeSpec, d: BeaconDefaults): (r: BeaconNodeSpec)
    ensures r.logging.Some?
  {
    s.(logging := Some(s.logging.GetOr(d.logging)),
       p2pPort := if s.p2pPort == 0 then d.p2pPort else s.p2pPort,
       restPort := if s.rest && s.restPort == 0 then d.restPort else s.restPort,
       restHost := if s.rest && s.restHost == "" then d.restHost else s.restHost)
  }

  /** Defaulting only fills unset fields, fills the REST ones only when REST is
      enabled, and a second pass changes nothing. */
  lemma DefaultLaws(s: BeaconNodeSpec, d: BeaconDefaults)
    requires d.p2pPort != 0 && d.restPort != 0 && d.restHost != ""
    ensures Default(Default(s, d), d) == Default(s, d)
    ensures !s.rest ==> Default(s, d).restPort == s.restPort && Default(s, d).restHost == s.restHost
    ensures s.logging.Some? ==> Default(s, d).logging == s.logging
    ensures s.p2pPort != 0 ==> Default(s, d).p2pPort == s.p2pPort
    ensures s.rest ==> Default(s, d).restPort != 0 && Default(s, d).restHost != ""
    ensures Default(s, d).(logging := s.logging, p2pPort := s.p2pPort, restPort := s.restPort, restHost := s.restHost) == s
  {
  }

  // ---------------------------------------------------------------------------
  // The compiler

  /** The image: the spec's own image if it names one, else the process-wide
      override if there is one, else the client's default. */
  function Image(s: BeaconNodeSpec, override: Option<string>, t: Teku): (img: string)
    ensures s.image.Some? ==> img == s.image.value
    ensures s.image.None? && override.Some? ==> img == override.value
    ensures s.image.None? && override.None? ==> img == t.defaultImage
  {
    match s.image
    case Some(i) => i
    case None => override.GetOr(t.defaultImage)
  }

  /** What the Teku process is started with. */
  datatype Compiled = Compiled(image: string, command: seq<string>, args: seq<string>, env: map<string, string>, homeDir: string)

  /** The REST group: the switch, the port and host when set, and the wide-open
      CORS origins and host allowlist. */
  function RestArgs(s: BeaconNodeSpec, t: Teku): seq<Arg> {
    [Switch(t.restEnabledFlag)]
    + (if s.restPort != 0 then [Opt(t.restPortFlag, NatToString(s.restPort))] else [])
    + (if s.restHost != "" then [Opt(t.restHostFlag, s.restHost)] else [])
    + [Opt(t.corsOriginsFlag, "*"), Opt(t.hostAllowlistFlag, "*")]
  }

  /** The argument groups in order: data path, p2p port, network, logging level,
      execution engine endpoint, REST. */
  function ArgGroups(s: BeaconNodeSpec, t: Teku, paths: Paths): seq<Arg> {
    [Opt(t.dataPath, paths.data(t.homeDir))]
    + (if s.p2pPort != 0 then [Opt(t.p2pPortFlag, NatToString(s.p2pPort))] else [])
    + [Opt(t.networkFlag, s.network)]
    + (if s.logging.Some? then [Opt(t.loggingFlag, ToUpper(LogLevelName(s.logging.value)))] else [])
    + (if s.executionEngineEndpoint != "" then [Opt(t.executionEngineEndpointFlag, s.executionEngineEndpoint)] else [])
    + (if s.rest then RestArgs(s, t) else [])
  }

  function Args(s: BeaconNodeSpec, t: Teku, paths: Paths): seq<string> {
    Spread(ArgGroups(s, t, paths))
  }

  function Compile(s: BeaconNodeSpec, override: Option<string>, t: Teku, paths: Paths): Compiled {
    Compiled(Image(s, override, t), [], Args(s, t, paths), map[], t.homeDir)
  }

  // ---------------------------------------------------------------------------
  // What the arguments carry

  /** Teku keeps the image's own entry point and environment and always runs in its
      home directory, whatever the spec. */
  lemma FixedOutputs(s: BeaconNodeSpec, override: Option<string>, t: Teku, paths: Paths)
    ensures Compile(s, override, t, paths).command == []
    ensures Compile(s, override, t, paths).env == map[]
    ensures Compile(s, override, t, paths).homeDir == t.homeDir
    ensures Compile(s, override, t, paths).image == Image(s, override, t)
  {
  }

  /** Every spec gets the data path and the network, each flag followed by its value. */
  lemma BaseArgs(s: BeaconNodeSpec, t: Teku, paths: Paths)
    ensures Adjacent(Args(s, t, paths), t.dataPath, paths.data(t.homeDir))
    ensures Adjacent(Args(s, t, paths), t.networkFlag, s.network)
  {
    var g := ArgGroups(s, t, paths);
    assert g[0] == Opt(t.dataPath, paths.data(t.homeDir));
    SpreadKeeps(g, g[0]);
    SpreadKeeps(g, Opt(t.networkFlag, s.network));
  }

  /** A logging level is passed upper-cased after the logging flag. */
  lemma LoggingArg(s: BeaconNodeSpec, t: Teku, paths: Paths)
    requires s.logging.Some?
    ensures Adjacent(Args(s, t, paths), t.loggingFlag, ToUpper(LogLevelName(s.logging.value)))
  {
    SpreadKeeps(ArgGroups(s, t, paths), Opt(t.loggingFlag, ToUpper(LogLevelName(s.logging.value))));
  }

  /** The upper-cased level still tells the levels apart. */
  lemma LoggingValueInjective(a: LogLevel, b: LogLevel)
    ensures ToUpper(LogLevelName(a)) == ToUpper(LogLevelName(b)) ==> a == b
  {
    var x, y := LogLevelName(a), LogLevelName(b);
    LevelNameLowerCase(a);
    LevelNameLowerCase(b);
    ToLowerToUpper(x);
    ToLowerToUpper(y);
    LogLevelNameInjective(a, b);
  }

  lemma LevelNameLowerCase(l: LogLevel)
    ensures NoUpperCase(LogLevelName(l))
  {
  }

  /** A set execution engine endpoint and a set p2p port are passed after their flags;
      the port reads back as the number it was formatted from. */
  lemma EndpointAndPortArgs(s: BeaconNodeSpec, t: Teku, paths: Paths)
    ensures s.executionEngineEndpoint != "" ==>
      Adjacent(Args(s, t, paths), t.executionEngineEndpointFlag, s.executionEngineEndpoint)
    ensures s.p2pPort != 0 ==> Adjacent(Args(s, t, paths), t.p2pPortFlag, NatToString(s.p2pPort))
    ensures ParseNat(NatToString(s.p2pPort)) == s.p2pPort
  {
    var g := ArgGroups(s, t, paths);
    if s.executionEngineEndpoint != "" {
      SpreadKeeps(g, Opt(t.executionEngineEndpointFlag, s.executionEngineEndpoint));
    }
    if s.p2pPort != 0 {
      SpreadKeeps(g, Opt(t.p2pPortFlag, NatToString(s.p2pPort)));
    }
    ParseNatToString(s.p2pPort);
  }

  /** With REST enabled, the switch is passed, the CORS origins and the host
      allowlist are opened to "*", and a set port and host follow their flags. */
  lemma RestEnabledArgs(s: BeaconNodeSpec, t: Teku, paths: Paths)
    requires s.rest
    ensures t.restEnabledFlag in Args(s, t, paths)
    ensures Adjacent(Args(s, t, paths), t.corsOriginsFlag, "*")
    ensures Adjacent(Args(s, t, paths), t.hostAllowlistFlag, "*")
    ensures s.restPort != 0 ==> Adjacent(Args(s, t, paths), t.restPortFlag, NatToString(s.restPort))
    ensures s.restHost != "" ==> Adjacent(Args(s, t, paths), t.restHostFlag, s.restHost)
  {
    var g := ArgGroups(s, t, paths);
    assert forall a :: a in RestArgs(s, t) ==> a in g;
    SpreadKeeps(g, Switch(t.restEnabledFlag));
    SpreadKeeps(g, Opt(t.corsOriginsFlag, "*"));
    SpreadKeeps(g, Opt(t.hostAllowlistFlag, "*"));
    if s.restPort != 0 {
      SpreadKeeps(g, Opt(t.restPortFlag, NatToString(s.restPort)));
    }
    if s.restHost != "" {
      SpreadKeeps(g, Opt(t.restHostFlag, s.restHost));
    }
  }

  /** With REST disabled no REST flag is passed at all (the flags being distinct). */
  lemma RestDisabledArgs(s: BeaconNodeSpec, t: Teku, paths: Paths)
    requires !s.rest && DistinctFlags(t)
    ensures forall a :: a in ArgGroups(s, t, paths) ==>
      a.flag != t.restEnabledFlag && a.flag != t.restPortFlag && a.flag != t.restHostFlag
      && a.flag != t.corsOriginsFlag && a.flag != t.hostAllowlistFlag
  {
    var flags := [t.dataPath, t.p2pPortFlag, t.networkFlag, t.loggingFlag, t.executionEngineEndpointFlag,
                  t.restEnabledFlag, t.restPortFlag, t.restHostFlag, t.corsOriginsFlag, t.hostAllowlistFlag];
    assert forall i, j :: 0 <= i < 5 <= j < 10 ==> flags[i] != flags[j];
    forall a | a in ArgGroups(s, t, paths)
      ensures a.flag != t.restEnabledFlag && a.flag != t.restPortFlag && a.flag != t.restHostFlag
      ensures a.flag != t.corsOriginsFlag && a.flag != t.hostAllowlistFlag
    {
      var k := if a.flag == t.dataPath then 0
        else if a.flag == t.p2pPortFlag then 1
        else if a.flag == t.networkFlag then 2
        else if a.flag == t.loggingFlag then 3
        else 4;
      assert a.flag == flags[k];
      assert flags[k] != flags[5] && flags[k] != flags[6] && flags[k] != flags[7];
      assert flags[k] != flags[8] && flags[k] != flags[9];
    }
  }

  // ---------------------------------------------------------------------------
  // The argument cases: a Teku node syncing mainnet, defaulted, then compiled

  function Mainnet(): BeaconNodeSpec {
    BeaconNodeSpec("mainnet", None, None, "", false, 0, "", 0)
  }

  const EngineEndpoint: string := "https://localhost:8551"

  /** The port numbers of the cases, rendered; kept apart from the cases because the
      numerals make their proofs markedly more expensive. */
  lemma PortsRendered()
    ensures NatToString(3333) == "3333" && NatToString(7891) == "7891"
  {
  }

  /** A logging level is passed upper-cased. */
  lemma ArgsCaseLogging(t: Teku, d: BeaconDefaults, paths: Paths)
    ensures var expected := [t.dataPath, t.networkFlag, "mainnet", t.loggingFlag, "ERROR"];
      forall x :: x in expected ==> x in Args(Default(Mainnet().(logging := Some(ErrorLogs)), d), t, paths)
  {
    var s := Default(Mainnet().(logging := Some(ErrorLogs)), d);
    var args := Args(s, t, paths);
    assert ToUpper(LogLevelName(ErrorLogs)) == "ERROR";
    BaseArgs(s, t, paths);
    LoggingArg(s, t, paths);
    AdjacentIn(args, t.dataPath, paths.data(t.homeDir));
    AdjacentIn(args, t.networkFlag, "mainnet");
    AdjacentIn(args, t.loggingFlag, "ERROR");
  }

  /** The execution engine endpoint follows its flag. */
  lemma ArgsCaseEndpoint(t: Teku, d: BeaconDefaults, paths: Paths)
    ensures var expected := [t.dataPath, t.networkFlag, "mainnet", t.executionEngineEndpointFlag, EngineEndpoint];
      forall x :: x in expected ==> x in Args(Default(Mainnet().(executionEngineEndpoint := EngineEndpoint), d), t, paths)
  {
    var s := Default(Mainnet().(executionEngineEndpoint := EngineEndpoint), d);
    var args := Args(s, t, paths);
    BaseArgs(s, t, paths);
    EndpointAndPortArgs(s, t, paths);
    AdjacentIn(args, t.dataPath, paths.data(t.homeDir));
    AdjacentIn(args, t.networkFlag, "mainnet");
    AdjacentIn(args, t.executionEngineEndpointFlag, EngineEndpoint);
  }

  /** REST enabled, with no port or host of its own. */
  lemma ArgsCaseRest(t: Teku, d: BeaconDefaults, paths: Paths)
    ensures var expected := [t.dataPath, t.networkFlag, "mainnet", t.executionEngineEndpointFlag, EngineEndpoint,
                      t.restEnabledFlag, t.corsOriginsFlag, "*", t.hostAllowlistFlag, "*"];
      forall x :: x in expected ==> x in Args(Default(Mainnet().(executionEngineEndpoint := EngineEndpoint, rest := true), d), t, paths)
  {
    var s := Default(Mainnet().(executionEngineEndpoint := EngineEndpoint, rest := true), d);
    var args := Args(s, t, paths);
    BaseArgs(s, t, paths);
    EndpointAndPortArgs(s, t, paths);
    RestEnabledArgs(s, t, paths);
    AdjacentIn(args, t.dataPath, paths.data(t.homeDir));
    AdjacentIn(args, t.networkFlag, "mainnet");
    AdjacentIn(args, t.executionEngineEndpointFlag, EngineEndpoint);
    AdjacentIn(args, t.corsOriginsFlag, "*");
    AdjacentIn(args, t.hostAllowlistFlag, "*");
  }

  /** REST enabled on port 3333. */
  lemma ArgsCaseRestPort(t: Teku, d: BeaconDefaults, paths: Paths)
    ensures var expected := [t.dataPath, t.networkFlag, "mainnet", t.executionEngineEndpointFlag, EngineEndpoint,
                      t.restEnabledFlag, t.restPortFlag, "3333", t.corsOriginsFlag, "*", t.hostAllowlistFlag, "*"];
      forall x :: x in expected ==> x in Args(Default(Mainnet().(executionEngineEndpoint := EngineEndpoint, rest := true, restPort := 3333), d), t, paths)
  {
    var s := Default(Mainnet().(executionEngineEndpoint := EngineEndpoint, rest := true, restPort := 3333), d);
    var args := Args(s, t, paths);
    PortsRendered();
    BaseArgs(s, t, paths);
    EndpointAndPortArgs(s, t, paths);
    RestEnabledArgs(s, t, paths);
    AdjacentIn(args, t.dataPath, paths.data(t.homeDir));
    AdjacentIn(args, t.networkFlag, "mainnet");
    AdjacentIn(args, t.executionEngineEndpointFlag, EngineEndpoint);
    AdjacentIn(args, t.corsOriginsFlag, "*");
    AdjacentIn(args, t.hostAllowlistFlag, "*");
    AdjacentIn(args, t.restPortFlag, "3333");
  }

  /** A spec with an endpoint and with REST on its own port and host gets every REST
      flag, each value after its flag, on top of the base arguments. */
  lemma FullRestArgs(s: BeaconNodeSpec, t: Teku, paths: Paths)
    requires s.rest && s.restPort != 0 && s.restHost != "" && s.executionEngineEndpoint != ""
    ensures var expected := [t.dataPath, t.networkFlag, s.network, t.executionEngineEndpointFlag, s.executionEngineEndpoint,
                      t.restEnabledFlag, t.restPortFlag, NatToString(s.restPort), t.restHostFlag, s.restHost,
                      t.corsOriginsFlag, "*", t.hostAllowlistFlag, "*"];
      forall x :: x in expected ==> x in Args(s, t, paths)
  {
    var args := Args(s, t, paths);
    BaseArgs(s, t, paths);
    EndpointAndPortArgs(s, t, paths);
    RestEnabledArgs(s, t, paths);
    AdjacentIn(args, t.dataPath, paths.data(t.homeDir));
    AdjacentIn(args, t.networkFlag, s.network);
    AdjacentIn(args, t.executionEngineEndpointFlag, s.executionEngineEndpoint);
    AdjacentIn(args, t.restPortFlag, NatToString(s.restPort));
    AdjacentIn(args, t.restHostFlag, s.restHost);
    AdjacentIn(args, t.corsOriginsFlag, "*");
    AdjacentIn(args, t.hostAllowlistFlag, "*");
  }

  /** REST enabled on port 3333 and host 0.0.0.0. */
  lemma ArgsCaseRestPortHost(t: Teku, d: BeaconDefaults, paths: Paths)
    ensures var expected := [t.dataPath, t.networkFlag, "mainnet", t.executionEngineEndpointFlag, EngineEndpoint,
                      t.restEnabledFlag, t.restPortFlag, "3333", t.restHostFlag, "0.0.0.0",
                      t.corsOriginsFlag, "*", t.hostAllowlistFlag, "*"];
      forall x :: x in expected ==> x in Args(Default(Mainnet().(executionEngineEndpoint := EngineEndpoint, rest := true, restPort := 3333, restHost := "0.0.0.0"), d), t, paths)
  {
    var s := Default(Mainnet().(executionEngineEndpoint := EngineEndpoint, rest := true, restPort := 3333, restHost := "0.0.0.0"), d);
    PortsRendered();
    FullRestArgs(s, t, paths);
  }

  /** The p2p port 7891 on top of REST on port 3333 and host 0.0.0.0. */
  lemma ArgsCaseP2P(t: Teku, d: BeaconDefaults, paths: Paths)
    ensures var expected := [t.dataPath, t.p2pPortFlag, "7891", t.networkFlag, "mainnet", t.executionEngineEndpointFlag, EngineEndpoint,
                      t.restEnabledFlag, t.restPortFlag, "3333", t.restHostFlag, "0.0.0.0",
                      t.corsOriginsFlag, "*", t.hostAllowlistFlag, "*"];
      forall x :: x in expected ==> x in Args(Default(Mainnet().(p2pPort := 7891, executionEngineEndpoint := EngineEndpoint, rest := true, restPort := 3333, restHost := "0.0.0.0"), d), t, paths)
  {
    var s := Default(Mainnet().(p2pPort := 7891, executionEngineEndpoint := EngineEndpoint, rest := true, restPort := 3333, restHost := "0.0.0.0"), d);
    PortsRendered();
    FullRestArgs(s, t, paths);
    EndpointAndPortArgs(s, t, paths);
    AdjacentIn(Args(s, t, paths), t.p2pPortFlag, "7891");
  }

  /** The image: the default while the spec names none and there is no override,
      then the spec's own image. */
  lemma ImageCase(t: Teku)
    ensures Image(Mainnet(), None, t) == t.defaultImage
    ensures Image(Mainnet().(image := Some("kotalco/teku:spec")), None, t) == "kotalco/teku:spec"
    ensures Image(Mainnet().(image := Some("kotalco/teku:test")), Some("kotalco/teku:test"), t) == "kotalco/teku:test"
  {
  }
}
