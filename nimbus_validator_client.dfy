/** The Nimbus validator client compiler: from a validator spec to the Nimbus
    argument list, one element per argument, flag and value joined by
    `argWithVal`. Flag names, the blockchain data path and `argWithVal` itself
    belong to the controller package and are parameters here. */
module NimbusValidatorClient {
  import opened Wrappers
  import opened Text
  import opened ClientArgs
  import opened Ethereum2

  datatype ValidatorSpec = ValidatorSpec(client: Ethereum2Client, network: string, beaconEndpoint: string, graffiti: string)

  /** The constants of the Nimbus client. */
  datatype Nimbus = Nimbus(
    nonInteractiveFlag: string,
    dataDirFlag: string,
    rpcAddressFlag: string,
    rpcPortFlag: string,
    graffitiFlag: string,
    pathBlockchainData: string,
    argWithVal: (string, string) -> string)

  /** The port of a beacon endpoint that names none. */
  const DefaultBeaconPort: string := "80"

  /** The beacon node address: the endpoint's scheme and host, that is, everything
      before its second ':'. */
  function RPCAddress(endpoint: string): string {
    var parts := Split(endpoint, ':');
    Join(parts[..if |parts| < 2 then |parts| else 2], ':')
  }

  /** The beacon node port: what follows the second ':', else the default port. */
  function RPCPort(endpoint: string): string {
    var parts := Split(endpoint, ':');
    if |parts| > 2 then parts[2] else DefaultBeaconPort
  }

  /** The argument groups: non-interactive mode, data directory, beacon node address
      and port, and the graffiti when the spec has one. */
  function ArgGroups(v: ValidatorSpec, n: Nimbus): seq<Arg> {
    [ Switch(n.nonInteractiveFlag),
      Opt(n.dataDirFlag, n.pathBlockchainData),
      Opt(n.rpcAddressFlag, RPCAddress(v.beaconEndpoint)),
      Opt(n.rpcPortFlag, RPCPort(v.beaconEndpoint)) ]
    + (if v.graffiti != "" then [Opt(n.graffitiFlag, v.graffiti)] else [])
  }

  function Args(v: ValidatorSpec, n: Nimbus): seq<string> {
    Joined(ArgGroups(v, n), n.argWithVal)
  }

  /** An endpoint `scheme:rest` without a port is its own address and gets the default
      port; with a port, `scheme:rest:port`, the address drops the port and the port is
      passed on its own. */
  lemma EndpointSplit(scheme: string, rest: string, port: string)
    requires Excludes(scheme, ':') && Excludes(rest, ':') && Excludes(port, ':')
    ensures RPCAddress(scheme + ":" + rest) == scheme + ":" + rest
    ensures RPCPort(scheme + ":" + rest) == DefaultBeaconPort
    ensures RPCAddress(scheme + ":" + rest + ":" + port) == scheme + ":" + rest
    ensures RPCPort(scheme + ":" + rest + ":" + port) == port
  {
    var two, three := [scheme, rest], [scheme, rest, port];
    assert Join(two, ':') == scheme + ":" + rest by {
      assert Join(two[1..], ':') == rest;
    }
    assert Join(three, ':') == scheme + ":" + rest + ":" + port by {
      assert three[1..][1..] == [port];
      assert Join(three[1..], ':') == rest + ":" + port;
    }
    SplitJoin(two, ':');
    SplitJoin(three, ':');
    assert two[..2] == two;
    assert three[..2] == two;
  }

  /** The arguments hold non-interactive mode, the data directory, the beacon node
      address and port, and the graffiti exactly when the spec has one. */
  lemma ArgsContents(v: ValidatorSpec, n: Nimbus)
    ensures n.nonInteractiveFlag in Args(v, n)
    ensures n.argWithVal(n.dataDirFlag, n.pathBlockchainData) in Args(v, n)
    ensures n.argWithVal(n.rpcAddressFlag, RPCAddress(v.beaconEndpoint)) in Args(v, n)
    ensures n.argWithVal(n.rpcPortFlag, RPCPort(v.beaconEndpoint)) in Args(v, n)
    ensures v.graffiti != "" ==> n.argWithVal(n.graffitiFlag, v.graffiti) in Args(v, n)
    ensures |Args(v, n)| == if v.graffiti != "" then 5 else 4
  {
    var g := ArgGroups(v, n);
    JoinedKeeps(g, g[0], n.argWithVal);
    JoinedKeeps(g, g[1], n.argWithVal);
    JoinedKeeps(g, g[2], n.argWithVal);
    JoinedKeeps(g, g[3], n.argWithVal);
    if v.graffiti != "" {
      JoinedKeeps(g, g[4], n.argWithVal);
    }
  }

  // ---------------------------------------------------------------------------
  // The argument case: a mainnet validator with an http beacon endpoint and graffiti

  /** The Nimbus client is dispatched to, and its arguments carry the endpoint as the
      address, the default port, and the graffiti verbatim. */
  lemma ArgsCaseMainnet(n: Nimbus)
    ensures NewValidatorClient(ClientName(NimbusClient)) == Success(NimbusClient)
    ensures var v := ValidatorSpec(NimbusClient, "mainnet", "http://10.0.0.11", "Validated by Kotal");
      var expected := [n.nonInteractiveFlag,
                       n.argWithVal(n.dataDirFlag, n.pathBlockchainData),
                       n.argWithVal(n.rpcAddressFlag, "http://10.0.0.11"),
                       n.argWithVal(n.rpcPortFlag, "80"),
                       n.argWithVal(n.graffitiFlag, "Validated by Kotal")];
      forall x :: x in expected ==> x in Args(v, n)
  {
    DispatchTotal(NimbusClient, "");
    var v := ValidatorSpec(NimbusClient, "mainnet", "http://10.0.0.11", "Validated by Kotal");
    assert "http://10.0.0.11" == "http" + ":" + "//10.0.0.11";
    EndpointSplit("http", "//10.0.0.11", "");
    ArgsContents(v, n);
  }
}
