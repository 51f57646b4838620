/** The Ethereum 2 client implementations and the dispatcher that picks the
    argument compiler of a validator client by the client named in its spec. */
module Ethereum2 {
  import opened Wrappers

  datatype Ethereum2Client = TekuClient | PrysmClient | LighthouseClient | NimbusClient

  /** The client as it is named in a spec. */
  function ClientName(c: Ethereum2Client): string {
    match c
    case TekuClient => "teku"
    case PrysmClient => "prysm"
    case LighthouseClient => "lighthouse"
    case NimbusClient => "nimbus"
  }

  datatype DispatchError = UnsupportedClient(name: string)

  /** The validator client compiler for the named client; any other name is an
      unsupported client. */
  function NewValidatorClient(name: string): (r: Result<Ethereum2Client, DispatchError>)
    ensures r.Success? ==> ClientName(r.value) == name
    ensures r.Failure? ==> r.error == UnsupportedClient(name)
  {
    if name == "teku" then Success(TekuClient)
    else if name == "prysm" then Success(PrysmClient)
    else if name == "lighthouse" then Success(LighthouseClient)
    else if name == "nimbus" then Success(NimbusClient)
    else Failure(UnsupportedClient(name))
  }

  /** Every client is dispatched to by its own name, and only names of clients are. */
  lemma DispatchTotal(c: Ethereum2Client, name: string)
    ensures NewValidatorClient(ClientName(c)) == Success(c)
    ensures NewValidatorClient(name).Failure? <==> forall d :: ClientName(d) != name
  {
    if NewValidatorClient(name).Success? {
      assert ClientName(NewValidatorClient(name).value) == name;
    }
  }
}
