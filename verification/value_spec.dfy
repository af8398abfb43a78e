/**
  `ValueSpec` and its two half-built companions. A dual-sided value is written in two
  steps, naming one side first and the other second, in either order:
  `client(x).server(y)` or `server(y).client(x)`. Each side has four spellings:
  `client`/`consumer`/`stub`/`c` and `server`/`producer`/`test`/`p`.
 */
module ValueSpec {

  import opened Values

  /** The result of naming the server side first. */
  datatype ServerValueSpec = ServerValueSpec(serverValue: Value)

  /** The result of naming the client side first. */
  datatype ClientValueSpec = ClientValueSpec(clientValue: Value)

  /** `value(any)`: one value shared by both sides. */
  function Invoke(any: Value): (r: DslProperty)
    ensures r.Single?
    ensures r.ClientValue() == any && r.ServerValue() == any
  {
    Single(any)
  }

  // First step, server side named first.

  function Server(serverValue: Value): (r: ServerValueSpec)
    ensures r.serverValue == serverValue
  {
    ServerValueSpec(serverValue)
  }

  function Producer(serverValue: Value): (r: ServerValueSpec)
    ensures r == Server(serverValue)
  {
    ServerValueSpec(serverValue)
  }

  function Test(serverValue: Value): (r: ServerValueSpec)
    ensures r == Server(serverValue)
  {
    ServerValueSpec(serverValue)
  }

  function P(serverValue: Value): (r: ServerValueSpec)
    ensures r == Server(serverValue)
  {
    ServerValueSpec(serverValue)
  }

  // First step, client side named first.

  function Client(clientValue: Value): (r: ClientValueSpec)
    ensures r.clientValue == clientValue
  {
    ClientValueSpec(clientValue)
  }

  function Consumer(clientValue: Value): (r: ClientValueSpec)
    ensures r == Client(clientValue)
  {
    ClientValueSpec(clientValue)
  }

  function Stub(clientValue: Value): (r: ClientValueSpec)
    ensures r == Client(clientValue)
  {
    ClientValueSpec(clientValue)
  }

  function C(clientValue: Value): (r: ClientValueSpec)
    ensures r == Client(clientValue)
  {
    ClientValueSpec(clientValue)
  }

  // Second step on a ServerValueSpec: name the client side.

  function ServerSpecClient(spec: ServerValueSpec, clientValue: Value): (r: DslProperty)
    ensures r.Dual?
    ensures r.ClientValue() == clientValue && r.ServerValue() == spec.serverValue
  {
    Dual(clientValue, spec.serverValue)
  }

  function ServerSpecConsumer(spec: ServerValueSpec, clientValue: Value): (r: DslProperty)
    ensures r == ServerSpecClient(spec, clientValue)
  {
    Dual(clientValue, spec.serverValue)
  }

  function ServerSpecStub(spec: ServerValueSpec, clientValue: Value): (r: DslProperty)
    ensures r == ServerSpecClient(spec, clientValue)
  {
    Dual(clientValue, spec.serverValue)
  }

  function ServerSpecC(spec: ServerValueSpec, clientValue: Value): (r: DslProperty)
    ensures r == ServerSpecClient(spec, clientValue)
  {
    Dual(clientValue, spec.serverValue)
  }

  // Second step on a ClientValueSpec: name the server side.

  function ClientSpecServer(spec: ClientValueSpec, serverValue: Value): (r: DslProperty)
    ensures r.Dual?
    ensures r.ClientValue() == spec.clientValue && r.ServerValue() == serverValue
  {
    Dual(spec.clientValue, serverValue)
  }

  function ClientSpecProducer(spec: ClientValueSpec, serverValue: Value): (r: DslProperty)
    ensures r == ClientSpecServer(spec, serverValue)
  {
    Dual(spec.clientValue, serverValue)
  }

  function ClientSpecTest(spec: ClientValueSpec, serverValue: Value): (r: DslProperty)
    ensures r == ClientSpecServer(spec, serverValue)
  {
    Dual(spec.clientValue, serverValue)
  }

  function ClientSpecP(spec: ClientValueSpec, serverValue: Value): (r: DslProperty)
    ensures r == ClientSpecServer(spec, serverValue)
  {
    Dual(spec.clientValue, serverValue)
  }

  /** `regex(s)`: a regex-backed value compiled from exactly `s`. */
  function Regex(regex: string): (r: Value)
    ensures r.RegexProperty? && r.regex.source == regex
  {
    RegexProperty(Pattern(regex))
  }

  /** Naming the sides in either order builds the same property. */
  lemma OrderIndependent(x: Value, y: Value)
    ensures ClientSpecServer(Client(x), y) == ServerSpecClient(Server(y), x)
    ensures ClientSpecServer(Client(x), y).ClientValue() == x
    ensures ClientSpecServer(Client(x), y).ServerValue() == y
  {
  }

  /** The value given in the first step lands in the side that step names, never the other. */
  lemma FirstStepLandsInItsSide(x: Value, y: Value)
    ensures ClientSpecServer(Client(x), y).ClientValue() == x
    ensures ServerSpecClient(Server(x), y).ServerValue() == x
    ensures x != y ==> ClientSpecServer(Client(x), y).ServerValue() != x
    ensures x != y ==> ServerSpecClient(Server(x), y).ClientValue() != x
  {
  }

  /** The four spellings of each first step are interchangeable. */
  lemma FirstStepSynonymsAgree(x: Value)
    ensures Client(x) == Consumer(x) == Stub(x) == C(x)
    ensures Server(x) == Producer(x) == Test(x) == P(x)
  {
  }

  /** The four spellings of each second step build the same property. */
  lemma SecondStepSynonymsAgree(client: ClientValueSpec, server: ServerValueSpec, x: Value)
    ensures ClientSpecServer(client, x) == ClientSpecProducer(client, x)
                                        == ClientSpecTest(client, x)
                                        == ClientSpecP(client, x)
    ensures ServerSpecClient(server, x) == ServerSpecConsumer(server, x)
                                        == ServerSpecStub(server, x)
                                        == ServerSpecC(server, x)
  {
  }
}
