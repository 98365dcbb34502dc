/** The order controller: what it passes to the order service and how it answers. */
module PedidoController {
  import opened Wrappers
  import opened Http
  import PedidoService

  const CreateFailText := "Erro ao criar pedido"

  /** The body is destructured into `clienteId` and `produtos`: only these two fields reach the service. */
  function PedidoArgs(body: Body): (input: PedidoService.PedidoInput)
    ensures input.clienteId == Field(body, "clienteId")
    ensures input.produtos == Field(body, "produtos")
  {
    PedidoService.PedidoInput(Field(body, "clienteId"), Field(body, "produtos"))
  }

  /** `pedidoController.criar`, given the service it calls. */
  function Criar<T, E>(body: Body, service: PedidoService.PedidoInput -> Result<T, E>): (r: Response<T>)
    ensures service(PedidoArgs(body)).Ok? ==> r == Response(201, Value(service(PedidoArgs(body)).value))
    ensures service(PedidoArgs(body)).Err? ==> r == Response(400, ErrorObject("Erro ao criar pedido"))
  {
    Created(service(PedidoArgs(body)), CreateFailText)
  }

  /** `pedidoController.listar`, given the service's outcome: passed on unchanged with status 200. */
  function Listar<T, E>(outcome: Result<T, E>): (r: Option<Response<T>>)
    ensures outcome.Ok? ==> r == Some(Response(200, Value(outcome.value)))
    ensures outcome.Err? ==> r == None
  {
    Listed(outcome)
  }

  /** Fields other than `clienteId` and `produtos` make no difference to the response. */
  lemma CriarIgnoresOtherFields<T, E>(b1: Body, b2: Body, service: PedidoService.PedidoInput -> Result<T, E>)
    requires "clienteId" in b1 <==> "clienteId" in b2
    requires "clienteId" in b1 ==> b1["clienteId"] == b2["clienteId"]
    requires "produtos" in b1 <==> "produtos" in b2
    requires "produtos" in b1 ==> b1["produtos"] == b2["produtos"]
    ensures PedidoArgs(b1) == PedidoArgs(b2)
    ensures Criar(b1, service) == Criar(b2, service)
  {
  }

  /** The service receives exactly the test's `{ clienteId: 1, produtos: [1, 2] }`, extra fields dropped. */
  lemma ServiceReceivesTestBody(extra: Json)
    ensures PedidoArgs(map["clienteId" := JNum(1), "produtos" := JArray([JNum(1), JNum(2)]), "observacao" := extra])
         == PedidoService.PedidoInput(Some(JNum(1)), Some(JArray([JNum(1), JNum(2)])))
  {
  }

  /** With the real service: a body whose `produtos` is not an array is answered 400, whatever the store does. */
  lemma CriarRejectsNonArray<T, E>(body: Body, store: PedidoService.CreateRequest -> Result<T, E>)
    requires !("produtos" in body && body["produtos"].JArray?)
    ensures Criar(body, input => PedidoService.Criar(input, store)) == Response(400, ErrorObject(CreateFailText))
  {
  }

  /** With the real service: a stored order is answered 201 with exactly what the store returned. */
  lemma CriarReturnsStoredOrder<T, E>(body: Body, store: PedidoService.CreateRequest -> Result<T, E>, order: T)
    requires "produtos" in body && body["produtos"].JArray?
    requires store(PedidoService.BuildCreate(PedidoArgs(body)).value) == Ok(order)
    ensures Criar(body, input => PedidoService.Criar(input, store)) == Response(201, Value(order))
  {
  }

  /** With the real service: an empty product list is answered 201 whenever the store accepts the order. */
  lemma CriarAcceptsEmptyList<T, E>(body: Body, store: PedidoService.CreateRequest -> Result<T, E>, order: T)
    requires "produtos" in body && body["produtos"] == JArray([])
    requires store(PedidoService.CreateRequest(
                     PedidoService.OrderData(Field(body, "clienteId"), PedidoService.PENDENTE, []),
                     PedidoService.OrderWithDetails)) == Ok(order)
    ensures Criar(body, input => PedidoService.Criar(input, store)) == Response(201, Value(order))
  {
    PedidoService.CreateAcceptsEmptyList(Field(body, "clienteId"));
  }
}
