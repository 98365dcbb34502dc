/** The order service: the request it builds for the store when listing and creating orders. */
module PedidoService {
  import opened Wrappers
  import opened Http

  /** The order status enumeration of the API documentation. */
  datatype Status = PENDENTE | PAGO

  function StatusName(s: Status): (name: string)
    ensures name == "PENDENTE" <==> s == PENDENTE
    ensures name == "PAGO" <==> s == PAGO
  {
    match s
    case PENDENTE => "PENDENTE"
    case PAGO => "PAGO"
  }

  function StatusFromName(name: string): (s: Option<Status>)
    ensures s.Some? ==> StatusName(s.value) == name
  {
    if name == "PENDENTE" then Some(PENDENTE)
    else if name == "PAGO" then Some(PAGO)
    else None
  }

  lemma StatusNameRoundTrip(s: Status)
    ensures StatusFromName(StatusName(s)) == Some(s)
  {
  }

  /** Which relations the store is asked to load with an order: its customer, and the product of each line. */
  datatype IncludeShape = IncludeShape(cliente: bool, lineProduto: bool)

  /** The joined shape both operations request: the customer, and every line with its product. */
  const OrderWithDetails := IncludeShape(true, true)

  /** One nested line entry, which links the new line to the existing product with this id. */
  datatype LineCreate = ConnectProduto(id: Json)

  /** The `data` argument of the create call. An absent `clienteId` stays absent. */
  datatype OrderData = OrderData(clienteId: Option<Json>, status: Status, lines: seq<LineCreate>)

  datatype CreateRequest = CreateRequest(data: OrderData, shape: IncludeShape)

  datatype FindManyRequest = FindManyRequest(shape: IncludeShape)

  /** The argument the controller passes: `{ clienteId, produtos }`, each possibly undefined. */
  datatype PedidoInput = PedidoInput(clienteId: Option<Json>, produtos: Option<Json>)

  /** Why `criar` rejects: `produtos` has no map operation (it is not an array), or the store failed. */
  datatype ServiceError<+E> = NotAnArray | StoreFailed(cause: E)

  /** The line entries of a new order: one per submitted id, in the same order, duplicates kept. */
  function Lines(ids: seq<Json>): (lines: seq<LineCreate>)
    ensures |lines| == |ids|
    ensures forall i :: 0 <= i < |ids| ==> lines[i] == ConnectProduto(ids[i])
  {
    if ids == [] then [] else [ConnectProduto(ids[0])] + Lines(ids[1..])
  }

  /** The product ids a list of line entries connects, in order. */
  function ConnectedIds(lines: seq<LineCreate>): (ids: seq<Json>)
    ensures |ids| == |lines|
    ensures forall i :: 0 <= i < |lines| ==> ids[i] == lines[i].id
  {
    if lines == [] then [] else [lines[0].id] + ConnectedIds(lines[1..])
  }

  /** The line entries connect exactly the given ids, in their order and with their repetitions. */
  lemma {:induction false} LinesRoundTrip(ids: seq<Json>)
    ensures ConnectedIds(Lines(ids)) == ids
  {
    if ids != [] {
      assert Lines(ids)[1..] == Lines(ids[1..]);
      LinesRoundTrip(ids[1..]);
    }
  }

  /** The request `criar` hands to the store: only an array has `.map`, anything else throws. */
  function BuildCreate(input: PedidoInput): (r: Option<CreateRequest>)
    ensures r.Some? <==> input.produtos.Some? && input.produtos.value.JArray?
    ensures r.Some? ==> r.value.data.status == PENDENTE
    ensures r.Some? ==> r.value.data.clienteId == input.clienteId
    ensures r.Some? ==> r.value.shape == OrderWithDetails
    ensures r.Some? ==> |r.value.data.lines| == |input.produtos.value.items|
    ensures r.Some? ==> forall i :: 0 <= i < |r.value.data.lines| ==>
                          r.value.data.lines[i] == ConnectProduto(input.produtos.value.items[i])
  {
    match input.produtos
    case Some(JArray(ids)) =>
      Some(CreateRequest(OrderData(input.clienteId, PENDENTE, Lines(ids)), OrderWithDetails))
    case _ => None
  }

  /** `pedidoService.criar`: build the request, then hand it to the store, whose answer is returned. */
  function Criar<T, E>(input: PedidoInput, store: CreateRequest -> Result<T, E>): (r: Result<T, ServiceError<E>>)
    ensures BuildCreate(input).None? ==> r == Err(NotAnArray)
    ensures BuildCreate(input).Some? ==>
              var answer := store(BuildCreate(input).value);
              (r.Ok? <==> answer.Ok?) &&
              (answer.Ok? ==> r.value == answer.value) &&
              (answer.Err? ==> r.error == StoreFailed(answer.error))
  {
    match BuildCreate(input)
    case None => Err(NotAnArray)
    case Some(request) =>
      match store(request)
      case Ok(order) => Ok(order)
      case Err(cause) => Err(StoreFailed(cause))
  }

  /** `pedidoService.listar`: the request for all orders in the joined shape. */
  function ListRequest(): (r: FindManyRequest)
    ensures r.shape.cliente && r.shape.lineProduto
  {
    FindManyRequest(OrderWithDetails)
  }

  function Listar<T, E>(store: FindManyRequest -> Result<T, E>): (r: Result<T, E>)
    ensures r == store(FindManyRequest(IncludeShape(true, true)))
  {
    store(ListRequest())
  }

  /**
   * A created order comes back in the same shape as a listed one. Both requests use the constant
   * OrderWithDetails, as the source writes the same relation literal in both places, so this lemma
   * records that fact rather than deriving it.
   */
  lemma CreateAndListShareShape(input: PedidoInput)
    requires BuildCreate(input).Some?
    ensures BuildCreate(input).value.shape == ListRequest().shape
  {
  }

  /** Duplicates and order survive: the store is asked for one line per submitted id. */
  lemma {:induction false} CreateConnectsEveryId(input: PedidoInput)
    requires BuildCreate(input).Some?
    ensures ConnectedIds(BuildCreate(input).value.data.lines) == input.produtos.value.items
  {
    LinesRoundTrip(input.produtos.value.items);
  }

  /**
   * The service itself does not reject an empty product list: it builds a request with no lines,
   * and only the store can refuse it.
   */
  lemma CreateAcceptsEmptyList(clienteId: Option<Json>)
    ensures BuildCreate(PedidoInput(clienteId, Some(JArray([]))))
         == Some(CreateRequest(OrderData(clienteId, PENDENTE, []), OrderWithDetails))
  {
    assert Lines([]) == [];
  }

  /** The request built for `{ clienteId: 1, produtos: [1, 2] }`: two lines, for products 1 and 2. */
  lemma CreateFromOneTwo()
    ensures BuildCreate(PedidoInput(Some(JNum(1)), Some(JArray([JNum(1), JNum(2)]))))
         == Some(CreateRequest(OrderData(Some(JNum(1)), PENDENTE, [ConnectProduto(JNum(1)), ConnectProduto(JNum(2))]),
                             OrderWithDetails))
  {
    var ids := [JNum(1), JNum(2)];
    assert Lines(ids) == [ConnectProduto(JNum(1)), ConnectProduto(JNum(2))];
  }
}
