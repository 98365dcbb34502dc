/** The customer controller: what it passes to the customer service and how it answers. */
module ClienteController {
  import opened Wrappers
  import opened Http

  const CreateFailText := "Erro ao criar cliente"

  /** The argument `{ nome, email }` handed to the customer service, each possibly undefined. */
  datatype ClienteInput = ClienteInput(nome: Option<Json>, email: Option<Json>)

  /** The body is destructured into `nome` and `email`: only these two fields reach the service. */
  function ClienteArgs(body: Body): (input: ClienteInput)
    ensures input.nome == Field(body, "nome")
    ensures input.email == Field(body, "email")
  {
    ClienteInput(Field(body, "nome"), Field(body, "email"))
  }

  /** `clienteController.criar`, given the service it calls. */
  function Criar<T, E>(body: Body, service: ClienteInput -> Result<T, E>): (r: Response<T>)
    ensures service(ClienteArgs(body)).Ok? ==> r == Response(201, Value(service(ClienteArgs(body)).value))
    ensures service(ClienteArgs(body)).Err? ==> r == Response(400, ErrorObject("Erro ao criar cliente"))
  {
    Created(service(ClienteArgs(body)), CreateFailText)
  }

  /** `clienteController.listar`, given the service's outcome: passed on unchanged with status 200. */
  function Listar<T, E>(outcome: Result<T, E>): (r: Option<Response<T>>)
    ensures outcome.Ok? ==> r == Some(Response(200, Value(outcome.value)))
    ensures outcome.Err? ==> r == None
  {
    Listed(outcome)
  }

  /** Fields other than `nome` and `email` make no difference to the response. */
  lemma CriarIgnoresOtherFields<T, E>(b1: Body, b2: Body, service: ClienteInput -> Result<T, E>)
    requires "nome" in b1 <==> "nome" in b2
    requires "nome" in b1 ==> b1["nome"] == b2["nome"]
    requires "email" in b1 <==> "email" in b2
    requires "email" in b1 ==> b1["email"] == b2["email"]
    ensures ClienteArgs(b1) == ClienteArgs(b2)
    ensures Criar(b1, service) == Criar(b2, service)
  {
  }
}
