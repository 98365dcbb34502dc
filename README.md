# Order creation in the mini order system, modelled in Dafny

The system keeps customers (*clientes*), products (*produtos*) and orders (*pedidos*) behind a small REST API and a browser dashboard. This project models the three pieces of it that have behaviour of their own, all around creating an order:

- **The orders page** (`PedidosPage`, in `pedidos_page.dfy`). The creation form holds a customer id (0 means none chosen) and a list of product ids. A click on a product card toggles that id: a selected id is filtered out, every occurrence of it, and an unselected one is appended. The submit handler is a small state machine over the form, the form's visibility, the "submitting" flag and the feedback message. It has a guard, a success branch that resets the form, and a failure branch that picks an error text. The page is a class `Page`. It holds the four state hooks the handlers touch (`formData`, `showForm`, `isSubmitting`, `message`) and two more fields: `sent`, the forms posted so far, and `reloads`, how many reloads of the lists were started. The page's other hooks (`pedidos`, `clientes`, `produtos`, `isLoading`) belong to the list loading and are not modelled. `ToggleProduto` is proved against the specification function `Toggle` and `HandleSubmit` against `AfterSubmit`. `ToggleForm` and `SelectCliente` are each specified by the one field update they make. The outcome of the network post is a parameter, either `Posted` or `Failed(server error text, if any)`.
- **The order service** (`PedidoService`). `criar` builds the request it hands to the store: status `PENDENTE`, the given customer id, one nested line entry per product id (kept in order, duplicates included) and the joined shape (customer, and each line's product). `listar` asks for the same joined shape. The store is a function parameter. Only what the service builds is modelled, not what the store does with it.
- **The create and list controllers** (`PedidoController`, `ClienteController`, over the shared mapping in `Http`). `criar` passes exactly two body fields to its service. It answers 201 with the service's value, or 400 with a fixed `{ error }` message whatever the cause. `listar` answers 200 with the service's result unchanged. Each `criar` takes its service as a function parameter, as in the controller tests where it is mocked. Each `listar` takes the service's outcome instead, since it makes no argument for the service.

An empty product list is meant to be a creation failure (answered 400), but the code does not check for it. The service builds a request with no lines and hands it to the store. The model follows the code (`PedidoService.CreateAcceptsEmptyList`, `PedidoController.CriarAcceptsEmptyList`). On the page, only the submit guard keeps an empty selection from being sent.

Request bodies are JSON objects (`map<string, Json>`). Destructuring an absent field gives `None`, the model's `undefined`. In `criar`, `produtos.map` only exists on an array. Any other value, including an absent one, makes the service reject, and the controller then answers 400. `BuildCreate` models that case, and `PedidoController.CriarRejectsNonArray` proves it end to end.

## Model

| member | source | states |
|---|---|---|
| `Http.Field` | backend/src/controllers/pedidoController.js:10 | destructuring a body field yields it exactly when the key is present, and `undefined` otherwise |
| `Http.Created` | backend/src/controllers/pedidoController.js:9-16 | status 201 if and only if the service succeeded, with the service's value as body; status 400 if and only if it failed, with the fixed error object as body |
| `Http.Listed` | backend/src/controllers/pedidoController.js:4-7 | a response is written if and only if the service succeeded, and it is 200 with the result unchanged |
| `Http.CreatedHidesCause` | backend/src/controllers/pedidoController.js:13-15 | two failures with different causes give the same response |
| `PedidoService.StatusName` | backend/src/config/swagger.js:69 | the status names are "PENDENTE" and "PAGO", one for each status |
| `PedidoService.StatusFromName` | backend/src/config/swagger.js:69 | a name that is recognised maps back to a status with that name |
| `PedidoService.StatusNameRoundTrip` | backend/src/config/swagger.js:69 | reading a status's name gives the status back |
| `PedidoService.Lines` | backend/src/services/pedidoService.js:19-21 | one line entry per id, and entry i connects product id i |
| `PedidoService.ConnectedIds` | backend/src/services/pedidoService.js:19-21 | the ids read back from the line entries, one per entry |
| `PedidoService.LinesRoundTrip` | backend/src/services/pedidoService.js:19-21 | reading the ids back from the line entries gives the submitted list, order and duplicates included |
| `PedidoService.BuildCreate` | backend/src/services/pedidoService.js:13-25 | a request is built if and only if `produtos` is an array; it has status PENDENTE, the input's customer id, the joined shape, one line per id, and line i connects `produtos[i]` |
| `PedidoService.Criar` | backend/src/services/pedidoService.js:13-26 | a non-array `produtos` rejects without asking the store; otherwise the store's answer to the built request is returned, with a store failure wrapped as its cause |
| `PedidoService.ListRequest` | backend/src/services/pedidoService.js:5-10 | the list request asks for the customer and for each line's product |
| `PedidoService.Listar` | backend/src/services/pedidoService.js:4-11 | the result is the store's answer to the joined-shape query |
| `PedidoService.CreateAndListShareShape` | backend/src/services/pedidoService.js:6-24 | the shape requested on create equals the one requested on list |
| `PedidoService.CreateConnectsEveryId` | backend/src/services/pedidoService.js:18-22 | the built request connects exactly the submitted ids, in order, with repetitions |
| `PedidoService.CreateFromOneTwo` | backend/tests/controllers/pedidoController.test.js:46-56 | for customer 1 and products [1, 2] the request has two lines, for products 1 and 2, and status PENDENTE |
| `PedidoService.CreateAcceptsEmptyList` | backend/src/services/pedidoService.js:13-25 | an empty product array is not rejected by the service: it builds a PENDENTE request with no lines for the given customer |
| `PedidoController.PedidoArgs` | backend/src/controllers/pedidoController.js:10-11 | the service argument is exactly the body's `clienteId` and `produtos` |
| `PedidoController.Criar` | backend/src/controllers/pedidoController.js:8-17 | when the service succeeds: 201 with its result; when it fails: 400 with `{ error: "Erro ao criar pedido" }` |
| `PedidoController.Listar` | backend/src/controllers/pedidoController.js:4-7 | when the service succeeds: 200 with its result unchanged; when it fails: no response |
| `PedidoController.CriarIgnoresOtherFields` | backend/src/controllers/pedidoController.js:10-11 | bodies that agree on `clienteId` and `produtos` get the same service argument and the same response |
| `PedidoController.ServiceReceivesTestBody` | backend/tests/controllers/pedidoController.test.js:60-66 | the test's body, with an extra field added, gives the service exactly `{ clienteId: 1, produtos: [1, 2] }` |
| `PedidoController.CriarRejectsNonArray` | backend/src/controllers/pedidoController.js:9-15 | with the real service, a missing or non-array `produtos` is answered 400 whatever the store would do |
| `PedidoController.CriarReturnsStoredOrder` | backend/src/controllers/pedidoController.js:9-12 | with the real service, the store's created order comes back as a 201 body |
| `PedidoController.CriarAcceptsEmptyList` | backend/src/controllers/pedidoController.js:9-12 | with the real service, an empty product list is answered 201 with the stored order whenever the store accepts the order without lines |
| `ClienteController.ClienteArgs` | backend/src/controllers/clienteController.js:10-11 | the service argument is exactly the body's `nome` and `email` |
| `ClienteController.Criar` | backend/src/controllers/clienteController.js:8-15 | when the service succeeds: 201 with the created customer; when it fails: 400 with `{ error: "Erro ao criar cliente" }` |
| `ClienteController.Listar` | backend/src/controllers/clienteController.js:4-7 | when the service succeeds: 200 with its result unchanged; when it fails: no response |
| `ClienteController.CriarIgnoresOtherFields` | backend/src/controllers/clienteController.js:10-11 | bodies that agree on `nome` and `email` get the same service argument and the same response |
| `PedidosPage.Remove` | frontend/src/app/pedidos/page.tsx:73 | the removed id no longer occurs, every other id occurs if and only if it occurred before, and a list without the id is unchanged |
| `PedidosPage.Toggle` | frontend/src/app/pedidos/page.tsx:69-76 | the customer is unchanged; the toggled id is selected afterwards if and only if it was not before; an absent id is appended at the end; no other id changes its selection |
| `PedidosPage.RemoveAppend` | frontend/src/app/pedidos/page.tsx:73 | filtering a concatenation is concatenating the filtered parts, so the relative order is kept |
| `PedidosPage.RemoveCounts` | frontend/src/app/pedidos/page.tsx:73 | every occurrence of the id is dropped, and every other id keeps its number of occurrences |
| `PedidosPage.RemoveKeepsOrder` | frontend/src/app/pedidos/page.tsx:73 | the filtered list is a subsequence of the original |
| `PedidosPage.RemoveKeepsDistinct` | frontend/src/app/pedidos/page.tsx:73 | filtering a list without duplicates gives a list without duplicates |
| `PedidosPage.ToggleKeepsDistinct` | frontend/src/app/pedidos/page.tsx:72-74 | a selection without duplicates has none after a toggle |
| `PedidosPage.TogglePresentKeepsOthers` | frontend/src/app/pedidos/page.tsx:72-73 | deselecting drops every occurrence and keeps every other id, with its count and in its order |
| `PedidosPage.ToggleTwiceRestores` | frontend/src/app/pedidos/page.tsx:72-74 | toggling an unselected id twice restores the form |
| `PedidosPage.FailureText` | frontend/src/app/pedidos/page.tsx:62 | the shown text is the server's error text when it is present and non-empty, and "Erro ao criar pedido" otherwise |
| `PedidosPage.AfterSubmit` | frontend/src/app/pedidos/page.tsx:42-67 | "submitting" is false at the end of every branch. A blocked form (no customer, or no product) changes only the message, to the selection error, and sends nothing. Otherwise the form is sent once. Success resets the form, hides it, shows the success text and starts a reload. Failure keeps the form and its visibility and shows the failure text |
| `PedidosPage.BlockedSubmitSendsNothing` | frontend/src/app/pedidos/page.tsx:47-51 | a blocked submission sends nothing, and repeating it changes nothing more |
| `PedidosPage.SuccessResetsForm` | frontend/src/app/pedidos/page.tsx:54-57 | after success the form equals the initial form, which the guard blocks |
| `PedidosPage.FailureAllowsRetry` | frontend/src/app/pedidos/page.tsx:59-66 | after a failure, submitting again sends the same form a second time |
| `PedidosPage.Page.constructor` | frontend/src/app/pedidos/page.tsx:12-18 | the page starts with the empty form, hidden, not submitting, no message, nothing sent |
| `PedidosPage.Page.ToggleForm` | frontend/src/app/pedidos/page.tsx:99 | only the form's visibility flips |
| `PedidosPage.Page.SelectCliente` | frontend/src/app/pedidos/page.tsx:153 | only the form's customer id changes |
| `PedidosPage.Page.ToggleProduto` | frontend/src/app/pedidos/page.tsx:69-76 | the form becomes `Toggle` of the old form, and nothing else changes |
| `PedidosPage.Page.HandleSubmit` | frontend/src/app/pedidos/page.tsx:42-67 | the new page state is `AfterSubmit` of the old state and the post's outcome |

## Left out

- The store (Prisma): how `create` and `findMany` run, id assignment, timestamps, atomicity of an order and its lines, and referential-integrity failures. It is a function parameter that may return a value or an error.
- Empty product list: whether an order without lines is refused is decided by the store alone, which is not modelled, so the model does not promise a 400 for an empty list.
- Logging: `pedidoController.criar` writes the failure cause to the console before answering 400, and `clienteController.criar` does not; neither is modelled, so the cause is simply discarded in both.
- `clienteService` and `produtoService`: each is a one-line pass-through to the store, so the customer controller takes its service as a parameter.
- `produtoController`: its only logic is `parseFloat` of the price, which is floating-point parsing.
- JSON numbers are modelled as integers. Product prices, `toFixed(2)` price display and `toLocaleDateString` date display are floating-point or locale formatting.
- `fetchData` (three concurrent GET requests with `Promise.all`): the model only counts the reloads that a successful submission starts (`reloads`). A reload that fails later sets the message to "Erro ao carregar dados", so the success text that `AfterSubmit` promises holds when the handler ends but can be overwritten afterwards.
- What the framework does with a rejected `listar` promise: the model says only that the controller writes no response.
- "`listar` calls the service exactly once": the model takes the one service outcome as its argument, so a call count cannot be stated.
- `PedidosPage.FailureText`: the server's `error` field is modelled as an optional string. A non-string value, which `||` would also pass through when it is truthy, is not modelled.
- `PedidosPage.Page.HandleSubmit`: the intermediate render while the post is pending (submitting true, message cleared) happens inside the method and is not visible in its contract. React's batching of state updates is not modelled. The method also runs as one step, so the model does not interleave other handlers with the pending post. In the page the form stays on screen during the post, and only the submit button is disabled. The user can still toggle products, change the customer or press "Cancelar"; a success then wipes those edits, and a failure keeps them.
- Rendering and markup, the login and dashboard pages, route wiring, CORS, API documentation and test tooling.
