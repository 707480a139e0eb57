# Inventory front end: validation, services and stores

This project models the data layer of a small inventory-management front end.
The layer sits between the views and a REST backend and has three parts:

- **Validators.** `validarProduto` answers a boolean. `validarMovimento` throws
  the message of the first failing check. Each runs an ordered list of
  (field, condition, message) checks and stops at the first failure.
- **Services.** `produtoService` and `movimentoService` have one operation per
  REST call. Create and update validate first and send nothing when the
  input is invalid. Otherwise they send a normalised body: strings trimmed,
  and for a movement the date defaulted to "now". Every call that reaches
  the network settles to the backend's answer unchanged, as `{ data }`,
  except `remover`, which resolves to `{ data: null }`.
- **Stores.** The product store and the movement store each hold
  `(list, selected, carregando, erro)`. Each action sets `carregando`,
  awaits one service call, then applies its update rule or records a fixed
  message. It clears `carregando` on every path. Create, update and delete
  re-raise failures; loads and lookups swallow them.

Files (one module each):

- `wrappers.dfy`: `Option` for values that may be `undefined`/`null`, and
  `Result` for a settled promise.
- `text.dfy`: JavaScript `trim`. It removes ECMAScript white space and line
  terminators from both ends.
- `domain.dfy`: the records and enums (product, product DTO, movement,
  profit report). It also holds the form-side *candidates*, whose fields may
  be absent and whose category is a raw string, and the sent payloads.
  `Failure` is a thrown error: a message thrown by this code, a transport
  rejection, or a TypeError from reading a property of `null`.
- `validation.dfy`: the two validators.
- `gateway.dfy`: the services. A call is `Call(request, reply)`. `request`
  is what went on the wire; `None` means nothing was sent. The backend's
  answer is the parameter `net`.
- `produto_store.dfy`, `movimento_store.dfy`: the stores. Each action is a
  pure transition `(State, reply) -> Step(pending, state, exit)`. `reply` is
  the settlement of the awaited service call. `pending` is the state while
  the call is in flight, `state` the state after it settles. `exit` is
  `Completed`, `Returned(value)` or `Raised(failure)`.

Three behaviours of the code are worth knowing:

- `criarMovimento` appends any successful response without looking at its
  id (src/stores/movimento.ts:45-47), unlike `criarProduto`.
  `MovimentoStore.CriarMovimento` does the same.
- A movement with quantity 0 is refused with the quantity message only when
  its product id and kind pass their checks, because an earlier failing
  check wins. `Validation.QuantidadeZeroRefused` proves that case.
  `Validation.QuantidadeZeroAfterBadProduto` gives an input where the
  product message is thrown instead.
- For an absent movement, `validarMovimento` returns false.
  `movimentoService.criar` ignores that result and then reads
  `movimento.produtoId`, which throws a TypeError, so nothing is sent
  (`Gateway.CriarMovimento`, `NullAccess`).

## Model

| member | source | states |
|---|---|---|
| Text.Trim | src/services/api.ts:161-162 | The result is a slice of the input. A whitespace-only prefix and suffix are removed, the result neither starts nor ends with white space, and it is empty exactly when the input is blank. |
| Text.TrimIdempotent | src/services/api.ts:181-182 | Trimming an already trimmed string changes nothing. |
| Validation.FirstFailure | src/services/api.ts:80-84 | The loop over the checks finds no failure exactly when every condition holds. Otherwise it finds the earliest failing check: every check before it holds. |
| Validation.ValidarProduto | src/services/api.ts:47-87 | False for an absent product. Otherwise true exactly when code and description each contain a character that is not white space, the category names one of ELETRONICO/ELETRODOMESTICO/MOVEL, the supplier value is present and > 0, and the stock is present and >= 0. So any single failing field makes it false. |
| Validation.ValidarMovimento | src/services/api.ts:89-124 | Returns false, without throwing, for an absent movement. Returns true exactly for a well-formed movement. Otherwise it throws the message of the first failing check in the order produtoId > 0, kind in ENTRADA/SAIDA, quantidade >= 1, valorVenda >= 0. |
| Validation.QuantidadeZeroRefused | src/services/api.ts:105-109 | A movement with a valid product id and kind and quantity 0 throws the quantity message. |
| Validation.QuantidadeZeroAfterBadProduto | src/services/api.ts:94-99 | With product id 0 and quantity 0, the product message is thrown, not the quantity message. |
| Gateway.ReadsArePassThrough | src/services/api.ts:126-152 | Every read operation issues exactly one GET to its own endpoint and settles to the backend's answer unchanged. This covers products, by id, by category and profit, and movements, by id and by product (also api.ts:205-232 and 255-262). |
| Gateway.RemoverProduto | src/services/api.ts:196-203 | Issues one DELETE. It resolves to `null` exactly when the backend succeeds, and otherwise rejects with the backend's error unchanged. |
| Gateway.FormatarProduto | src/services/api.ts:160-166 | The body equals the candidate with code and description trimmed; category and numbers are unchanged. Both strings are trimmed, and the body itself passes `validarProduto`. |
| Gateway.FormatarProdutoIdempotent | src/services/api.ts:181-187 | Formatting an already formatted body yields the same body. |
| Gateway.CriarProduto | src/services/api.ts:154-173 | A request is sent exactly when `validarProduto` holds. With no request, the call rejects with 'Dados do produto inválidos'. With a request, it is one POST /produtos of the formatted body, and the reply is the backend's answer. |
| Gateway.AtualizarProduto | src/services/api.ts:175-194 | The same as create, with a PUT to /produtos/{id}. |
| Gateway.FormatarMovimento | src/services/api.ts:240-246 | The body keeps product id, kind, quantity and sale value, and drops the product snapshot. A present, non-empty date is kept; an absent or empty one becomes `now`. The body itself passes `validarMovimento`. |
| Gateway.FormatarMovimentoKeepsDate | src/services/api.ts:245 | A movement that carries a date is formatted the same whatever the current instant is. |
| Gateway.CriarMovimento | src/services/api.ts:234-253 | A request is sent exactly for a present, well-formed movement. A failing check rejects with that check's message and sends nothing. An absent movement rejects with a TypeError. Otherwise it sends one POST /movimentos of the formatted body, and the reply is the backend's answer. |
| ProdutoStore.IndexOf | src/stores/produto.ts:66 | Returns -1 exactly when no product holds the id. Otherwise it returns a position holding the id, and no earlier position holds it. |
| ProdutoStore.Without | src/stores/produto.ts:89 | Every product holding the id is removed. Every other product keeps its exact multiplicity. |
| ProdutoStore.WithoutConcat | src/stores/produto.ts:89 | Filtering distributes over concatenation, so survivors keep their relative order. |
| ProdutoStore.WithoutAbsent | src/stores/produto.ts:89 | Filtering by an id that no product holds leaves the list as it was. |
| ProdutoStore.CarregarProdutos | src/stores/produto.ts:14-26 | On success the list becomes the response and `erro` is cleared. On failure the list is kept, `erro` is 'Erro ao carregar produtos', and nothing is raised. Either way `carregando` ends false and the selection is kept. While the call is in flight the state differs from the old one only in `carregando` being true. |
| ProdutoStore.BuscarPorId | src/stores/produto.ts:28-40 | On success only the selection changes, and `erro` is cleared. On failure `erro` is 'Erro ao buscar produto' and nothing is raised. The list is never touched, and `carregando` ends false. While the call is in flight the state differs from the old one only in `carregando` being true. |
| ProdutoStore.CriarProduto | src/stores/produto.ts:42-60 | The action returns exactly when the response succeeded with an id. Then the list is the old list followed by the response. Otherwise the list is unchanged, `erro` is 'Erro ao criar produto', and the action raises: the call's own error, or 'Produto criado sem id definido'. `carregando` ends false. While the call is in flight the state differs from the old one only in `carregando` being true. |
| ProdutoStore.AtualizarProduto | src/stores/produto.ts:62-83 | The length never changes. On success with an id, the first position holding `id` is replaced and every other position is kept. If no product holds `id`, the action succeeds, `erro` is cleared and the list is unchanged, even when the response lacks an id. An id-less response for a held id raises 'Produto atualizado sem id definido'; a failed call re-raises its own error; both set 'Erro ao atualizar produto'. `carregando` ends false. While the call is in flight the state differs from the old one only in `carregando` being true. |
| ProdutoStore.DeletarProduto | src/stores/produto.ts:85-98 | On success the list is the old list filtered by id (`Without`): order and multiplicity of the survivors are kept, and a product stays exactly when it was present and does not hold `id`; `erro` is cleared. On failure the list is unchanged, `erro` is 'Erro ao deletar produto', and the error is re-raised. `carregando` ends false. While the call is in flight the state differs from the old one only in `carregando` being true. |
| ProdutoStore.IdsPreserved | src/stores/produto.ts:46-50 | If every held product has an id, that still holds after create, update or delete, whatever the backend answers. Loads and lookups do not check ids. |
| ProdutoStore.MutationsKeepIds | src/stores/produto.ts:42-98 | Any run of creates, updates and deletes, with any backend answers, keeps "every product has an id". |
| ProdutoStore.FromInicialAllHaveIds | src/stores/produto.ts:6-11 | From the initial state (empty list), every product held after any run of creates, updates and deletes has an id. |
| ProdutoStore.LoadDoesNotCheckIds | src/stores/produto.ts:17-18 | A load stores the answer as it is: an id-less product in the answer breaks "every product has an id". |
| ProdutoStore.DeleteThroughService | src/stores/produto.ts:88-94 | Deleting through `remover`: the list is filtered exactly when the backend confirms; otherwise the list is kept and the backend's error is re-raised. |
| ProdutoStore.LoadThroughService | src/stores/produto.ts:17-22 | Loading through `listarTodos`: the list becomes the backend's answer, or is kept with 'Erro ao carregar produtos'; nothing is raised. |
| ProdutoStore.LookupThroughService | src/stores/produto.ts:31-35 | Looking up through `buscarPorId`: the backend's answer becomes the selection, or the old selection is kept; nothing is raised. |
| ProdutoStore.LookupInvisibleToMutations | src/stores/produto.ts:28-40 | A lookup never changes what a following create, update or delete does to the list, nor how it ends. |
| ProdutoStore.LastLoadWins | src/stores/produto.ts:17-19 | After two successful loads in a row, the list is the second answer, with no error and not loading. |
| ProdutoStore.UpdateThenFind | src/stores/produto.ts:66-69 | After a replacing update, looking up `id` finds the response at the same position. |
| ProdutoStore.CreateThenDelete | src/stores/produto.ts:45-89 | Deleting the product just created restores the previous list, provided its id was not already held. |
| ProdutoStore.DeleteExample | src/stores/produto.ts:88-89 | Deleting 7 from products [3, 7, 9] leaves [3, 9]. |
| ProdutoStore.InvalidProdutoNeverStored | src/stores/produto.ts:45-56 | An invalid product is never sent on create or update. The list is unchanged, the action's message is recorded, and 'Dados do produto inválidos' is re-raised. |
| ProdutoStore.CreateExample | src/stores/produto.ts:42-60 | Creating A1/"Widget"/ELETRONICO/10/5 sends that exact body. The backend's answer, which carries an id, is appended as the one new product. Loading is over and there is no error. |
| ProdutoStore.CreateWithoutIdExample | src/stores/produto.ts:46-56 | A successful creation whose answer lacks an id leaves the list unchanged, sets the error and raises 'Produto criado sem id definido'. |
| MovimentoStore.CarregarMovimentos | src/stores/movimento.ts:14-26 | On success the list becomes the response and `erro` is cleared. On failure the list is kept, `erro` is 'Erro ao carregar movimentos', and nothing is raised. `carregando` ends false. While the call is in flight the state differs from the old one only in `carregando` being true. |
| MovimentoStore.BuscarPorId | src/stores/movimento.ts:28-40 | On success only the selection changes. On failure `erro` is 'Erro ao buscar movimento' and nothing is raised. The list is never touched, and `carregando` ends false. While the call is in flight the state differs from the old one only in `carregando` being true. |
| MovimentoStore.CriarMovimento | src/stores/movimento.ts:42-56 | On success the response is returned and appended with no id check: length + 1, old prefix intact, response last. On failure the list is unchanged, `erro` is 'Erro ao criar movimento', and the error is re-raised. `carregando` ends false. While the call is in flight the state differs from the old one only in `carregando` being true. |
| MovimentoStore.ListarPorProduto | src/stores/movimento.ts:58-70 | On success the list becomes the product's movements. On failure `erro` is 'Erro ao listar movimentos do produto' and nothing is raised. `carregando` ends false. While the call is in flight the state differs from the old one only in `carregando` being true. |
| MovimentoStore.ValidationFailureReachesStore | src/stores/movimento.ts:44-52 | A movement refused by validation sends nothing. The list is unchanged and the validator's first-failure message is re-raised. |
| MovimentoStore.QuantidadeZeroReachesStore | src/stores/movimento.ts:44-52 | End to end, quantity 0 with a valid product and kind leaves the list unchanged and re-raises the quantity message. |
| MovimentoStore.CreateDefaultsDate | src/stores/movimento.ts:44-47 | A valid undated movement is POSTed with date `now`, and the backend's answer is appended. |
| MovimentoStore.LastListWins | src/stores/movimento.ts:58-62 | A full load followed by a successful per-product listing leaves the per-product answer. |
| MovimentoStore.LoadThroughService | src/stores/movimento.ts:16-21 | Loading through `listarTodos`: the list becomes the backend's answer, or is kept with 'Erro ao carregar movimentos'; nothing is raised. |
| MovimentoStore.ListThroughService | src/stores/movimento.ts:60-65 | Listing through `listarPorProduto`: the list becomes the backend's answer, or is kept with 'Erro ao listar movimentos do produto'; nothing is raised. |
| MovimentoStore.LookupThroughService | src/stores/movimento.ts:31-35 | Looking up through `buscarPorId`: the backend's answer becomes the selection, or the old selection is kept; nothing is raised. |
| MovimentoStore.LookupInvisibleToCreate | src/stores/movimento.ts:28-40 | A lookup never changes what a following create does to the list, nor how it ends. |

## Left out

- The HTTP client configuration: base URL selection, headers, the 10-second
  timeout and the identity interceptors (src/services/api.ts:17-45). They are
  configuration without logic. A call's network outcome is the parameter `net`.
- Concurrency. Each action is one atomic transition. Two interleaved actions
  on one store (both in flight, `carregando` cleared by whichever settles
  first) are not modelled. "Last wins" is proved only for sequential actions.
- `console.error` logging, which does not affect state.
- JavaScript `Number()` coercion and floating point. Money values are `real`;
  quantities and ids are `int`. NaN, strings standing for numbers, and
  fractional stock are not modelled.
- `new Date().toISOString()`. The current instant is the parameter `now`.
- The router (src/router/index.ts) is a static path-to-view table.
- Profit is computed by the backend. `LucroProduto` is only a record that
  `consultarLucro` passes through.
- Values of the wrong JavaScript type in a field (a number where a string is
  expected, say) are not modelled. Fields are either absent or of their
  declared type.
