/** The records exchanged between the views, the stores and the REST
    backend (the product and stock-movement types and the product DTO), and
    the shapes of failures and of an action's exit. */
module Domain {
  import opened Wrappers

  datatype TipoProduto = ELETRONICO | ELETRODOMESTICO | MOVEL
  datatype TipoMovimentacao = ENTRADA | SAIDA

  /** The wire spelling of each product category. */
  function TipoProdutoNome(t: TipoProduto): string {
    match t
    case ELETRONICO => "ELETRONICO"
    case ELETRODOMESTICO => "ELETRODOMESTICO"
    case MOVEL => "MOVEL"
  }

  /** The wire spelling of each movement kind. */
  function TipoMovimentacaoNome(t: TipoMovimentacao): string {
    match t
    case ENTRADA => "ENTRADA"
    case SAIDA => "SAIDA"
  }

  /** The string names one of the product categories. */
  predicate NamesTipoProduto(s: string) {
    exists t: TipoProduto :: TipoProdutoNome(t) == s
  }

  /** The string names one of the movement kinds. */
  predicate NamesTipoMovimentacao(s: string) {
    exists t: TipoMovimentacao :: TipoMovimentacaoNome(t) == s
  }

  /** Reads a category back from its wire spelling. */
  function ParseTipoProduto(s: string): (t: TipoProduto)
    requires NamesTipoProduto(s)
    ensures TipoProdutoNome(t) == s
  {
    if s == "ELETRONICO" then ELETRONICO
    else if s == "ELETRODOMESTICO" then ELETRODOMESTICO
    else MOVEL
  }

  /** Reads a movement kind back from its wire spelling. */
  function ParseTipoMovimentacao(s: string): (t: TipoMovimentacao)
    requires NamesTipoMovimentacao(s)
    ensures TipoMovimentacaoNome(t) == s
  {
    if s == "ENTRADA" then ENTRADA else SAIDA
  }

  /** A product as the backend returns it. The id is assigned by the server
      and may be missing from a response. The product store checks it on
      create and update only; loads and lookups keep responses as they are. */
  datatype ProdutoDto = ProdutoDto(
    id: Option<int>,
    codigo: string,
    descricao: string,
    tipo: TipoProduto,
    valorFornecedor: real,
    quantidadeEstoque: int)

  predicate HasId(p: ProdutoDto) {
    p.id.Some?
  }

  /** A product as a form hands it to the service, before validation: any
      field may be absent and the category is whatever string was entered. */
  datatype ProdutoCandidate = ProdutoCandidate(
    codigo: Option<string>,
    descricao: Option<string>,
    tipo: Option<string>,
    valorFornecedor: Option<real>,
    quantidadeEstoque: Option<int>)

  /** The body sent on product create and update: no id, trimmed strings. */
  datatype ProdutoPayload = ProdutoPayload(
    codigo: string,
    descricao: string,
    tipo: TipoProduto,
    valorFornecedor: real,
    quantidadeEstoque: int)

  /** A stock movement as the backend returns it, with an optional
      snapshot of its product. */
  datatype Movimento = Movimento(
    id: Option<int>,
    produtoId: int,
    produto: Option<ProdutoDto>,
    tipo: TipoMovimentacao,
    valorVenda: real,
    quantidade: int,
    dataMovimentacao: string)

  /** A movement as a form hands it to the service, before validation. */
  datatype MovimentoCandidate = MovimentoCandidate(
    produtoId: Option<int>,
    produto: Option<ProdutoDto>,
    tipo: Option<string>,
    valorVenda: Option<real>,
    quantidade: Option<int>,
    dataMovimentacao: Option<string>)

  /** The body sent on movement create. */
  datatype MovimentoPayload = MovimentoPayload(
    produtoId: int,
    tipo: TipoMovimentacao,
    quantidade: int,
    valorVenda: real,
    dataMovimentacao: string)

  /** The profit report for one product; computed by the backend and only
      displayed by the client. */
  datatype LucroProduto = LucroProduto(
    produto: ProdutoDto,
    descricao: string,
    quantidadeSaida: int,
    valorCompraUnitario: real,
    valorVendaUnitario: real,
    lucroUnitario: real,
    lucroTotal: real)

  /** A thrown JavaScript error. */
  datatype Failure =
    | ErrorMessage(message: string)  // `new Error(message)` thrown by this code
    | Transport(detail: string)      // a rejection of the HTTP client, passed on unchanged
    | NullAccess                     // TypeError: reading a property of null or undefined

  /** How an awaited call or a store action ends for its caller. */
  datatype Exit<+T> = Completed | Returned(value: T) | Raised(failure: Failure)
}
