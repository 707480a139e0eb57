/** The product and movement services: one function per REST operation.
    Create and update validate their input first and send nothing when it is
    invalid; otherwise they send a normalised body. Every call that reaches
    the network resolves to the transport's answer unchanged, wrapped as
    `{ data }`, except `remover`, which resolves to `{ data: null }`; every
    such call rejects with the transport's error unchanged.

    The network is a parameter: `net` is what the backend answers to the
    request the call puts on the wire. */
module Gateway {
  import opened Wrappers
  import opened Domain
  import Text
  import opened Validation

  const DADOS_INVALIDOS := "Dados do produto inválidos"

  datatype Endpoint =
    | Produtos                          // /produtos
    | ProdutoPorId(id: int)             // /produtos/{id}
    | ProdutosPorTipo(tipo: string)     // /produtos/tipo/{tipo}
    | LucroDoProduto(id: int)           // /produtos/{id}/lucro
    | Movimentos                        // /movimentos
    | MovimentoPorId(id: int)           // /movimentos/{id}
    | MovimentosDoProduto(produtoId: int)  // /movimentos/produto/{produtoId}

  datatype Body = ProdutoBody(produto: ProdutoPayload) | MovimentoBody(movimento: MovimentoPayload)

  datatype Request =
    | Get(endpoint: Endpoint)
    | Post(endpoint: Endpoint, body: Body)
    | Put(endpoint: Endpoint, body: Body)
    | Delete(endpoint: Endpoint)

  /** One service call: the request it put on the wire, if any, and what the
      returned promise settles to. */
  datatype Call<+T> = Call(request: Option<Request>, reply: Result<T, Failure>)

  /** The single network exchange of a call: no retry, no translation. */
  function Send<T>(req: Request, net: Result<T, Failure>): Call<T> {
    Call(Some(req), net)
  }

  // ------------------------------------------------------------ pass-through

  function ListarProdutos(net: Result<seq<ProdutoDto>, Failure>): Call<seq<ProdutoDto>> {
    Send(Get(Produtos), net)
  }

  function BuscarProduto(id: int, net: Result<ProdutoDto, Failure>): Call<ProdutoDto> {
    Send(Get(ProdutoPorId(id)), net)
  }

  function BuscarPorTipo(tipo: string, net: Result<seq<ProdutoDto>, Failure>): Call<seq<ProdutoDto>> {
    Send(Get(ProdutosPorTipo(tipo)), net)
  }

  function ConsultarLucro(id: int, net: Result<LucroProduto, Failure>): Call<LucroProduto> {
    Send(Get(LucroDoProduto(id)), net)
  }

  function ListarMovimentos(net: Result<seq<Movimento>, Failure>): Call<seq<Movimento>> {
    Send(Get(Movimentos), net)
  }

  function BuscarMovimento(id: int, net: Result<Movimento, Failure>): Call<Movimento> {
    Send(Get(MovimentoPorId(id)), net)
  }

  function ListarPorProduto(produtoId: int, net: Result<seq<Movimento>, Failure>): Call<seq<Movimento>> {
    Send(Get(MovimentosDoProduto(produtoId)), net)
  }

  /** `remover`: the response body is dropped and the call resolves to
      `{ data: null }`, written `()` here; a failure passes through. */
  function RemoverProduto<T>(id: int, net: Result<T, Failure>): (c: Call<()>)
    ensures c.request == Some(Delete(ProdutoPorId(id)))
    ensures c.reply.Ok? <==> net.Ok?
    ensures net.Err? ==> c.reply == Err(net.error)
  {
    match net
    case Ok(_) => Send(Delete(ProdutoPorId(id)), Ok(()))
    case Err(e) => Send(Delete(ProdutoPorId(id)), Err(e))
  }

  /** Every read operation issues exactly one GET to its own endpoint and
      settles to the backend's answer unchanged. */
  lemma ReadsArePassThrough(id: int, tipo: string,
                            np: Result<ProdutoDto, Failure>, nps: Result<seq<ProdutoDto>, Failure>,
                            nl: Result<LucroProduto, Failure>,
                            nm: Result<Movimento, Failure>, nms: Result<seq<Movimento>, Failure>)
    ensures ListarProdutos(nps) == Call(Some(Get(Produtos)), nps)
    ensures BuscarProduto(id, np) == Call(Some(Get(ProdutoPorId(id))), np)
    ensures BuscarPorTipo(tipo, nps) == Call(Some(Get(ProdutosPorTipo(tipo))), nps)
    ensures ConsultarLucro(id, nl) == Call(Some(Get(LucroDoProduto(id))), nl)
    ensures ListarMovimentos(nms) == Call(Some(Get(Movimentos)), nms)
    ensures BuscarMovimento(id, nm) == Call(Some(Get(MovimentoPorId(id))), nm)
    ensures ListarPorProduto(id, nms) == Call(Some(Get(MovimentosDoProduto(id))), nms)
  {
  }

  // ---------------------------------------------------------------- products

  /** The payload read back as a form candidate. */
  function ProdutoPayloadAsCandidate(b: ProdutoPayload): ProdutoCandidate {
    ProdutoCandidate(Some(b.codigo), Some(b.descricao), Some(TipoProdutoNome(b.tipo)),
                     Some(b.valorFornecedor), Some(b.quantidadeEstoque))
  }

  /** The body built for a valid product: code and description trimmed,
      category and numbers as given. The body is itself valid. */
  function FormatarProduto(c: ProdutoCandidate): (b: ProdutoPayload)
    requires ValidarProduto(Some(c))
    ensures ProdutoPayloadAsCandidate(b)
            == c.(codigo := Some(Text.Trim(c.codigo.value)),
                  descricao := Some(Text.Trim(c.descricao.value)))
    ensures Text.IsTrimmed(b.codigo) && Text.IsTrimmed(b.descricao)
    ensures ValidarProduto(Some(ProdutoPayloadAsCandidate(b)))
  {
    var b := ProdutoPayload(Text.Trim(c.codigo.value), Text.Trim(c.descricao.value),
                            ParseTipoProduto(c.tipo.value),
                            c.valorFornecedor.value, c.quantidadeEstoque.value);
    Text.TrimEmptyIffBlank(c.codigo.value);
    Text.TrimEmptyIffBlank(c.descricao.value);
    TrimmedNonEmptyNotBlank(b.codigo);
    TrimmedNonEmptyNotBlank(b.descricao);
    assert NamesTipoProduto(TipoProdutoNome(b.tipo));
    b
  }

  lemma TrimmedNonEmptyNotBlank(s: string)
    requires |s| > 0 && Text.IsTrimmed(s)
    ensures !Text.IsBlank(s)
  {
    assert !Text.IsWhitespace(s[0]);
  }

  /** Formatting an already formatted product changes nothing. */
  lemma FormatarProdutoIdempotent(c: ProdutoCandidate)
    requires ValidarProduto(Some(c))
    ensures FormatarProduto(ProdutoPayloadAsCandidate(FormatarProduto(c))) == FormatarProduto(c)
  {
    var b := FormatarProduto(c);
    Text.TrimFixesTrimmed(b.codigo);
    Text.TrimFixesTrimmed(b.descricao);
  }

  /** `produtoService.criar`: an invalid product is refused with the generic
      message and nothing is sent; a valid one is POSTed formatted and the
      backend's answer is returned unchanged. */
  function CriarProduto(p: Option<ProdutoCandidate>, net: Result<ProdutoDto, Failure>): (c: Call<ProdutoDto>)
    ensures c.request.Some? <==> ValidarProduto(p)
    ensures c.request.None? ==> c.reply == Err(ErrorMessage(DADOS_INVALIDOS))
    ensures c.request.Some? ==>
              c.reply == net && c.request.value == Post(Produtos, ProdutoBody(FormatarProduto(p.value)))
  {
    if !ValidarProduto(p) then Call(None, Err(ErrorMessage(DADOS_INVALIDOS)))
    else Send(Post(Produtos, ProdutoBody(FormatarProduto(p.value))), net)
  }

  /** `produtoService.atualizar`: as create, but a PUT to the product's
      own endpoint. */
  function AtualizarProduto(id: int, p: Option<ProdutoCandidate>, net: Result<ProdutoDto, Failure>): (c: Call<ProdutoDto>)
    ensures c.request.Some? <==> ValidarProduto(p)
    ensures c.request.None? ==> c.reply == Err(ErrorMessage(DADOS_INVALIDOS))
    ensures c.request.Some? ==>
              c.reply == net && c.request.value == Put(ProdutoPorId(id), ProdutoBody(FormatarProduto(p.value)))
  {
    if !ValidarProduto(p) then Call(None, Err(ErrorMessage(DADOS_INVALIDOS)))
    else Send(Put(ProdutoPorId(id), ProdutoBody(FormatarProduto(p.value))), net)
  }

  // --------------------------------------------------------------- movements

  /** The payload read back as a form candidate (no product snapshot). */
  function MovimentoPayloadAsCandidate(b: MovimentoPayload): MovimentoCandidate {
    MovimentoCandidate(Some(b.produtoId), None, Some(TipoMovimentacaoNome(b.tipo)),
                       Some(b.valorVenda), Some(b.quantidade), Some(b.dataMovimentacao))
  }

  /** The date is missing when absent or empty (both falsy in JavaScript). */
  predicate DataAusente(d: Option<string>) {
    d.None? || d.value == ""
  }

  /** The body built for a valid movement: the product snapshot is dropped,
      the other fields are kept, and a missing date becomes `now`. */
  function FormatarMovimento(c: MovimentoCandidate, now: string): (b: MovimentoPayload)
    requires MovimentoValido(c)
    ensures MovimentoPayloadAsCandidate(b)
            == c.(produto := None, dataMovimentacao := Some(b.dataMovimentacao))
    ensures !DataAusente(c.dataMovimentacao) ==> b.dataMovimentacao == c.dataMovimentacao.value
    ensures DataAusente(c.dataMovimentacao) ==> b.dataMovimentacao == now
    ensures ValidarMovimento(Some(MovimentoPayloadAsCandidate(b))) == Answer(true)
  {
    var data := if DataAusente(c.dataMovimentacao) then now else c.dataMovimentacao.value;
    var b := MovimentoPayload(c.produtoId.value, ParseTipoMovimentacao(c.tipo.value),
                              c.quantidade.value, c.valorVenda.value, data);
    assert NamesTipoMovimentacao(TipoMovimentacaoNome(b.tipo));
    b
  }

  /** A movement that carries its own date is formatted the same whatever
      the current instant is. */
  lemma FormatarMovimentoKeepsDate(c: MovimentoCandidate, now1: string, now2: string)
    requires MovimentoValido(c) && !DataAusente(c.dataMovimentacao)
    ensures FormatarMovimento(c, now1) == FormatarMovimento(c, now2)
  {
  }

  /** `movimentoService.criar`. A failing check is thrown with its own
      message and nothing is sent. An absent movement passes validation as
      `false`, which the service ignores; reading its fields then throws a
      TypeError, so nothing is sent either. A valid movement is POSTed
      formatted and the backend's answer is returned unchanged. */
  function CriarMovimento(m: Option<MovimentoCandidate>, now: string, net: Result<Movimento, Failure>): (c: Call<Movimento>)
    ensures c.request.Some? <==> m.Some? && MovimentoValido(m.value)
    ensures m.None? ==> c.reply == Err(NullAccess)
    ensures ValidarMovimento(m).Throws? ==> c.reply == Err(ErrorMessage(ValidarMovimento(m).message))
    ensures c.request.Some? ==>
              c.reply == net && c.request.value == Post(Movimentos, MovimentoBody(FormatarMovimento(m.value, now)))
  {
    match ValidarMovimento(m)
    case Throws(msg) => Call(None, Err(ErrorMessage(msg)))
    case Answer(_) =>
      if m.None? then Call(None, Err(NullAccess))
      else Send(Post(Movimentos, MovimentoBody(FormatarMovimento(m.value, now))), net)
  }
}
