/** The two payload validators of the API layer. Each runs an ordered list
    of (field, condition, message) checks and stops at the first failing one;
    the product validator answers `false`, the movement validator throws the
    failing check's message. */
module Validation {
  import opened Wrappers
  import opened Domain
  import Text

  const TIPOS_PRODUTO: seq<string> := ["ELETRONICO", "ELETRODOMESTICO", "MOVEL"]
  const TIPOS_MOVIMENTACAO: seq<string> := ["ENTRADA", "SAIDA"]

  const ERRO_CODIGO := "Código é obrigatório"
  const ERRO_DESCRICAO := "Descrição é obrigatória"
  const ERRO_TIPO_PRODUTO := "Tipo do produto é obrigatório e deve ser ELETRONICO, ELETRODOMESTICO ou MOVEL"
  const ERRO_VALOR_FORNECEDOR := "Valor do fornecedor é obrigatório e deve ser maior que zero"
  const ERRO_QUANTIDADE_ESTOQUE := "Quantidade em estoque é obrigatória e não pode ser negativa"

  const ERRO_PRODUTO_ID := "Produto é obrigatório"
  const ERRO_TIPO_MOVIMENTACAO := "Tipo de movimentação é obrigatório"
  const ERRO_QUANTIDADE := "Quantidade movimentada é obrigatória e deve ser no mínimo 1"
  const ERRO_VALOR_VENDA := "Valor de venda não pode ser negativo"

  /** One entry of a validator's check list. */
  datatype Check = Check(campo: string, condicao: bool, erro: string)

  /** What `validarMovimento` does: return a boolean or throw a message. */
  datatype Verdict = Answer(ok: bool) | Throws(message: string)

  /** Index of the first check whose condition is false, if any. */
  function FirstFailure(checks: seq<Check>): (r: Option<nat>)
    ensures r.None? <==> forall i :: 0 <= i < |checks| ==> checks[i].condicao
    ensures r.Some? ==> r.value < |checks| && !checks[r.value].condicao
    ensures r.Some? ==> forall j :: 0 <= j < r.value ==> checks[j].condicao
  {
    if |checks| == 0 then None
    else if !checks[0].condicao then Some(0)
    else match FirstFailure(checks[1..])
      case None => None
      case Some(i) => Some(i + 1)
  }

  // ---------------------------------------------------------------- products

  function ProdutoChecks(p: ProdutoCandidate): seq<Check> {
    [ Check("codigo", p.codigo.Some? && |Text.Trim(p.codigo.value)| > 0, ERRO_CODIGO),
      Check("descricao", p.descricao.Some? && |Text.Trim(p.descricao.value)| > 0, ERRO_DESCRICAO),
      Check("tipo", p.tipo.Some? && p.tipo.value in TIPOS_PRODUTO, ERRO_TIPO_PRODUTO),
      Check("valorFornecedor", p.valorFornecedor.Some? && p.valorFornecedor.value > 0.0, ERRO_VALOR_FORNECEDOR),
      Check("quantidadeEstoque", p.quantidadeEstoque.Some? && p.quantidadeEstoque.value >= 0, ERRO_QUANTIDADE_ESTOQUE) ]
  }

  /** A well-formed product, field by field, independent of the check list:
      code and description carry a visible character, the category is a
      known one, the supplier value is positive and the stock is not negative. */
  predicate ProdutoValido(c: ProdutoCandidate) {
    && c.codigo.Some? && !Text.IsBlank(c.codigo.value)
    && c.descricao.Some? && !Text.IsBlank(c.descricao.value)
    && c.tipo.Some? && NamesTipoProduto(c.tipo.value)
    && c.valorFornecedor.Some? && c.valorFornecedor.value > 0.0
    && c.quantidadeEstoque.Some? && c.quantidadeEstoque.value >= 0
  }

  lemma TiposProdutoAreTheCategories(s: string)
    ensures s in TIPOS_PRODUTO <==> NamesTipoProduto(s)
  {
    if s in TIPOS_PRODUTO {
      if s == "ELETRONICO" { assert TipoProdutoNome(ELETRONICO) == s; }
      else if s == "ELETRODOMESTICO" { assert TipoProdutoNome(ELETRODOMESTICO) == s; }
      else { assert TipoProdutoNome(MOVEL) == s; }
    }
  }

  lemma TiposMovimentacaoAreTheKinds(s: string)
    ensures s in TIPOS_MOVIMENTACAO <==> NamesTipoMovimentacao(s)
  {
    if s in TIPOS_MOVIMENTACAO {
      if s == "ENTRADA" { assert TipoMovimentacaoNome(ENTRADA) == s; }
      else { assert TipoMovimentacaoNome(SAIDA) == s; }
    }
  }

  /** `validarProduto`: false for an absent product, otherwise true exactly
      when every field is well formed. */
  function ValidarProduto(p: Option<ProdutoCandidate>): (ok: bool)
    ensures ok <==> p.Some? && ProdutoValido(p.value)
  {
    match p
    case None => false
    case Some(c) =>
      ProdutoChecksMeaning(c);
      FirstFailure(ProdutoChecks(c)).None?
  }

  /** The product check list holds exactly for well-formed products. */
  lemma ProdutoChecksMeaning(c: ProdutoCandidate)
    ensures (forall i :: 0 <= i < |ProdutoChecks(c)| ==> ProdutoChecks(c)[i].condicao)
            <==> ProdutoValido(c)
  {
    var checks := ProdutoChecks(c);
    if c.codigo.Some? { Text.TrimEmptyIffBlank(c.codigo.value); }
    if c.descricao.Some? { Text.TrimEmptyIffBlank(c.descricao.value); }
    if c.tipo.Some? { TiposProdutoAreTheCategories(c.tipo.value); }
    var all := checks[0].condicao && checks[1].condicao && checks[2].condicao
               && checks[3].condicao && checks[4].condicao;
    assert all <==> ProdutoValido(c);
    if all {
      forall i | 0 <= i < |checks| ensures checks[i].condicao {
        assert i == 0 || i == 1 || i == 2 || i == 3 || i == 4;
      }
    }
  }

  // --------------------------------------------------------------- movements

  function MovimentoChecks(m: MovimentoCandidate): seq<Check> {
    [ Check("produtoId", m.produtoId.Some? && m.produtoId.value > 0, ERRO_PRODUTO_ID),
      Check("tipo", m.tipo.Some? && m.tipo.value in TIPOS_MOVIMENTACAO, ERRO_TIPO_MOVIMENTACAO),
      Check("quantidade", m.quantidade.Some? && m.quantidade.value >= 1, ERRO_QUANTIDADE),
      Check("valorVenda", m.valorVenda.Some? && m.valorVenda.value >= 0.0, ERRO_VALOR_VENDA) ]
  }

  /** A well-formed movement: it references a product by a positive id, its
      kind is known, it moves at least one unit and its sale value is not
      negative. The date is not checked. */
  predicate MovimentoValido(c: MovimentoCandidate) {
    && c.produtoId.Some? && c.produtoId.value > 0
    && c.tipo.Some? && NamesTipoMovimentacao(c.tipo.value)
    && c.quantidade.Some? && c.quantidade.value >= 1
    && c.valorVenda.Some? && c.valorVenda.value >= 0.0
  }

  /** Reference statement of the movement check order: the message thrown is
      the one of the earliest field that is wrong. */
  function MovimentoVerdict(c: MovimentoCandidate): Verdict {
    if !(c.produtoId.Some? && c.produtoId.value > 0) then Throws(ERRO_PRODUTO_ID)
    else if !(c.tipo.Some? && NamesTipoMovimentacao(c.tipo.value)) then Throws(ERRO_TIPO_MOVIMENTACAO)
    else if !(c.quantidade.Some? && c.quantidade.value >= 1) then Throws(ERRO_QUANTIDADE)
    else if !(c.valorVenda.Some? && c.valorVenda.value >= 0.0) then Throws(ERRO_VALOR_VENDA)
    else Answer(true)
  }

  /** `validarMovimento`: `false` for an absent movement; otherwise it throws
      the message of the first failing check, and returns `true` only when
      the movement is well formed. */
  function ValidarMovimento(m: Option<MovimentoCandidate>): (v: Verdict)
    ensures m.None? ==> v == Answer(false)
    ensures m.Some? ==> v == MovimentoVerdict(m.value)
    ensures v == Answer(true) <==> m.Some? && MovimentoValido(m.value)
    ensures v.Throws? <==> m.Some? && !MovimentoValido(m.value)
  {
    match m
    case None => Answer(false)
    case Some(c) =>
      var checks := MovimentoChecks(c);
      var v := match FirstFailure(checks)
        case Some(i) => Throws(checks[i].erro)
        case None => Answer(true);
      MovimentoChecksOrder(c, v);
      v
  }

  /** Running the movement check list agrees with the reference order. */
  lemma MovimentoChecksOrder(c: MovimentoCandidate, v: Verdict)
    requires v == match FirstFailure(MovimentoChecks(c))
                  case Some(i) => Throws(MovimentoChecks(c)[i].erro)
                  case None => Answer(true)
    ensures v == MovimentoVerdict(c)
  {
    var checks := MovimentoChecks(c);
    if c.tipo.Some? { TiposMovimentacaoAreTheKinds(c.tipo.value); }
    match FirstFailure(checks)
    case Some(i) =>
      if i == 0 {
      } else if i == 1 {
        assert checks[0].condicao;
      } else if i == 2 {
        assert checks[0].condicao && checks[1].condicao;
      } else {
        assert i == 3;
        assert checks[0].condicao && checks[1].condicao && checks[2].condicao;
      }
    case None =>
      assert checks[0].condicao && checks[1].condicao && checks[2].condicao && checks[3].condicao;
  }

  /** A movement whose product and kind are fine but which moves no units is
      refused with the quantity message. */
  lemma QuantidadeZeroRefused(c: MovimentoCandidate)
    requires c.produtoId.Some? && c.produtoId.value > 0
    requires c.tipo.Some? && NamesTipoMovimentacao(c.tipo.value)
    requires c.quantidade == Some(0)
    ensures ValidarMovimento(Some(c)) == Throws(ERRO_QUANTIDADE)
  {
  }

  /** A zero quantity does not always produce the quantity message: an
      earlier failing check wins. */
  lemma QuantidadeZeroAfterBadProduto()
    ensures var c := MovimentoCandidate(Some(0), None, Some("ENTRADA"), Some(1.0), Some(0), None);
            ValidarMovimento(Some(c)) == Throws(ERRO_PRODUTO_ID)
  {
  }
}
