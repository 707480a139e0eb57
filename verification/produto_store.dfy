/** The product store. Every action sets `carregando`, awaits one service
    call, applies its update rule or records a fixed message in `erro`, and
    finally clears `carregando`. The awaited call's settlement is the
    `reply` parameter, so each action is a pure transition. */
module ProdutoStore {
  import opened Wrappers
  import opened Domain
  import Text
  import Validation
  import Gateway

  const ERRO_CARREGAR := "Erro ao carregar produtos"
  const ERRO_BUSCAR := "Erro ao buscar produto"
  const ERRO_CRIAR := "Erro ao criar produto"
  const ERRO_ATUALIZAR := "Erro ao atualizar produto"
  const ERRO_DELETAR := "Erro ao deletar produto"
  const CRIADO_SEM_ID := "Produto criado sem id definido"
  const ATUALIZADO_SEM_ID := "Produto atualizado sem id definido"

  datatype State = State(
    produtos: seq<ProdutoDto>,
    produtoSelecionado: Option<ProdutoDto>,
    carregando: bool,
    erro: Option<string>)

  const Inicial := State([], None, false, None)

  /** One action: the state observed while its service call is in flight,
      the state after the call settles, and how the action ended for its
      caller. */
  datatype Step<+T> = Step(pending: State, state: State, exit: Exit<T>)

  /** The state observed while the service call is in flight. */
  function Pendente(s: State): State {
    s.(carregando := true)
  }

  /** `p` is `s` with the loading flag raised and nothing else changed. */
  predicate InFlight(s: State, p: State) {
    p.carregando && p.(carregando := s.carregando) == s
  }

  /** Every product held has a server-assigned id. */
  predicate AllHaveIds(ps: seq<ProdutoDto>) {
    forall i :: 0 <= i < |ps| ==> HasId(ps[i])
  }

  /** `findIndex(p => p.id === id)`: the first position holding `id`, or -1. */
  function IndexOf(ps: seq<ProdutoDto>, id: int): (r: int)
    ensures -1 <= r < |ps|
    ensures r == -1 <==> forall j :: 0 <= j < |ps| ==> ps[j].id != Some(id)
    ensures r >= 0 ==> ps[r].id == Some(id)
    ensures r >= 0 ==> forall j :: 0 <= j < r ==> ps[j].id != Some(id)
  {
    if |ps| == 0 then -1
    else if ps[0].id == Some(id) then 0
    else
      var k := IndexOf(ps[1..], id);
      if k == -1 then -1 else k + 1
  }

  /** `filter(p => p.id !== id)`: each product keeps its multiplicity
      unless it holds `id`, in which case none remains. */
  function Without(ps: seq<ProdutoDto>, id: int): (r: seq<ProdutoDto>)
    ensures |r| <= |ps|
    ensures forall x :: multiset(r)[x] == if x.id == Some(id) then 0 else multiset(ps)[x]
  {
    if |ps| == 0 then []
    else
      assert ps == [ps[0]] + ps[1..];
      if ps[0].id == Some(id) then Without(ps[1..], id)
      else [ps[0]] + Without(ps[1..], id)
  }

  /** Filtering distributes over concatenation, so relative order is kept. */
  lemma {:induction false} WithoutConcat(a: seq<ProdutoDto>, b: seq<ProdutoDto>, id: int)
    ensures Without(a + b, id) == Without(a, id) + Without(b, id)
  {
    if |a| == 0 {
      assert a + b == b;
    } else {
      assert (a + b)[1..] == a[1..] + b;
      WithoutConcat(a[1..], b, id);
    }
  }

  /** Nothing is removed when no product holds `id`. */
  lemma {:induction false} WithoutAbsent(ps: seq<ProdutoDto>, id: int)
    requires forall j :: 0 <= j < |ps| ==> ps[j].id != Some(id)
    ensures Without(ps, id) == ps
  {
    if |ps| > 0 {
      WithoutAbsent(ps[1..], id);
    }
  }

  // ----------------------------------------------------------------- actions

  /** `carregarProdutos`: the list is replaced by the response; a failure
      is recorded and swallowed. */
  function CarregarProdutos(s: State, reply: Result<seq<ProdutoDto>, Failure>): (r: Step<()>)
    ensures InFlight(s, r.pending)
    ensures !r.state.carregando && r.exit == Completed
    ensures r.state.produtoSelecionado == s.produtoSelecionado
    ensures reply.Ok? ==> r.state.produtos == reply.value && r.state.erro == None
    ensures reply.Err? ==> r.state.produtos == s.produtos && r.state.erro == Some(ERRO_CARREGAR)
  {
    var p := Pendente(s);
    match reply
    case Ok(data) => Step(p, p.(produtos := data, erro := None, carregando := false), Completed)
    case Err(_) => Step(p, p.(erro := Some(ERRO_CARREGAR), carregando := false), Completed)
  }

  /** `buscarPorId`: only the selection changes; a failure is recorded and
      swallowed. */
  function BuscarPorId(s: State, reply: Result<ProdutoDto, Failure>): (r: Step<()>)
    ensures InFlight(s, r.pending)
    ensures !r.state.carregando && r.exit == Completed
    ensures r.state.produtos == s.produtos
    ensures reply.Ok? ==> r.state.produtoSelecionado == Some(reply.value) && r.state.erro == None
    ensures reply.Err? ==>
              r.state.produtoSelecionado == s.produtoSelecionado && r.state.erro == Some(ERRO_BUSCAR)
  {
    var p := Pendente(s);
    match reply
    case Ok(data) => Step(p, p.(produtoSelecionado := Some(data), erro := None, carregando := false), Completed)
    case Err(_) => Step(p, p.(erro := Some(ERRO_BUSCAR), carregando := false), Completed)
  }

  /** `criarProduto`: a response with an id is appended and returned; a
      response without one, or a failed call, leaves the list alone,
      records the message and re-raises. */
  function CriarProduto(s: State, reply: Result<ProdutoDto, Failure>): (r: Step<ProdutoDto>)
    ensures InFlight(s, r.pending)
    ensures !r.state.carregando
    ensures r.state.produtoSelecionado == s.produtoSelecionado
    ensures r.exit.Returned? <==> reply.Ok? && HasId(reply.value)
    ensures r.exit.Returned? ==>
              r.exit.value == reply.value && r.state.produtos == s.produtos + [reply.value]
              && r.state.erro == None
    ensures !r.exit.Returned? ==>
              r.exit.Raised? && r.state.produtos == s.produtos && r.state.erro == Some(ERRO_CRIAR)
    ensures reply.Err? ==> r.exit == Raised(reply.error)
    ensures reply.Ok? && !HasId(reply.value) ==> r.exit == Raised(ErrorMessage(CRIADO_SEM_ID))
  {
    var p := Pendente(s);
    match reply
    case Err(e) => Step(p, p.(erro := Some(ERRO_CRIAR), carregando := false), Raised(e))
    case Ok(data) =>
      if HasId(data) then
        Step(p, p.(produtos := p.produtos + [data], erro := None, carregando := false), Returned(data))
      else
        Step(p, p.(erro := Some(ERRO_CRIAR), carregando := false), Raised(ErrorMessage(CRIADO_SEM_ID)))
  }

  /** `atualizarProduto`: the first product holding `id` is replaced by the
      response, provided the response has an id; with no product holding
      `id` the list is left alone and the call still succeeds. */
  function AtualizarProduto(s: State, id: int, reply: Result<ProdutoDto, Failure>): (r: Step<ProdutoDto>)
    ensures InFlight(s, r.pending)
    ensures !r.state.carregando
    ensures r.state.produtoSelecionado == s.produtoSelecionado
    ensures |r.state.produtos| == |s.produtos|
    ensures r.exit.Returned? <==>
              reply.Ok? && (HasId(reply.value) || IndexOf(s.produtos, id) == -1)
    ensures r.exit.Returned? ==> r.exit.value == reply.value && r.state.erro == None
    ensures r.exit.Returned? && IndexOf(s.produtos, id) >= 0 ==>
              r.state.produtos == s.produtos[IndexOf(s.produtos, id) := reply.value]
    ensures IndexOf(s.produtos, id) == -1 || !r.exit.Returned? ==> r.state.produtos == s.produtos
    ensures !r.exit.Returned? ==> r.exit.Raised? && r.state.erro == Some(ERRO_ATUALIZAR)
    ensures reply.Err? ==> r.exit == Raised(reply.error)
    ensures reply.Ok? && !HasId(reply.value) && IndexOf(s.produtos, id) >= 0 ==>
              r.exit == Raised(ErrorMessage(ATUALIZADO_SEM_ID))
  {
    var p := Pendente(s);
    match reply
    case Err(e) => Step(p, p.(erro := Some(ERRO_ATUALIZAR), carregando := false), Raised(e))
    case Ok(data) =>
      var index := IndexOf(p.produtos, id);
      if index == -1 then
        Step(p, p.(erro := None, carregando := false), Returned(data))
      else if HasId(data) then
        Step(p, p.(produtos := p.produtos[index := data], erro := None, carregando := false), Returned(data))
      else
        Step(p, p.(erro := Some(ERRO_ATUALIZAR), carregando := false), Raised(ErrorMessage(ATUALIZADO_SEM_ID)))
  }

  /** `deletarProduto`: after a confirmed deletion no product holding `id`
      remains and every other one survives in order; a failure leaves the
      list alone, is recorded and re-raised. */
  function DeletarProduto(s: State, id: int, reply: Result<(), Failure>): (r: Step<()>)
    ensures InFlight(s, r.pending)
    ensures !r.state.carregando
    ensures r.state.produtoSelecionado == s.produtoSelecionado
    ensures reply.Ok? ==> r.exit == Completed && r.state.erro == None
    ensures reply.Ok? ==> r.state.produtos == Without(s.produtos, id)
    ensures reply.Ok? ==> forall x :: x in r.state.produtos <==> x in s.produtos && x.id != Some(id)
    ensures reply.Err? ==>
              r.exit == Raised(reply.error) && r.state.produtos == s.produtos && r.state.erro == Some(ERRO_DELETAR)
  {
    var p := Pendente(s);
    match reply
    case Ok(_) => Step(p, p.(produtos := Without(p.produtos, id), erro := None, carregando := false), Completed)
    case Err(e) => Step(p, p.(erro := Some(ERRO_DELETAR), carregando := false), Raised(e))
  }

  // ------------------------------------------------------------------ lemmas

  /** Create, update and delete keep "every product has an id", whatever
      the backend answers. Loads do not (see `LoadDoesNotCheckIds`). */
  lemma IdsPreserved(s: State, id: int, p: Result<ProdutoDto, Failure>, u: Result<(), Failure>)
    requires AllHaveIds(s.produtos)
    ensures AllHaveIds(CriarProduto(s, p).state.produtos)
    ensures AllHaveIds(AtualizarProduto(s, id, p).state.produtos)
    ensures AllHaveIds(DeletarProduto(s, id, u).state.produtos)
  {
  }

  /** When the backend answers, the last load wins: two successful loads in
      a row leave the second answer, with no error. */
  lemma LastLoadWins(s: State, a: seq<ProdutoDto>, b: seq<ProdutoDto>)
    ensures var r := CarregarProdutos(CarregarProdutos(s, Ok(a)).state, Ok(b)).state;
            r.produtos == b && r.erro == None && !r.carregando
  {
  }

  /** After an update that replaced a product, looking up `id` finds the
      response at the same position. */
  lemma UpdateThenFind(s: State, id: int, data: ProdutoDto)
    requires IndexOf(s.produtos, id) >= 0 && data.id == Some(id)
    ensures var ps := AtualizarProduto(s, id, Ok(data)).state.produtos;
            IndexOf(ps, id) == IndexOf(s.produtos, id) && ps[IndexOf(ps, id)] == data
  {
    var i := IndexOf(s.produtos, id);
    var ps := AtualizarProduto(s, id, Ok(data)).state.produtos;
    assert ps == s.produtos[i := data];
    assert ps[i].id == Some(id);
    assert forall j :: 0 <= j < i ==> ps[j] == s.produtos[j];
  }

  /** Deleting what was just created restores the list, when the new id
      was not already held. */
  lemma CreateThenDelete(s: State, data: ProdutoDto)
    requires HasId(data)
    requires forall j :: 0 <= j < |s.produtos| ==> s.produtos[j].id != data.id
    ensures var c := CriarProduto(s, Ok(data)).state;
            DeletarProduto(c, data.id.value, Ok(())).state.produtos == s.produtos
  {
    var k := data.id.value;
    WithoutConcat(s.produtos, [data], k);
    WithoutAbsent(s.produtos, k);
    assert Without([data], k) == [];
  }

  /** Deleting 7 from products holding 3, 7 and 9 leaves 3 and 9. */
  lemma DeleteExample(s: State, p3: ProdutoDto, p7: ProdutoDto, p9: ProdutoDto)
    requires p3.id == Some(3) && p7.id == Some(7) && p9.id == Some(9)
    requires s.produtos == [p3, p7, p9]
    ensures DeletarProduto(s, 7, Ok(())).state.produtos == [p3, p9]
  {
    var ps := [p3, p7, p9];
    assert ps[1..] == [p7, p9] && ps[1..][1..] == [p9] && ps[1..][1..][1..] == [];
    assert Without([p9], 7) == [p9];
    assert Without([p7, p9], 7) == [p9];
  }

  /** A product refused by validation never reaches the list: nothing is
      sent, the generic message is re-raised, create and update both. */
  lemma InvalidProdutoNeverStored(s: State, id: int, p: Option<ProdutoCandidate>,
                                  net: Result<ProdutoDto, Failure>)
    requires !Validation.ValidarProduto(p)
    ensures var call := Gateway.CriarProduto(p, net);
            var r := CriarProduto(s, call.reply);
            && call.request.None?
            && r.state.produtos == s.produtos && r.state.erro == Some(ERRO_CRIAR)
            && r.exit == Raised(ErrorMessage(Gateway.DADOS_INVALIDOS))
    ensures var call := Gateway.AtualizarProduto(id, p, net);
            var r := AtualizarProduto(s, id, call.reply);
            && call.request.None?
            && r.state.produtos == s.produtos && r.state.erro == Some(ERRO_ATUALIZAR)
            && r.exit == Raised(ErrorMessage(Gateway.DADOS_INVALIDOS))
  {
  }

  /** Creating the product A1 "Widget" end to end: one POST with the
      formatted body, and the backend's answer, which carries an id, is the
      one product appended; loading is over. */
  lemma CreateExample(s: State, answer: ProdutoDto)
    requires HasId(answer)
    ensures var c := ProdutoCandidate(Some("A1"), Some("Widget"), Some("ELETRONICO"), Some(10.0), Some(5));
            var call := Gateway.CriarProduto(Some(c), Ok(answer));
            var r := CriarProduto(s, call.reply);
            && call.request == Some(Gateway.Post(Gateway.Produtos,
                 Gateway.ProdutoBody(ProdutoPayload("A1", "Widget", ELETRONICO, 10.0, 5))))
            && r.state.produtos == s.produtos + [answer]
            && !r.state.carregando && r.state.erro == None
  {
    var c := ProdutoCandidate(Some("A1"), Some("Widget"), Some("ELETRONICO"), Some(10.0), Some(5));
    WidgetIsValid(c);
    var call := Gateway.CriarProduto(Some(c), Ok(answer));
    assert call.reply == Ok(answer);
  }

  /** The A1 "Widget" candidate passes validation and is sent as typed. */
  lemma WidgetIsValid(c: ProdutoCandidate)
    requires c == ProdutoCandidate(Some("A1"), Some("Widget"), Some("ELETRONICO"), Some(10.0), Some(5))
    ensures Validation.ValidarProduto(Some(c))
    ensures Gateway.FormatarProduto(c) == ProdutoPayload("A1", "Widget", ELETRONICO, 10.0, 5)
  {
    WidgetFieldsValid(c);
    Text.TrimFixesTrimmed("A1");
    Text.TrimFixesTrimmed("Widget");
    assert ParseTipoProduto("ELETRONICO") == ELETRONICO;
  }

  lemma WidgetFieldsValid(c: ProdutoCandidate)
    requires c == ProdutoCandidate(Some("A1"), Some("Widget"), Some("ELETRONICO"), Some(10.0), Some(5))
    ensures Validation.ProdutoValido(c)
    ensures Text.IsTrimmed("A1") && Text.IsTrimmed("Widget")
  {
    assert TipoProdutoNome(ELETRONICO) == "ELETRONICO";
    assert !Text.IsWhitespace("A1"[0]) && !Text.IsWhitespace("A1"[1]);
    assert !Text.IsWhitespace("Widget"[0]) && !Text.IsWhitespace("Widget"[5]);
  }

  /** A creation whose answer lacks an id is an error for the store even
      though the request went through. */
  lemma CreateWithoutIdExample(s: State, answer: ProdutoDto)
    requires !HasId(answer)
    ensures var r := CriarProduto(s, Ok(answer));
            && r.state.produtos == s.produtos && r.state.erro == Some(ERRO_CRIAR)
            && r.exit == Raised(ErrorMessage(CRIADO_SEM_ID)) && !r.state.carregando
  {
  }

  /** Deleting through the service: the list is filtered exactly when the
      backend confirms, and the backend's error is re-raised otherwise. */
  lemma DeleteThroughService<T>(s: State, id: int, net: Result<T, Failure>)
    ensures var r := DeletarProduto(s, id, Gateway.RemoverProduto(id, net).reply);
            && (net.Ok? ==> r.state.produtos == Without(s.produtos, id) && r.exit == Completed)
            && (net.Err? ==> r.state.produtos == s.produtos && r.exit == Raised(net.error))
  {
  }

  /** Loading through the service: the list becomes the backend's answer,
      or stays as it was with the load message when the backend fails. */
  lemma LoadThroughService(s: State, net: Result<seq<ProdutoDto>, Failure>)
    ensures var r := CarregarProdutos(s, Gateway.ListarProdutos(net).reply);
            && r.exit == Completed
            && (net.Ok? ==> r.state.produtos == net.value && r.state.erro == None)
            && (net.Err? ==> r.state.produtos == s.produtos && r.state.erro == Some(ERRO_CARREGAR))
  {
  }

  /** Looking up through the service selects the backend's answer, or keeps
      the old selection when the backend fails. */
  lemma LookupThroughService(s: State, id: int, net: Result<ProdutoDto, Failure>)
    ensures var r := BuscarPorId(s, Gateway.BuscarProduto(id, net).reply);
            && r.exit == Completed
            && (net.Ok? ==> r.state.produtoSelecionado == Some(net.value))
            && (net.Err? ==> r.state.produtoSelecionado == s.produtoSelecionado)
  {
  }

  /** A lookup never changes what a following create, update or delete
      does to the list, nor how it ends. */
  lemma LookupInvisibleToMutations(s: State, b: Result<ProdutoDto, Failure>, id: int,
                                   c: Result<ProdutoDto, Failure>, d: Result<(), Failure>)
    ensures var t := BuscarPorId(s, b).state;
            && CriarProduto(t, c).state.produtos == CriarProduto(s, c).state.produtos
            && CriarProduto(t, c).exit == CriarProduto(s, c).exit
            && AtualizarProduto(t, id, c).state.produtos == AtualizarProduto(s, id, c).state.produtos
            && AtualizarProduto(t, id, c).exit == AtualizarProduto(s, id, c).exit
            && DeletarProduto(t, id, d).state.produtos == DeletarProduto(s, id, d).state.produtos
            && DeletarProduto(t, id, d).exit == DeletarProduto(s, id, d).exit
  {
  }

  /** A create, update or delete, with the reply its service call settled to. */
  datatype Mutacao =
    | Criar(criado: Result<ProdutoDto, Failure>)
    | Atualizar(id: int, atualizado: Result<ProdutoDto, Failure>)
    | Deletar(id: int, removido: Result<(), Failure>)

  function Aplicar(s: State, m: Mutacao): State {
    match m
    case Criar(c) => CriarProduto(s, c).state
    case Atualizar(id, u) => AtualizarProduto(s, id, u).state
    case Deletar(id, d) => DeletarProduto(s, id, d).state
  }

  /** The state after the mutations run one after the other. */
  function AplicarTodas(s: State, ms: seq<Mutacao>): State
    decreases |ms|
  {
    if |ms| == 0 then s else AplicarTodas(Aplicar(s, ms[0]), ms[1..])
  }

  /** Any run of creates, updates and deletes keeps "every product has an
      id", whatever the backend answers. */
  lemma {:induction false} MutationsKeepIds(s: State, ms: seq<Mutacao>)
    requires AllHaveIds(s.produtos)
    ensures AllHaveIds(AplicarTodas(s, ms).produtos)
    decreases |ms|
  {
    if |ms| > 0 {
      match ms[0] {
        case Criar(c) => IdsPreserved(s, 0, c, Ok(()));
        case Atualizar(id, u) => IdsPreserved(s, id, u, Ok(()));
        case Deletar(id, d) => IdsPreserved(s, id, Err(NullAccess), d);
      }
      MutationsKeepIds(Aplicar(s, ms[0]), ms[1..]);
    }
  }

  /** Starting from the store's initial state, the products held after any
      run of creates, updates and deletes all have ids. */
  lemma FromInicialAllHaveIds(ms: seq<Mutacao>)
    ensures AllHaveIds(AplicarTodas(Inicial, ms).produtos)
  {
    MutationsKeepIds(Inicial, ms);
  }

  /** Loads do not check ids: a loaded answer holding an id-less product
      breaks "every product has an id". */
  lemma LoadDoesNotCheckIds(s: State, p: ProdutoDto)
    requires !HasId(p)
    ensures !AllHaveIds(CarregarProdutos(s, Ok([p])).state.produtos)
  {
    assert CarregarProdutos(s, Ok([p])).state.produtos[0] == p;
  }
}
