/** The stock-movement store: the same action pattern as the product store,
    with a replace rule for loads and an append rule for creation that, unlike
    the product store, does not look at the response's id. */
module MovimentoStore {
  import opened Wrappers
  import opened Domain
  import Validation
  import Gateway

  const ERRO_CARREGAR := "Erro ao carregar movimentos"
  const ERRO_BUSCAR := "Erro ao buscar movimento"
  const ERRO_CRIAR := "Erro ao criar movimento"
  const ERRO_LISTAR := "Erro ao listar movimentos do produto"

  datatype State = State(
    movimentos: seq<Movimento>,
    movimentoSelecionado: Option<Movimento>,
    carregando: bool,
    erro: Option<string>)

  /** One action: the state observed while its service call is in flight,
      the state after the call settles, and how the action ended for its
      caller. */
  datatype Step<+T> = Step(pending: State, state: State, exit: Exit<T>)

  /** The state observed while the service call is in flight. */
  function Pendente(s: State): State {
    s.(carregando := true)
  }

  /** `p` is `s` with the loading flag raised and nothing else changed. */
  predicate InFlight(s: State, p: State) {
    p.carregando && p.(carregando := s.carregando) == s
  }

  /** `carregarMovimentos`: the list is replaced by the response; a failure
      is recorded and swallowed. */
  function CarregarMovimentos(s: State, reply: Result<seq<Movimento>, Failure>): (r: Step<()>)
    ensures InFlight(s, r.pending)
    ensures !r.state.carregando && r.exit == Completed
    ensures r.state.movimentoSelecionado == s.movimentoSelecionado
    ensures reply.Ok? ==> r.state.movimentos == reply.value && r.state.erro == None
    ensures reply.Err? ==> r.state.movimentos == s.movimentos && r.state.erro == Some(ERRO_CARREGAR)
  {
    var p := Pendente(s);
    match reply
    case Ok(data) => Step(p, p.(movimentos := data, erro := None, carregando := false), Completed)
    case Err(_) => Step(p, p.(erro := Some(ERRO_CARREGAR), carregando := false), Completed)
  }

  /** `buscarPorId`: only the selection changes; a failure is recorded and
      swallowed. */
  function BuscarPorId(s: State, reply: Result<Movimento, Failure>): (r: Step<()>)
    ensures InFlight(s, r.pending)
    ensures !r.state.carregando && r.exit == Completed
    ensures r.state.movimentos == s.movimentos
    ensures reply.Ok? ==> r.state.movimentoSelecionado == Some(reply.value) && r.state.erro == None
    ensures reply.Err? ==>
              r.state.movimentoSelecionado == s.movimentoSelecionado && r.state.erro == Some(ERRO_BUSCAR)
  {
    var p := Pendente(s);
    match reply
    case Ok(data) => Step(p, p.(movimentoSelecionado := Some(data), erro := None, carregando := false), Completed)
    case Err(_) => Step(p, p.(erro := Some(ERRO_BUSCAR), carregando := false), Completed)
  }

  /** `criarMovimento`: any successful response is appended and returned,
      id or not; a failure leaves the list alone, is recorded and re-raised. */
  function CriarMovimento(s: State, reply: Result<Movimento, Failure>): (r: Step<Movimento>)
    ensures InFlight(s, r.pending)
    ensures !r.state.carregando
    ensures r.state.movimentoSelecionado == s.movimentoSelecionado
    ensures reply.Ok? ==>
              r.exit == Returned(reply.value) && r.state.erro == None
              && |r.state.movimentos| == |s.movimentos| + 1
              && r.state.movimentos[..|s.movimentos|] == s.movimentos
              && r.state.movimentos[|s.movimentos|] == reply.value
    ensures reply.Err? ==>
              r.exit == Raised(reply.error) && r.state.movimentos == s.movimentos
              && r.state.erro == Some(ERRO_CRIAR)
  {
    var p := Pendente(s);
    match reply
    case Ok(data) =>
      var ms := p.movimentos + [data];
      assert ms[..|s.movimentos|] == s.movimentos;
      Step(p, p.(movimentos := ms, erro := None, carregando := false), Returned(data))
    case Err(e) => Step(p, p.(erro := Some(ERRO_CRIAR), carregando := false), Raised(e))
  }

  /** `listarPorProduto`: the list is replaced by the product's movements;
      a failure is recorded and swallowed. */
  function ListarPorProduto(s: State, reply: Result<seq<Movimento>, Failure>): (r: Step<()>)
    ensures InFlight(s, r.pending)
    ensures !r.state.carregando && r.exit == Completed
    ensures r.state.movimentoSelecionado == s.movimentoSelecionado
    ensures reply.Ok? ==> r.state.movimentos == reply.value && r.state.erro == None
    ensures reply.Err? ==> r.state.movimentos == s.movimentos && r.state.erro == Some(ERRO_LISTAR)
  {
    var p := Pendente(s);
    match reply
    case Ok(data) => Step(p, p.(movimentos := data, erro := None, carregando := false), Completed)
    case Err(_) => Step(p, p.(erro := Some(ERRO_LISTAR), carregando := false), Completed)
  }

  // ------------------------------------------------------------------ lemmas

  /** A movement refused by validation reaches the store as a failure: no
      request, list unchanged, the validator's message re-raised. */
  lemma ValidationFailureReachesStore(s: State, c: MovimentoCandidate, now: string,
                                      net: Result<Movimento, Failure>)
    requires !Validation.MovimentoValido(c)
    ensures var call := Gateway.CriarMovimento(Some(c), now, net);
            var r := CriarMovimento(s, call.reply);
            && call.request.None?
            && r.state.movimentos == s.movimentos
            && r.state.erro == Some(ERRO_CRIAR)
            && r.exit == Raised(ErrorMessage(Validation.MovimentoVerdict(c).message))
  {
  }

  /** The quantity-zero case end to end: a movement of a valid product and
      kind but no units is refused with the quantity message. */
  lemma QuantidadeZeroReachesStore(s: State, c: MovimentoCandidate, now: string,
                                   net: Result<Movimento, Failure>)
    requires c.produtoId.Some? && c.produtoId.value > 0
    requires c.tipo.Some? && NamesTipoMovimentacao(c.tipo.value)
    requires c.quantidade == Some(0)
    ensures var r := CriarMovimento(s, Gateway.CriarMovimento(Some(c), now, net).reply);
            r.state.movimentos == s.movimentos
            && r.exit == Raised(ErrorMessage(Validation.ERRO_QUANTIDADE))
  {
    Validation.QuantidadeZeroRefused(c);
  }

  /** A valid movement sent without a date is stored as the backend echoes
      it, after a POST whose body is dated `now`. */
  lemma CreateDefaultsDate(s: State, c: MovimentoCandidate, now: string, answer: Movimento)
    requires Validation.MovimentoValido(c) && Gateway.DataAusente(c.dataMovimentacao)
    ensures var call := Gateway.CriarMovimento(Some(c), now, Ok(answer));
            && call.request.Some? && call.request.value.Post?
            && call.request.value.body.MovimentoBody?
            && call.request.value.body.movimento.dataMovimentacao == now
            && CriarMovimento(s, call.reply).state.movimentos == s.movimentos + [answer]
  {
  }

  /** When the backend answers, the last list wins: a full load followed by
      a per-product listing leaves the per-product answer. */
  lemma LastListWins(s: State, a: seq<Movimento>, b: seq<Movimento>)
    ensures var r := ListarPorProduto(CarregarMovimentos(s, Ok(a)).state, Ok(b)).state;
            r.movimentos == b && r.erro == None && !r.carregando
  {
  }

  /** Loading through the service: the list becomes the backend's answer,
      or stays as it was with the load message when the backend fails. */
  lemma LoadThroughService(s: State, net: Result<seq<Movimento>, Failure>)
    ensures var r := CarregarMovimentos(s, Gateway.ListarMovimentos(net).reply);
            && r.exit == Completed
            && (net.Ok? ==> r.state.movimentos == net.value && r.state.erro == None)
            && (net.Err? ==> r.state.movimentos == s.movimentos && r.state.erro == Some(ERRO_CARREGAR))
  {
  }

  /** Listing a product's movements through the service: the list becomes
      the backend's answer, or stays as it was with the listing message. */
  lemma ListThroughService(s: State, produtoId: int, net: Result<seq<Movimento>, Failure>)
    ensures var r := ListarPorProduto(s, Gateway.ListarPorProduto(produtoId, net).reply);
            && r.exit == Completed
            && (net.Ok? ==> r.state.movimentos == net.value && r.state.erro == None)
            && (net.Err? ==> r.state.movimentos == s.movimentos && r.state.erro == Some(ERRO_LISTAR))
  {
  }

  /** Looking up through the service selects the backend's answer, or keeps
      the old selection when the backend fails. */
  lemma LookupThroughService(s: State, id: int, net: Result<Movimento, Failure>)
    ensures var r := BuscarPorId(s, Gateway.BuscarMovimento(id, net).reply);
            && r.exit == Completed
            && (net.Ok? ==> r.state.movimentoSelecionado == Some(net.value))
            && (net.Err? ==> r.state.movimentoSelecionado == s.movimentoSelecionado)
  {
  }

  /** A lookup never changes what a following create does to the list, nor
      how it ends. */
  lemma LookupInvisibleToCreate(s: State, b: Result<Movimento, Failure>, c: Result<Movimento, Failure>)
    ensures var t := BuscarPorId(s, b).state;
            && CriarMovimento(t, c).state.movimentos == CriarMovimento(s, c).state.movimentos
            && CriarMovimento(t, c).exit == CriarMovimento(s, c).exit
  {
  }
}
