/** The request handlers of internal/negocio/handler.go, reduced to what they decide:
    the funnel-status gate in front of create and full update, and the mapping of each
    repository result to an HTTP response. Request parsing is not modelled: each handler
    receives the already-parsed ID and payload. */
module NegocioHandler {
  import opened Resultado
  import opened Negocio
  import R = NegocioRepositorio

  /** The responses the handlers write. */
  datatype Resposta =
    | BadRequest(erro: string)
    | NotFound(erro: string)
    | Created(negocio: Negocio)
    | OK(negocio: Negocio)
    | OKLista(negocios: seq<Negocio>)
    | NoContent

  /** The HTTP status code of a response. */
  function Codigo(r: Resposta): int
  {
    match r
    case BadRequest(_) => 400
    case NotFound(_) => 404
    case Created(_) => 201
    case OK(_) => 200
    case OKLista(_) => 200
    case NoContent => 204
  }

  /** The error text of a rejected status. */
  const StatusInvalido: string := "Status de funil inválido"

  /** Every stored deal has a funnel status. */
  predicate TodosNoFunil(s: seq<Negocio>)
  {
    forall k :: 0 <= k < |s| ==> StatusDoFunil(s[k].Status)
  }

  /** The gate: a linear scan of `FunilOpcoes` that stops at the first equal entry. */
  method ValidarStatus(status: string) returns (valid: bool)
    ensures valid <==> exists k :: 0 <= k < |FunilOpcoes| && FunilOpcoes[k] == status
    ensures valid == StatusDoFunil(status)
  {
    valid := false;
    var k := 0;
    while k < |FunilOpcoes|
      invariant 0 <= k <= |FunilOpcoes|
      invariant forall j :: 0 <= j < k ==> FunilOpcoes[j] != status
    {
      if FunilOpcoes[k] == status {
        valid := true;
        break;
      }
      k := k + 1;
    }
  }

  // ---------------------------------------------------------------------------
  // Dispatch: repository result to response
  // ---------------------------------------------------------------------------

  /** Create: the stored deal as 201, a repository error as 400. */
  function RespostaCriar(r: Result<Negocio, R.Erro>): Resposta
  {
    match r
    case Ok(n) => Created(n)
    case Err(e) => BadRequest(R.Mensagem(e))
  }

  /** Updates: the returned deal as 200, a repository error as 404. */
  function RespostaRegistro(r: Result<Negocio, R.Erro>): Resposta
  {
    match r
    case Ok(n) => OK(n)
    case Err(e) => NotFound(R.Mensagem(e))
  }

  /** Delete: 204 with no body, a repository error as 404. */
  function RespostaDeletar(r: Result<(), R.Erro>): Resposta
  {
    match r
    case Ok(_) => NoContent
    case Err(e) => NotFound(R.Mensagem(e))
  }

  // ---------------------------------------------------------------------------
  // Each endpoint as a function of the table before the request
  // ---------------------------------------------------------------------------

  /** Response and new table of `CriarNegocio` on table `s`. */
  function CriarNegocioEm(s: seq<Negocio>, novo: Negocio): (Resposta, seq<Negocio>)
  {
    if !StatusDoFunil(novo.Status) then (BadRequest(StatusInvalido), s)
    else var (r, s') := R.AdicionarEm(s, novo); (RespostaCriar(r), s')
  }

  /** Response and new table of `AtualizarNegocio` on table `s`. */
  function AtualizarNegocioEm(s: seq<Negocio>, id: int, updated: Negocio): (Resposta, seq<Negocio>)
  {
    if !StatusDoFunil(updated.Status) then (BadRequest(StatusInvalido), s)
    else var (r, s') := R.AtualizarEm(s, id, updated); (RespostaRegistro(r), s')
  }

  /** Response and new table of `AtualizarStatusHandler` on table `s`: no gate. */
  function AtualizarStatusHandlerEm(s: seq<Negocio>, id: int, status: string): (Resposta, seq<Negocio>)
  {
    var (r, s') := R.AtualizarStatusEm(s, id, status); (RespostaRegistro(r), s')
  }

  /** Response and new table of `AtualizarTarefaHandler` on table `s`. */
  function AtualizarTarefaHandlerEm(s: seq<Negocio>, id: int, tarefa: string): (Resposta, seq<Negocio>)
  {
    var (r, s') := R.AtualizarTarefaEm(s, id, tarefa); (RespostaRegistro(r), s')
  }

  /** Response and new table of `DeletarNegocio` on table `s`. */
  function DeletarNegocioEm(s: seq<Negocio>, id: int): (Resposta, seq<Negocio>)
  {
    var (r, s') := R.DeletarEm(s, id); (RespostaDeletar(r), s')
  }

  // ---------------------------------------------------------------------------
  // The handler object
  // ---------------------------------------------------------------------------

  /** A handler bound to one repository. */
  class Handler {
    const repo: R.Repositorio

    constructor (repo: R.Repositorio)
      ensures this.repo == repo
    {
      this.repo := repo;
    }

    /** Rejects a status outside the funnel before touching the repository; otherwise adds. */
    method CriarNegocio(novoNegocio: Negocio) returns (resp: Resposta)
      modifies repo
      ensures (resp, repo.negocios) == CriarNegocioEm(old(repo.negocios), novoNegocio)
    {
      var valid := ValidarStatus(novoNegocio.Status);
      if !valid {
        return BadRequest(StatusInvalido);
      }
      var r := repo.Adicionar(novoNegocio);
      return RespostaCriar(r);
    }

    /** Lists the whole table. */
    method ListarNegocios() returns (resp: Resposta)
      ensures resp == OKLista(repo.negocios)
    {
      var todos := repo.Listar();
      return OKLista(todos);
    }

    /** Looks one deal up: 200 with the first match, 404 "Negocio not found" otherwise. */
    method ObterNegocio(id: int) returns (resp: Resposta)
      ensures resp == RespostaRegistro(R.ObterEm(repo.negocios, id))
      ensures resp.OK? <==> exists j :: 0 <= j < |repo.negocios| && repo.negocios[j].ID == id
      ensures resp.NotFound? ==> resp.erro == "Negocio not found"
    {
      var r := repo.ObterPorID(id);
      return RespostaRegistro(r);
    }

    /** Rejects a status outside the funnel before any lookup; otherwise replaces. */
    method AtualizarNegocio(id: int, updated: Negocio) returns (resp: Resposta)
      modifies repo
      ensures (resp, repo.negocios) == AtualizarNegocioEm(old(repo.negocios), id, updated)
    {
      var valid := ValidarStatus(updated.Status);
      if !valid {
        return BadRequest(StatusInvalido);
      }
      var r := repo.Atualizar(id, updated);
      return RespostaRegistro(r);
    }

    /** Writes any status, listed or not. */
    method AtualizarStatusHandler(id: int, status: string) returns (resp: Resposta)
      modifies repo
      ensures (resp, repo.negocios) == AtualizarStatusHandlerEm(old(repo.negocios), id, status)
    {
      var r := repo.AtualizarStatus(id, status);
      return RespostaRegistro(r);
    }

    /** Writes the task text of one deal. */
    method AtualizarTarefaHandler(id: int, tarefa: string) returns (resp: Resposta)
      modifies repo
      ensures (resp, repo.negocios) == AtualizarTarefaHandlerEm(old(repo.negocios), id, tarefa)
    {
      var r := repo.AtualizarTarefa(id, tarefa);
      return RespostaRegistro(r);
    }

    /** Deletes one deal. */
    method DeletarNegocio(id: int) returns (resp: Resposta)
      modifies repo
      ensures (resp, repo.negocios) == DeletarNegocioEm(old(repo.negocios), id)
    {
      var r := repo.Deletar(id);
      return RespostaDeletar(r);
    }
  }

  // ---------------------------------------------------------------------------
  // Properties of the endpoints
  // ---------------------------------------------------------------------------

  /** Create answers 201 exactly when the status is in the funnel, with the stored deal;
      otherwise 400 "Status de funil inválido" and the table is untouched. */
  lemma CriarResultado(s: seq<Negocio>, novo: Negocio)
    ensures CriarNegocioEm(s, novo).0.Created? <==> StatusDoFunil(novo.Status)
    ensures !StatusDoFunil(novo.Status) ==>
      CriarNegocioEm(s, novo) == (BadRequest("Status de funil inválido"), s) && Codigo(CriarNegocioEm(s, novo).0) == 400
    ensures StatusDoFunil(novo.Status) ==>
      var (resp, s') := CriarNegocioEm(s, novo);
      && Codigo(resp) == 201 && resp.negocio == novo.(ID := |s| + 1)
      && s' == s + [resp.negocio]
  {
  }

  /** Full update checks the status before any lookup: an invalid status gives 400 and
      leaves the table alone, whether or not the ID exists. */
  lemma AtualizarValidaAntesDeBuscar(s: seq<Negocio>, id: int, updated: Negocio)
    requires !StatusDoFunil(updated.Status)
    ensures AtualizarNegocioEm(s, id, updated) == (BadRequest("Status de funil inválido"), s)
  {
  }

  /** With a valid status, full update gives 404 "Negocio not found" for an unknown ID and
      200 with the replaced deal otherwise. */
  lemma AtualizarComStatusValido(s: seq<Negocio>, id: int, updated: Negocio)
    requires StatusDoFunil(updated.Status)
    ensures R.PrimeiroIndice(s, id).None? ==> AtualizarNegocioEm(s, id, updated) == (NotFound("Negocio not found"), s)
    ensures R.PrimeiroIndice(s, id).Some? ==>
      var (resp, s') := AtualizarNegocioEm(s, id, updated);
      && resp == OK(updated.(ID := id)) && Codigo(resp) == 200
      && s' == s[R.PrimeiroIndice(s, id).value := updated.(ID := id)]
  {
  }

  /** The task update and delete give 404 for an unknown ID; a delete that finds the deal
      gives 204. */
  lemma TarefaEDeletarResultado(s: seq<Negocio>, id: int, tarefa: string)
    ensures R.PrimeiroIndice(s, id).None? ==>
      && AtualizarTarefaHandlerEm(s, id, tarefa) == (NotFound("Negocio not found"), s)
      && DeletarNegocioEm(s, id) == (NotFound("Negocio not found"), s)
    ensures R.PrimeiroIndice(s, id).Some? ==>
      && Codigo(DeletarNegocioEm(s, id).0) == 204
      && AtualizarTarefaHandlerEm(s, id, tarefa).0.OK?
  {
  }

  /** Create, full update, task update and delete keep "every stored status is in the funnel". */
  lemma PortaoPreservaStatus(s: seq<Negocio>, id: int, n: Negocio, tarefa: string)
    requires TodosNoFunil(s)
    ensures TodosNoFunil(CriarNegocioEm(s, n).1)
    ensures TodosNoFunil(AtualizarNegocioEm(s, id, n).1)
    ensures TodosNoFunil(AtualizarTarefaHandlerEm(s, id, tarefa).1)
    ensures TodosNoFunil(DeletarNegocioEm(s, id).1)
  {
    match R.PrimeiroIndice(s, id)
    case None =>
    case Some(i) =>
      var d := DeletarNegocioEm(s, id).1;
      assert d == s[..i] + s[i + 1..];
      forall k | 0 <= k < |d| ensures StatusDoFunil(d[k].Status) {
        assert d[k] == if k < i then s[k] else s[k + 1];
      }
  }

  /** The status-only endpoint has no gate: on a known ID it answers 200 for any status and
      stores it, so a status outside the funnel breaks the invariant the other endpoints keep. */
  lemma AtualizarStatusSemPortao(s: seq<Negocio>, id: int, status: string)
    requires R.PrimeiroIndice(s, id).Some? && !StatusDoFunil(status)
    ensures var (resp, s') := AtualizarStatusHandlerEm(s, id, status);
      && resp.OK? && resp.negocio.Status == status
      && !TodosNoFunil(s')
  {
    var i := R.PrimeiroIndice(s, id).value;
    assert AtualizarStatusHandlerEm(s, id, status).1[i].Status == status;
  }

  /** From an empty table: create a deal with status "Proposta" (201), then set its status
      to "" through the status endpoint (200). The table now holds a deal whose status no
      create or full update would have accepted. */
  lemma StatusForaDoFunilAlcancavel(n: Negocio)
    requires n.Status == "Proposta"
    ensures var (r1, s1) := CriarNegocioEm([], n);
      var (r2, s2) := AtualizarStatusHandlerEm(s1, 1, "");
      && r1.Created? && TodosNoFunil(s1)
      && r2.OK? && !TodosNoFunil(s2)
  {
    assert StatusDoFunil(n.Status) by { assert FunilOpcoes[5] == "Proposta"; }
    var s1 := CriarNegocioEm([], n).1;
    assert s1 == [n.(ID := 1)];
    assert R.PrimeiroIndice(s1, 1) == Some(0);
    VazioForaDoFunil();
    AtualizarStatusSemPortao(s1, 1, "");
  }
}
