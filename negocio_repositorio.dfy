/** The in-memory deal store of internal/negocio/repository.go: a table of deals held in
    one sequence, IDs given out as "length + 1", no uniqueness rule, and two updates that
    write a single field in place. */
module NegocioRepositorio {
  import opened Resultado
  import opened Negocio

  /** The one error the store reports. */
  datatype Erro = NegocioNaoEncontrado

  /** The text the error carries. */
  function Mensagem(e: Erro): string
  {
    "Negocio not found"
  }

  // ---------------------------------------------------------------------------
  // Specification of the table
  // ---------------------------------------------------------------------------

  /** Position of the first deal whose ID is `id`, scanning from the front. The same
      search as the client store's: the two Go packages each write their own loop. */
  function PrimeiroIndice(s: seq<Negocio>, id: int): (r: Option<nat>)
    ensures r.Some? ==> r.value < |s| && s[r.value].ID == id
    ensures r.Some? ==> forall j :: 0 <= j < r.value ==> s[j].ID != id
    ensures r.None? <==> forall j :: 0 <= j < |s| ==> s[j].ID != id
  {
    if |s| == 0 then None
    else if s[0].ID == id then Some(0)
    else match PrimeiroIndice(s[1..], id)
      case None => None
      case Some(k) => Some(k + 1)
  }

  /** Two tables of the same length whose entries carry the same IDs, position by position. */
  predicate MesmosIds(s: seq<Negocio>, t: seq<Negocio>)
  {
    |s| == |t| && forall k :: 0 <= k < |s| ==> s[k].ID == t[k].ID
  }

  /** Result and new table of `Adicionar(n)` on table `s`. */
  function AdicionarEm(s: seq<Negocio>, n: Negocio): (Result<Negocio, Erro>, seq<Negocio>)
  {
    var novo := n.(ID := |s| + 1);
    (Ok(novo), s + [novo])
  }

  /** Result of `ObterPorID(id)` on table `s` (the table does not change). */
  function ObterEm(s: seq<Negocio>, id: int): Result<Negocio, Erro>
  {
    match PrimeiroIndice(s, id)
    case None => Err(NegocioNaoEncontrado)
    case Some(i) => Ok(s[i])
  }

  /** Result and new table of `Atualizar(id, u)`: whole-record replacement. */
  function AtualizarEm(s: seq<Negocio>, id: int, u: Negocio): (Result<Negocio, Erro>, seq<Negocio>)
  {
    match PrimeiroIndice(s, id)
    case None => (Err(NegocioNaoEncontrado), s)
    case Some(i) => (Ok(u.(ID := id)), s[i := u.(ID := id)])
  }

  /** Result and new table of `AtualizarStatus(id, status)`: only the `Status` field is written. */
  function AtualizarStatusEm(s: seq<Negocio>, id: int, status: string): (Result<Negocio, Erro>, seq<Negocio>)
  {
    match PrimeiroIndice(s, id)
    case None => (Err(NegocioNaoEncontrado), s)
    case Some(i) => (Ok(s[i].(Status := status)), s[i := s[i].(Status := status)])
  }

  /** Result and new table of `AtualizarTarefa(id, tarefa)`: only the `Tarefa` field is written. */
  function AtualizarTarefaEm(s: seq<Negocio>, id: int, tarefa: string): (Result<Negocio, Erro>, seq<Negocio>)
  {
    match PrimeiroIndice(s, id)
    case None => (Err(NegocioNaoEncontrado), s)
    case Some(i) => (Ok(s[i].(Tarefa := tarefa)), s[i := s[i].(Tarefa := tarefa)])
  }

  /** Result and new table of `Deletar(id)`: the first match is spliced out. */
  function DeletarEm(s: seq<Negocio>, id: int): (Result<(), Erro>, seq<Negocio>)
  {
    match PrimeiroIndice(s, id)
    case None => (Err(NegocioNaoEncontrado), s)
    case Some(i) => (Ok(()), s[..i] + s[i + 1..])
  }

  // ---------------------------------------------------------------------------
  // The store itself
  // ---------------------------------------------------------------------------

  /** The repository: the deal table is the `negocios` field, changed in place. */
  class Repositorio {
    var negocios: seq<Negocio>

    /** A new repository holds no deals. */
    constructor ()
      ensures negocios == []
    {
      negocios := [];
    }

    /** Appends `n` with ID "old length + 1"; never fails. */
    method Adicionar(n: Negocio) returns (r: Result<Negocio, Erro>)
      modifies this
      ensures (r, negocios) == AdicionarEm(old(negocios), n)
    {
      var novo := n.(ID := |negocios| + 1);
      negocios := negocios + [novo];
      return Ok(novo);
    }

    /** The whole table. */
    method Listar() returns (r: seq<Negocio>)
      ensures r == negocios
    {
      return negocios;
    }

    /** The first deal with this ID, or "Negocio not found". */
    method ObterPorID(id: int) returns (r: Result<Negocio, Erro>)
      ensures r == ObterEm(negocios, id)
      ensures r.Ok? <==> exists j :: 0 <= j < |negocios| && negocios[j].ID == id
      ensures r.Ok? ==> PrimeiroIndice(negocios, id).Some? && r.value == negocios[PrimeiroIndice(negocios, id).value]
    {
      var i := 0;
      while i < |negocios|
        invariant 0 <= i <= |negocios|
        invariant forall j :: 0 <= j < i ==> negocios[j].ID != id
      {
        if negocios[i].ID == id {
          return Ok(negocios[i]);
        }
        i := i + 1;
      }
      return Err(NegocioNaoEncontrado);
    }

    /** Replaces the first deal with this ID by `updated`, keeping the ID. */
    method Atualizar(id: int, updated: Negocio) returns (r: Result<Negocio, Erro>)
      modifies this
      ensures (r, negocios) == AtualizarEm(old(negocios), id, updated)
    {
      var i := 0;
      while i < |negocios|
        invariant 0 <= i <= |negocios|
        invariant forall j :: 0 <= j < i ==> negocios[j].ID != id
      {
        if negocios[i].ID == id {
          var novo := updated.(ID := id);
          negocios := negocios[i := novo];
          return Ok(novo);
        }
        i := i + 1;
      }
      return Err(NegocioNaoEncontrado);
    }

    /** Writes `novoStatus` into the `Status` field of the first deal with this ID and
        returns that deal. */
    method AtualizarStatus(id: int, novoStatus: string) returns (r: Result<Negocio, Erro>)
      modifies this
      ensures (r, negocios) == AtualizarStatusEm(old(negocios), id, novoStatus)
    {
      var i := 0;
      while i < |negocios|
        invariant 0 <= i <= |negocios|
        invariant forall j :: 0 <= j < i ==> negocios[j].ID != id
      {
        if negocios[i].ID == id {
          negocios := negocios[i := negocios[i].(Status := novoStatus)];
          return Ok(negocios[i]);
        }
        i := i + 1;
      }
      return Err(NegocioNaoEncontrado);
    }

    /** Writes `novaTarefa` into the `Tarefa` field of the first deal with this ID and
        returns that deal. */
    method AtualizarTarefa(id: int, novaTarefa: string) returns (r: Result<Negocio, Erro>)
      modifies this
      ensures (r, negocios) == AtualizarTarefaEm(old(negocios), id, novaTarefa)
    {
      var i := 0;
      while i < |negocios|
        invariant 0 <= i <= |negocios|
        invariant forall j :: 0 <= j < i ==> negocios[j].ID != id
      {
        if negocios[i].ID == id {
          negocios := negocios[i := negocios[i].(Tarefa := novaTarefa)];
          return Ok(negocios[i]);
        }
        i := i + 1;
      }
      return Err(NegocioNaoEncontrado);
    }

    /** Splices out the first deal with this ID, or reports "Negocio not found". */
    method Deletar(id: int) returns (r: Result<(), Erro>)
      modifies this
      ensures (r, negocios) == DeletarEm(old(negocios), id)
    {
      var i := 0;
      while i < |negocios|
        invariant 0 <= i <= |negocios|
        invariant forall j :: 0 <= j < i ==> negocios[j].ID != id
      {
        if negocios[i].ID == id {
          negocios := negocios[..i] + negocios[i + 1..];
          return Ok(());
        }
        i := i + 1;
      }
      return Err(NegocioNaoEncontrado);
    }
  }

  // ---------------------------------------------------------------------------
  // Properties of the table operations
  // ---------------------------------------------------------------------------

  /** `Adicionar` never fails: it returns `n` with ID |s| + 1 and every other field as given,
      and appends exactly that record at the end. */
  lemma AdicionarNuncaFalha(s: seq<Negocio>, n: Negocio)
    ensures var (r, s') := AdicionarEm(s, n);
      && r.Ok? && r.value.ID == |s| + 1 && r.value.(ID := n.ID) == n
      && |s'| == |s| + 1 && s'[..|s|] == s && s'[|s|] == r.value
  {
  }

  /** Tables with the same IDs at the same positions agree on every first match. */
  lemma {:induction false} MesmosIdsMesmoIndice(s: seq<Negocio>, t: seq<Negocio>, id: int)
    requires MesmosIds(s, t)
    ensures PrimeiroIndice(s, id) == PrimeiroIndice(t, id)
  {
    if |s| > 0 && s[0].ID != id {
      assert MesmosIds(s[1..], t[1..]) by {
        forall k | 0 <= k < |s| - 1 ensures s[1..][k].ID == t[1..][k].ID {
          assert s[k + 1].ID == t[k + 1].ID;
        }
      }
      MesmosIdsMesmoIndice(s[1..], t[1..], id);
    }
  }

  /** An unknown ID makes every lookup and update report "Negocio not found" and leaves the
      table as it was. */
  lemma IdDesconhecido(s: seq<Negocio>, id: int, u: Negocio, texto: string)
    requires forall j :: 0 <= j < |s| ==> s[j].ID != id
    ensures ObterEm(s, id) == Err(NegocioNaoEncontrado)
    ensures AtualizarEm(s, id, u) == (Err(NegocioNaoEncontrado), s)
    ensures AtualizarStatusEm(s, id, texto) == (Err(NegocioNaoEncontrado), s)
    ensures AtualizarTarefaEm(s, id, texto) == (Err(NegocioNaoEncontrado), s)
    ensures DeletarEm(s, id) == (Err(NegocioNaoEncontrado), s)
  {
  }

  /** `ObterPorID` returns the first deal with the ID, or "Negocio not found" when none has it. */
  lemma ObterResultado(s: seq<Negocio>, id: int)
    ensures ObterEm(s, id).Err? <==> forall j :: 0 <= j < |s| ==> s[j].ID != id
    ensures ObterEm(s, id).Ok? ==>
      exists i :: 0 <= i < |s| && ObterEm(s, id).value == s[i] && s[i].ID == id && (forall j :: 0 <= j < i ==> s[j].ID != id)
  {
  }

  /** `Atualizar` on a known ID replaces only the first match, by `u` with its ID forced
      to `id`, and returns that record; length and every other entry are unchanged. */
  lemma AtualizarResultado(s: seq<Negocio>, id: int, u: Negocio)
    requires PrimeiroIndice(s, id).Some?
    ensures var i := PrimeiroIndice(s, id).value;
      var (r, s') := AtualizarEm(s, id, u);
      && r == Ok(u.(ID := id)) && |s'| == |s| && s'[i] == r.value
      && forall j :: 0 <= j < |s| && j != i ==> s'[j] == s[j]
  {
  }

  /** `AtualizarStatus` on a known ID changes the `Status` of the first match and nothing
      else, and returns the updated entry. */
  lemma AtualizarStatusResultado(s: seq<Negocio>, id: int, status: string)
    requires PrimeiroIndice(s, id).Some?
    ensures var i := PrimeiroIndice(s, id).value;
      var (r, s') := AtualizarStatusEm(s, id, status);
      && r.Ok? && |s'| == |s| && s'[i] == r.value
      && r.value.Status == status
      && r.value.(Status := s[i].Status) == s[i]
      && forall j :: 0 <= j < |s| && j != i ==> s'[j] == s[j]
  {
  }

  /** `AtualizarTarefa` on a known ID changes the `Tarefa` of the first match and nothing
      else, and returns the updated entry. */
  lemma AtualizarTarefaResultado(s: seq<Negocio>, id: int, tarefa: string)
    requires PrimeiroIndice(s, id).Some?
    ensures var i := PrimeiroIndice(s, id).value;
      var (r, s') := AtualizarTarefaEm(s, id, tarefa);
      && r.Ok? && |s'| == |s| && s'[i] == r.value
      && r.value.Tarefa == tarefa
      && r.value.(Tarefa := s[i].Tarefa) == s[i]
      && forall j :: 0 <= j < |s| && j != i ==> s'[j] == s[j]
  {
  }

  /** `Deletar` on a known ID removes exactly the first match and keeps the rest in order. */
  lemma DeletarResultado(s: seq<Negocio>, id: int)
    requires PrimeiroIndice(s, id).Some?
    ensures var i := PrimeiroIndice(s, id).value;
      var (r, s') := DeletarEm(s, id);
      && r.Ok? && |s'| == |s| - 1
      && (forall j :: 0 <= j < i ==> s'[j] == s[j])
      && (forall j :: i <= j < |s'| ==> s'[j] == s[j + 1])
  {
  }

  /** Reading the ID back after a full update on a known ID gives what the update returned. */
  lemma ObterAposAtualizar(s: seq<Negocio>, id: int, u: Negocio)
    requires PrimeiroIndice(s, id).Some?
    ensures ObterEm(AtualizarEm(s, id, u).1, id) == AtualizarEm(s, id, u).0
  {
    MesmosIdsMesmoIndice(s, AtualizarEm(s, id, u).1, id);
  }

  /** Reading the ID back after a status update on a known ID gives the updated deal. */
  lemma ObterAposAtualizarStatus(s: seq<Negocio>, id: int, status: string)
    requires PrimeiroIndice(s, id).Some?
    ensures ObterEm(AtualizarStatusEm(s, id, status).1, id) == AtualizarStatusEm(s, id, status).0
  {
    MesmosIdsMesmoIndice(s, AtualizarStatusEm(s, id, status).1, id);
  }

  /** Reading the ID back after a task update on a known ID gives the updated deal. */
  lemma ObterAposAtualizarTarefa(s: seq<Negocio>, id: int, tarefa: string)
    requires PrimeiroIndice(s, id).Some?
    ensures ObterEm(AtualizarTarefaEm(s, id, tarefa).1, id) == AtualizarTarefaEm(s, id, tarefa).0
  {
    MesmosIdsMesmoIndice(s, AtualizarTarefaEm(s, id, tarefa).1, id);
  }

  /** Writing the same status twice is the same as writing it once. */
  lemma AtualizarStatusIdempotente(s: seq<Negocio>, id: int, status: string)
    ensures AtualizarStatusEm(AtualizarStatusEm(s, id, status).1, id, status) == AtualizarStatusEm(s, id, status)
  {
    var s1 := AtualizarStatusEm(s, id, status).1;
    MesmosIdsMesmoIndice(s, s1, id);
    match PrimeiroIndice(s, id)
    case None =>
    case Some(i) =>
      assert s1[i] == s[i].(Status := status);
      assert s1[i := s1[i].(Status := status)] == s1;
  }

  /** The two single-field updates on the same ID commute on the table. */
  lemma StatusETarefaComutam(s: seq<Negocio>, id: int, status: string, tarefa: string)
    ensures AtualizarTarefaEm(AtualizarStatusEm(s, id, status).1, id, tarefa).1
         == AtualizarStatusEm(AtualizarTarefaEm(s, id, tarefa).1, id, status).1
  {
    MesmosIdsMesmoIndice(s, AtualizarStatusEm(s, id, status).1, id);
    MesmosIdsMesmoIndice(s, AtualizarTarefaEm(s, id, tarefa).1, id);
  }

  /** Adding then looking up the returned ID gives back the added deal, provided no stored
      deal already carries ID |s| + 1 (true of a table that never saw a deletion). */
  lemma ObterAposAdicionar(s: seq<Negocio>, n: Negocio)
    requires forall k :: 0 <= k < |s| ==> s[k].ID != |s| + 1
    ensures var (r, s') := AdicionarEm(s, n);
      ObterEm(s', r.value.ID) == r
  {
    var (r, s') := AdicionarEm(s, n);
    assert s'[|s|].ID == |s| + 1;
    assert forall k :: 0 <= k < |s| ==> s'[k].ID != |s| + 1;
  }

  /** After a deletion the round trip fails: the new deal reuses ID 2, and looking up
      ID 2 finds the older deal in front of it (whenever the two deals differ in some
      field other than the ID). */
  lemma ObterAposAdicionarPodeDevolverOutro(a: Negocio, b: Negocio, c: Negocio)
    requires b.(ID := 2) != c.(ID := 2)
    ensures var s4 := AdicionarEm(DeletarEm(AdicionarEm(AdicionarEm([], a).1, b).1, 1).1, c);
      s4.0.value.ID == 2 && ObterEm(s4.1, 2) == Ok(b.(ID := 2)) && ObterEm(s4.1, 2) != s4.0
  {
    var s2 := AdicionarEm(AdicionarEm([], a).1, b).1;
    assert s2 == [a.(ID := 1), b.(ID := 2)];
    assert PrimeiroIndice(s2, 1) == Some(0);
    var s3 := DeletarEm(s2, 1).1;
    assert s3 == [b.(ID := 2)];
    var s4 := AdicionarEm(s3, c).1;
    assert AdicionarEm(s3, c).0 == Ok(c.(ID := 2));
    assert s4 == [b.(ID := 2), c.(ID := 2)];
    assert PrimeiroIndice(s4, 2) == Some(0);
  }
}
