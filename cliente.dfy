/** The in-memory client store of internal/cliente: a table of clients held in one
    sequence, with IDs given out as "length + 1" and a CNPJ uniqueness rule. */
module Cliente {
  import opened Resultado

  /** A client record; every field is free text except the numeric ID. */
  datatype Cliente = Cliente(ID: int, Nome: string, CNPJ: string, Endereco: string, Contato: string)

  /** The two errors the store reports. */
  datatype Erro = CnpjJaExiste | ClienteNaoEncontrado

  /** The text each error carries. */
  function Mensagem(e: Erro): string
  {
    match e
    case CnpjJaExiste => "CNPJ already exists"
    case ClienteNaoEncontrado => "Cliente not found"
  }

  // ---------------------------------------------------------------------------
  // Specification of the table: what each operation returns and leaves behind
  // ---------------------------------------------------------------------------

  /** Position of the first client whose ID is `id`, scanning from the front. */
  function PrimeiroIndice(s: seq<Cliente>, id: int): (r: Option<nat>)
    ensures r.Some? ==> r.value < |s| && s[r.value].ID == id
    ensures r.Some? ==> forall j :: 0 <= j < r.value ==> s[j].ID != id
    ensures r.None? <==> forall j :: 0 <= j < |s| ==> s[j].ID != id
  {
    if |s| == 0 then None
    else if s[0].ID == id then Some(0)
    else match PrimeiroIndice(s[1..], id)
      case None => None
      case Some(k) => Some(k + 1)
  }

  /** Some stored client already has this CNPJ. */
  predicate TemCnpj(s: seq<Cliente>, cnpj: string)
  {
    exists j :: 0 <= j < |s| && s[j].CNPJ == cnpj
  }

  /** Some stored client whose ID is not `id` has this CNPJ: the conflict test of an update. */
  predicate ConflitoCnpj(s: seq<Cliente>, id: int, cnpj: string)
  {
    exists j :: 0 <= j < |s| && s[j].CNPJ == cnpj && s[j].ID != id
  }

  /** No two stored clients share a CNPJ. */
  predicate CnpjsDistintos(s: seq<Cliente>)
  {
    forall i, j :: 0 <= i < j < |s| ==> s[i].CNPJ != s[j].CNPJ
  }

  /** At most one stored client carries `id`. */
  predicate IdUnico(s: seq<Cliente>, id: int)
  {
    forall i, j :: 0 <= i < j < |s| && s[i].ID == id ==> s[j].ID != id
  }

  /** The i-th stored client (from 0) has ID i + 1: the shape a table has
      when clients were only ever added. */
  predicate IdsSequenciais(s: seq<Cliente>)
  {
    forall k :: 0 <= k < |s| ==> s[k].ID == k + 1
  }

  /** Result and new table of `Adicionar(c)` on table `s`. */
  function AdicionarEm(s: seq<Cliente>, c: Cliente): (Result<Cliente, Erro>, seq<Cliente>)
  {
    if TemCnpj(s, c.CNPJ) then (Err(CnpjJaExiste), s)
    else var novo := c.(ID := |s| + 1); (Ok(novo), s + [novo])
  }

  /** Result of `ObterPorID(id)` on table `s` (the table does not change). */
  function ObterEm(s: seq<Cliente>, id: int): Result<Cliente, Erro>
  {
    match PrimeiroIndice(s, id)
    case None => Err(ClienteNaoEncontrado)
    case Some(i) => Ok(s[i])
  }

  /** Result and new table of `Atualizar(id, u)` on table `s`. */
  function AtualizarEm(s: seq<Cliente>, id: int, u: Cliente): (Result<Cliente, Erro>, seq<Cliente>)
  {
    match PrimeiroIndice(s, id)
    case None => (Err(ClienteNaoEncontrado), s)
    case Some(i) =>
      if ConflitoCnpj(s, id, u.CNPJ) then (Err(CnpjJaExiste), s)
      else (Ok(u.(ID := id)), s[i := u.(ID := id)])
  }

  /** Result and new table of `Deletar(id)` on table `s`. */
  function DeletarEm(s: seq<Cliente>, id: int): (Result<(), Erro>, seq<Cliente>)
  {
    match PrimeiroIndice(s, id)
    case None => (Err(ClienteNaoEncontrado), s)
    case Some(i) => (Ok(()), s[..i] + s[i + 1..])
  }

  // ---------------------------------------------------------------------------
  // The store itself
  // ---------------------------------------------------------------------------

  /** The repository: the client table is the `clientes` field, changed in place. */
  class Repositorio {
    var clientes: seq<Cliente>

    /** A new repository holds no clients. */
    constructor ()
      ensures clientes == []
    {
      clientes := [];
    }

    /** Inserts `c` unless its CNPJ is taken; the new client's ID is the old length plus one. */
    method Adicionar(c: Cliente) returns (r: Result<Cliente, Erro>)
      modifies this
      ensures (r, clientes) == AdicionarEm(old(clientes), c)
    {
      var k := 0;
      while k < |clientes|
        invariant 0 <= k <= |clientes|
        invariant forall j :: 0 <= j < k ==> clientes[j].CNPJ != c.CNPJ
      {
        if clientes[k].CNPJ == c.CNPJ {
          return Err(CnpjJaExiste);
        }
        k := k + 1;
      }
      var novo := c.(ID := |clientes| + 1);
      clientes := clientes + [novo];
      return Ok(novo);
    }

    /** The whole table. */
    method Listar() returns (r: seq<Cliente>)
      ensures r == clientes
    {
      return clientes;
    }

    /** The first client with this ID, or "Cliente not found". */
    method ObterPorID(id: int) returns (r: Result<Cliente, Erro>)
      ensures r == ObterEm(clientes, id)
      ensures r.Ok? <==> exists j :: 0 <= j < |clientes| && clientes[j].ID == id
      ensures r.Err? ==> r.error == ClienteNaoEncontrado
      ensures r.Ok? ==> PrimeiroIndice(clientes, id).Some? && r.value == clientes[PrimeiroIndice(clientes, id).value]
    {
      var i := 0;
      while i < |clientes|
        invariant 0 <= i <= |clientes|
        invariant forall j :: 0 <= j < i ==> clientes[j].ID != id
      {
        if clientes[i].ID == id {
          return Ok(clientes[i]);
        }
        i := i + 1;
      }
      return Err(ClienteNaoEncontrado);
    }

    /** Replaces the first client with this ID by `updated` (keeping the ID), unless the ID
        is unknown or a client with another ID already has `updated`'s CNPJ. */
    method Atualizar(id: int, updated: Cliente) returns (r: Result<Cliente, Erro>)
      modifies this
      ensures (r, clientes) == AtualizarEm(old(clientes), id, updated)
    {
      var i := 0;
      while i < |clientes|
        invariant 0 <= i <= |clientes|
        invariant forall j :: 0 <= j < i ==> clientes[j].ID != id
        invariant clientes == old(clientes)
      {
        if clientes[i].ID == id {
          var k := 0;
          while k < |clientes|
            invariant 0 <= k <= |clientes|
            invariant forall j :: 0 <= j < k ==> !(clientes[j].CNPJ == updated.CNPJ && clientes[j].ID != id)
          {
            if clientes[k].CNPJ == updated.CNPJ && clientes[k].ID != id {
              return Err(CnpjJaExiste);
            }
            k := k + 1;
          }
          var novo := updated.(ID := id);
          clientes := clientes[i := novo];
          return Ok(novo);
        }
        i := i + 1;
      }
      return Err(ClienteNaoEncontrado);
    }

    /** Splices out the first client with this ID, or reports "Cliente not found". */
    method Deletar(id: int) returns (r: Result<(), Erro>)
      modifies this
      ensures (r, clientes) == DeletarEm(old(clientes), id)
    {
      var i := 0;
      while i < |clientes|
        invariant 0 <= i <= |clientes|
        invariant forall j :: 0 <= j < i ==> clientes[j].ID != id
      {
        if clientes[i].ID == id {
          clientes := clientes[..i] + clientes[i + 1..];
          return Ok(());
        }
        i := i + 1;
      }
      return Err(ClienteNaoEncontrado);
    }
  }

  // ---------------------------------------------------------------------------
  // Properties of the table operations
  // ---------------------------------------------------------------------------

  /** `Adicionar` fails exactly when the CNPJ is taken, and then changes nothing;
      otherwise it appends `c` with ID |s| + 1 at the end and returns it. */
  lemma AdicionarResultado(s: seq<Cliente>, c: Cliente)
    ensures AdicionarEm(s, c).0.Err? <==> exists j :: 0 <= j < |s| && s[j].CNPJ == c.CNPJ
    ensures AdicionarEm(s, c).0.Err? ==> AdicionarEm(s, c) == (Err(CnpjJaExiste), s)
    ensures AdicionarEm(s, c).0.Err? ==> Mensagem(AdicionarEm(s, c).0.error) == "CNPJ already exists"
    ensures AdicionarEm(s, c).0.Ok? ==>
      var (r, s') := AdicionarEm(s, c);
      && r.value == c.(ID := |s| + 1)
      && |s'| == |s| + 1 && s'[..|s|] == s && s'[|s|] == r.value
  {
  }

  /** `Adicionar` keeps all stored CNPJs pairwise distinct. */
  lemma AdicionarPreservaCnpjsDistintos(s: seq<Cliente>, c: Cliente)
    requires CnpjsDistintos(s)
    ensures CnpjsDistintos(AdicionarEm(s, c).1)
  {
    if !TemCnpj(s, c.CNPJ) {
      var s' := AdicionarEm(s, c).1;
      forall i, j | 0 <= i < j < |s'| ensures s'[i].CNPJ != s'[j].CNPJ {
        if j == |s| {
          assert s'[i] == s[i];
        }
      }
    }
  }

  /** In a table built only by insertions the next ID is fresh, and `Adicionar` keeps
      the table in that shape: without deletions, IDs are unique. */
  lemma AdicionarPreservaIdsSequenciais(s: seq<Cliente>, c: Cliente)
    requires IdsSequenciais(s)
    ensures IdsSequenciais(AdicionarEm(s, c).1)
    ensures forall k :: 0 <= k < |s| ==> s[k].ID != |s| + 1
  {
  }

  /** Sequential IDs are unique IDs. */
  lemma IdsSequenciaisSaoUnicos(s: seq<Cliente>, id: int)
    requires IdsSequenciais(s)
    ensures IdUnico(s, id)
  {
  }

  /** IDs are "length + 1", not "largest + 1": deleting any entry but the last from a table
      whose last entry has ID |s|, then adding, gives two live clients the same ID. */
  lemma DeletarEntaoAdicionarRepeteId(s: seq<Cliente>, id: int, c: Cliente)
    requires |s| >= 2 && s[|s| - 1].ID == |s|
    requires PrimeiroIndice(s, id).Some? && PrimeiroIndice(s, id).value < |s| - 1
    requires !TemCnpj(DeletarEm(s, id).1, c.CNPJ)
    ensures var t := AdicionarEm(DeletarEm(s, id).1, c).1;
      |t| == |s| && t[|t| - 2].ID == t[|t| - 1].ID == |s|
  {
    var i := PrimeiroIndice(s, id).value;
    var d := DeletarEm(s, id).1;
    assert d == s[..i] + s[i + 1..];
    assert d[|d| - 1] == s[|s| - 1];
  }

  /** `ObterPorID` gives the first client with the ID, or "Cliente not found" when no client has it. */
  lemma ObterResultado(s: seq<Cliente>, id: int)
    ensures ObterEm(s, id).Err? <==> forall j :: 0 <= j < |s| ==> s[j].ID != id
    ensures ObterEm(s, id).Err? ==> ObterEm(s, id).error == ClienteNaoEncontrado
    ensures ObterEm(s, id).Err? ==> Mensagem(ObterEm(s, id).error) == "Cliente not found"
    ensures ObterEm(s, id).Ok? ==>
      exists i :: 0 <= i < |s| && ObterEm(s, id).value == s[i] && s[i].ID == id && (forall j :: 0 <= j < i ==> s[j].ID != id)
  {
  }

  /** The three outcomes of `Atualizar`. */
  lemma AtualizarResultado(s: seq<Cliente>, id: int, u: Cliente)
    ensures PrimeiroIndice(s, id).None? ==> AtualizarEm(s, id, u) == (Err(ClienteNaoEncontrado), s)
    ensures PrimeiroIndice(s, id).None? ==> Mensagem(AtualizarEm(s, id, u).0.error) == "Cliente not found"
    ensures PrimeiroIndice(s, id).Some? && ConflitoCnpj(s, id, u.CNPJ) ==>
      AtualizarEm(s, id, u) == (Err(CnpjJaExiste), s)
    ensures PrimeiroIndice(s, id).Some? && ConflitoCnpj(s, id, u.CNPJ) ==>
      Mensagem(AtualizarEm(s, id, u).0.error) == "CNPJ already exists"
    ensures PrimeiroIndice(s, id).Some? && !ConflitoCnpj(s, id, u.CNPJ) ==>
      var i := PrimeiroIndice(s, id).value;
      var (r, s') := AtualizarEm(s, id, u);
      && r == Ok(u.(ID := id))
      && |s'| == |s| && s'[i] == u.(ID := id)
      && forall j :: 0 <= j < |s| && j != i ==> s'[j] == s[j]
  {
  }

  /** Keeping one's own CNPJ is not a conflict, provided CNPJs are distinct. */
  lemma AtualizarMantendoCnpj(s: seq<Cliente>, id: int, u: Cliente)
    requires CnpjsDistintos(s)
    requires PrimeiroIndice(s, id).Some? && u.CNPJ == s[PrimeiroIndice(s, id).value].CNPJ
    ensures AtualizarEm(s, id, u).0 == Ok(u.(ID := id))
  {
  }

  /** `Atualizar` keeps CNPJs distinct when at most one client holds the target ID:
      the conflict check only skips entries that share that ID. */
  lemma AtualizarPreservaCnpjsDistintos(s: seq<Cliente>, id: int, u: Cliente)
    requires CnpjsDistintos(s) && IdUnico(s, id)
    ensures CnpjsDistintos(AtualizarEm(s, id, u).1)
  {
    match PrimeiroIndice(s, id)
    case None =>
    case Some(i) =>
      if !ConflitoCnpj(s, id, u.CNPJ) {
        var s' := AtualizarEm(s, id, u).1;
        forall a, b | 0 <= a < b < |s'| ensures s'[a].CNPJ != s'[b].CNPJ {
          if a == i {
            assert s[b].ID != id;
          } else if b == i {
            assert s[a].ID != id;
          }
        }
      }
  }

  /** With two clients sharing the target ID, `Atualizar` can write a CNPJ that one of them
      already holds: CNPJ distinctness is only conditionally preserved. */
  lemma AtualizarComIdRepetidoDuplicaCnpj()
    ensures var s := [Cliente(2, "B", "22", "", ""), Cliente(2, "C", "33", "", "")];
      var u := Cliente(0, "B", "33", "", "");
      && CnpjsDistintos(s)
      && AtualizarEm(s, 2, u).0.Ok?
      && !CnpjsDistintos(AtualizarEm(s, 2, u).1)
  {
    var s := [Cliente(2, "B", "22", "", ""), Cliente(2, "C", "33", "", "")];
    var u := Cliente(0, "B", "33", "", "");
    assert PrimeiroIndice(s, 2) == Some(0);
    assert !ConflitoCnpj(s, 2, u.CNPJ);
    assert AtualizarEm(s, 2, u).1[0].CNPJ == AtualizarEm(s, 2, u).1[1].CNPJ;
  }

  /** Such a table is reachable from an empty store through the store's own operations:
      add A and B, delete A, add C (which gets ID 2 again), then update ID 2 with C's
      CNPJ. Every step succeeds and two clients end up with the same CNPJ. */
  lemma CnpjDuplicadoAlcancavel()
    ensures
      var a, b, c := Cliente(0, "A", "11", "", ""), Cliente(0, "B", "22", "", ""), Cliente(0, "C", "33", "", "");
      var (r1, s1) := AdicionarEm([], a);
      var (r2, s2) := AdicionarEm(s1, b);
      var (r3, s3) := DeletarEm(s2, 1);
      var (r4, s4) := AdicionarEm(s3, c);
      var (r5, s5) := AtualizarEm(s4, 2, b.(CNPJ := "33"));
      && r1.Ok? && r2.Ok? && r3.Ok? && r4.Ok? && r5.Ok?
      && r4.value.ID == 2 && CnpjsDistintos(s4)
      && |s5| == 2 && s5[0].CNPJ == s5[1].CNPJ
  {
    var a, b, c := Cliente(0, "A", "11", "", ""), Cliente(0, "B", "22", "", ""), Cliente(0, "C", "33", "", "");
    var s1 := [a.(ID := 1)];
    assert !TemCnpj([], a.CNPJ);
    assert AdicionarEm([], a).1 == s1;
    assert !TemCnpj(s1, b.CNPJ);
    var s2 := [a.(ID := 1), b.(ID := 2)];
    assert AdicionarEm(s1, b).1 == s2;
    assert PrimeiroIndice(s2, 1) == Some(0);
    var s3 := [b.(ID := 2)];
    assert DeletarEm(s2, 1).1 == s3;
    assert !TemCnpj(s3, c.CNPJ);
    var s4 := [b.(ID := 2), c.(ID := 2)];
    assert AdicionarEm(s3, c).1 == s4;
    assert PrimeiroIndice(s4, 2) == Some(0);
    assert !ConflitoCnpj(s4, 2, "33");
  }

  /** `Deletar` removes exactly the first client with the ID and keeps the others in order;
      an unknown ID is reported and changes nothing. */
  lemma DeletarResultado(s: seq<Cliente>, id: int)
    ensures PrimeiroIndice(s, id).None? ==> DeletarEm(s, id) == (Err(ClienteNaoEncontrado), s)
    ensures PrimeiroIndice(s, id).None? ==> Mensagem(DeletarEm(s, id).0.error) == "Cliente not found"
    ensures PrimeiroIndice(s, id).Some? ==>
      var i := PrimeiroIndice(s, id).value;
      var (r, s') := DeletarEm(s, id);
      && r.Ok? && |s'| == |s| - 1
      && (forall j :: 0 <= j < i ==> s'[j] == s[j])
      && (forall j :: i <= j < |s'| ==> s'[j] == s[j + 1])
  {
  }

  /** `Deletar` keeps CNPJs distinct. */
  lemma DeletarPreservaCnpjsDistintos(s: seq<Cliente>, id: int)
    requires CnpjsDistintos(s)
    ensures CnpjsDistintos(DeletarEm(s, id).1)
  {
    match PrimeiroIndice(s, id)
    case None =>
    case Some(i) =>
      var s' := DeletarEm(s, id).1;
      forall a, b | 0 <= a < b < |s'| ensures s'[a].CNPJ != s'[b].CNPJ {
        var a0 := if a < i then a else a + 1;
        var b0 := if b < i then b else b + 1;
        assert s'[a] == s[a0] && s'[b] == s[b0];
      }
  }
}
