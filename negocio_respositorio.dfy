/** The older deal store of internal/negocio/respository.go. It declares the same
    repository as repository.go, without the two single-field updates. Both files sit in
    one Go package; here the older one is a module of its own whose operations are
    specified by the same table functions, and `MesmoComportamento` shows that both
    stores, fed the same operation from the same table, give the same result and table. */
module NegocioRespositorio {
  import opened Resultado
  import opened Negocio
  import R = NegocioRepositorio

  /** The older repository: the same `negocios` table. */
  class Repositorio {
    var negocios: seq<Negocio>

    /** A new repository holds no deals. */
    constructor ()
      ensures negocios == []
    {
      negocios := [];
    }

    /** Appends `n` with ID "old length + 1"; never fails. */
    method Adicionar(n: Negocio) returns (r: Result<Negocio, R.Erro>)
      modifies this
      ensures (r, negocios) == R.AdicionarEm(old(negocios), n)
    {
      var novo := n.(ID := |negocios| + 1);
      negocios := negocios + [novo];
      return Ok(novo);
    }

    /** The whole table. */
    method Listar() returns (r: seq<Negocio>)
      ensures r == negocios
    {
      return negocios;
    }

    /** The first deal with this ID, or "Negocio not found". */
    method ObterPorID(id: int) returns (r: Result<Negocio, R.Erro>)
      ensures r == R.ObterEm(negocios, id)
      ensures r.Err? <==> forall j :: 0 <= j < |negocios| ==> negocios[j].ID != id
    {
      for i := 0 to |negocios|
        invariant forall j :: 0 <= j < i ==> negocios[j].ID != id
      {
        if negocios[i].ID == id {
          return Ok(negocios[i]);
        }
      }
      return Err(R.NegocioNaoEncontrado);
    }

    /** Replaces the first deal with this ID by `updated`, keeping the ID. */
    method Atualizar(id: int, updated: Negocio) returns (r: Result<Negocio, R.Erro>)
      modifies this
      ensures (r, negocios) == R.AtualizarEm(old(negocios), id, updated)
    {
      for i := 0 to |negocios|
        invariant forall j :: 0 <= j < i ==> negocios[j].ID != id
        invariant negocios == old(negocios)
      {
        if negocios[i].ID == id {
          var novo := updated.(ID := id);
          negocios := negocios[i := novo];
          return Ok(novo);
        }
      }
      return Err(R.NegocioNaoEncontrado);
    }

    /** Splices out the first deal with this ID, or reports "Negocio not found". */
    method Deletar(id: int) returns (r: Result<(), R.Erro>)
      modifies this
      ensures (r, negocios) == R.DeletarEm(old(negocios), id)
    {
      for i := 0 to |negocios|
        invariant forall j :: 0 <= j < i ==> negocios[j].ID != id
        invariant negocios == old(negocios)
      {
        if negocios[i].ID == id {
          negocios := negocios[..i] + negocios[i + 1..];
          return Ok(());
        }
      }
      return Err(R.NegocioNaoEncontrado);
    }
  }

  /** One call to either store. */
  datatype Operacao =
    | Adicionar(n: Negocio)
    | Listar
    | ObterPorID(id: int)
    | Atualizar(id: int, updated: Negocio)
    | Deletar(id: int)

  /** What a call returns, whichever operation it was. */
  datatype Saida =
    | Registro(negocio: Result<Negocio, R.Erro>)
    | Lista(negocios: seq<Negocio>)
    | Remocao(feito: Result<(), R.Erro>)

  /** Runs the same operation on the current store and on the older one, starting from equal
      tables: both return the same thing and are left with equal tables. */
  method MesmoComportamento(atual: R.Repositorio, antigo: Repositorio, op: Operacao)
    returns (deAtual: Saida, deAntigo: Saida)
    requires atual.negocios == antigo.negocios
    modifies atual, antigo
    ensures deAtual == deAntigo
    ensures atual.negocios == antigo.negocios
  {
    match op
    case Adicionar(n) =>
      var a := atual.Adicionar(n);
      var b := antigo.Adicionar(n);
      deAtual, deAntigo := Registro(a), Registro(b);
    case Listar =>
      var a := atual.Listar();
      var b := antigo.Listar();
      deAtual, deAntigo := Lista(a), Lista(b);
    case ObterPorID(id) =>
      var a := atual.ObterPorID(id);
      var b := antigo.ObterPorID(id);
      deAtual, deAntigo := Registro(a), Registro(b);
    case Atualizar(id, updated) =>
      var a := atual.Atualizar(id, updated);
      var b := antigo.Atualizar(id, updated);
      deAtual, deAntigo := Registro(a), Registro(b);
    case Deletar(id) =>
      var a := atual.Deletar(id);
      var b := antigo.Deletar(id);
      deAtual, deAntigo := Remocao(a), Remocao(b);
  }
}
