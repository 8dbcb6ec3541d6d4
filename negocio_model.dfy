/** The deal record of internal/negocio and the fixed list of sales-funnel statuses. */
module Negocio {

  /** A deal: a flat record of eight fields. `Status` is free text at the type level;
      only `FunilOpcoes` restricts it, and only where a handler checks. */
  datatype Negocio = Negocio(
    ID: int,
    EmpresaID: int,
    CNPJ: string,
    Endereco: string,
    Contato: string,
    ClienteID: int,
    Status: string,
    Tarefa: string)

  /** The valid sales-funnel statuses, in their declared order. */
  const FunilOpcoes: seq<string> := [
    "Lead mapeado",
    "Lead com data de retomada",
    "Visita/Reunião",
    "Adgo info QAR",
    "Em cotacao",
    "Proposta",
    "Reuniao de fechamento",
    "Assinatura de proposta",
    "Pedido permitido",
    "Pedidos 2025",
    "Pedidos mapeados"
  ]

  /** The status is one of the funnel options. */
  predicate StatusDoFunil(status: string)
  {
    status in FunilOpcoes
  }

  /** The list has eleven entries and no entry occurs twice. */
  lemma FunilOpcoesDistintas()
    ensures |FunilOpcoes| == 11
    ensures forall i, j :: 0 <= i < j < |FunilOpcoes| ==> FunilOpcoes[i] != FunilOpcoes[j]
  {
  }

  /** The zero value of a Go string, "", is not a funnel status. */
  lemma VazioForaDoFunil()
    ensures !StatusDoFunil("")
  {
  }
}
