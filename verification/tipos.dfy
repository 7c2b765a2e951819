/** The records of a weekly payables schedule ("borderô"): payment items,
    the account registry, and the account label that joins the two. */
module Tipos {

  datatype Option<+T> = None | Some(value: T) {
    function GetOr(default: T): T {
      match this
      case Some(v) => v
      case None => default
    }
  }

  /** Payment method of an item. */
  datatype Metodo = PIX | TED | Boleto | Dinheiro

  /** Approval status of an item; opaque data for the pipeline. */
  datatype Status = Pendente | Aprovado | Agendado | Pago

  /** Priority rank `1 | 2 | 3`. */
  type Prioridade = p: int | 1 <= p <= 3 witness 1

  /** One payment item. `vencimento` is the stored ISO-8601 text of the due
      instant; `valor` is an exact decimal amount in the item's currency. */
  datatype Item = Item(
    id: string,
    fornecedor: string,
    descricao: string,
    centroCusto: string,
    banco: string,
    conta: string,
    metodo: Metodo,
    vencimento: string,
    valor: real,
    moeda: string,
    prioridade: Prioridade,
    status: Status,
    incluir: bool)

  /** One entry of the account registry. */
  datatype Conta = Conta(banco: string, conta: string, saldoInicial: real)

  /** The separator of the account label `banco — conta` (an em dash between spaces). */
  const SEPARADOR_CONTA: string := " \U{2014} "

  /** The label that identifies an account, built by plain concatenation. */
  function RotuloConta(banco: string, conta: string): string {
    banco + SEPARADOR_CONTA + conta
  }

  function ChaveConta(i: Item): string {
    RotuloConta(i.banco, i.conta)
  }

  function MetodoDe(i: Item): Metodo {
    i.metodo
  }

  function CentroDe(i: Item): string {
    i.centroCusto
  }

  function NomeMetodo(m: Metodo): string {
    match m
    case PIX => "PIX"
    case TED => "TED"
    case Boleto => "Boleto"
    case Dinheiro => "Dinheiro"
  }

  function NomeStatus(s: Status): string {
    match s
    case Pendente => "Pendente"
    case Aprovado => "Aprovado"
    case Agendado => "Agendado"
    case Pago => "Pago"
  }

  /** The account registry configured for the session. */
  const CONTAS: seq<Conta> := [
    Conta("Ita\U{00FA}", "Operacional", 25000.0),
    Conta("Bradesco", "Projetos", 18000.0),
    Conta("Santander", "Capta\U{00E7}\U{00E3}o", 12000.0)
  ]
}
