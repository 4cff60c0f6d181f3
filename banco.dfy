/**
 * The rows of the backend tables the core reads and writes (`cargas`,
 * `posicoes_gps`, `historico_status`, `alertas`), an in-memory stand-in for the
 * hosted database, and the "latest fix of a shipment" query
 * (`order('timestamp', { ascending: false }).limit(1)`).
 */
module Banco {
  import opened Wrappers

  /** `status`: the lifecycle of a shipment. */
  datatype StatusCarga = EmTransito | Entregue | Cancelada

  /** `status_prazo`: the deadline classification stored on a shipment. */
  datatype StatusPrazo = NoPrazo | Atrasado | Adiantado

  /**
   * A `datetime-local` form field: empty, text no `Date` can read, or a local
   * wall-clock instant counted in minutes.
   */
  datatype CampoData = Vazio | Invalido | Em(minutos: int)

  /**
   * `CargaFormData`: what the form collects and hands to `criarCarga`.
   * Strings are `""` when the user left them blank; a coordinate is `None`
   * when it is not a finite number.
   */
  datatype CargaFormData = CargaFormData(
    notaFiscal: string,
    embarcadorId: string,
    origemCidade: string,
    origemUf: string,
    destinoCidade: string,
    destinoUf: string,
    toneladas: real,
    descricao: string,
    dataCarregamento: CampoData,
    prazoEntrega: CampoData,
    motoristaNome: string,
    motoristaTelefone: Option<string>,
    placaVeiculo: string,
    velocidadeMediaEstimada: real,
    origemLat: Option<real>,
    origemLng: Option<real>,
    destinoLat: Option<real>,
    destinoLng: Option<real>)

  /** A row of `cargas`. Optional columns are `None` for SQL `NULL`. */
  datatype Carga = Carga(
    id: nat,
    embarcadorId: string,
    notaFiscal: string,
    origemCidade: string,
    origemUf: string,
    destinoCidade: string,
    destinoUf: string,
    toneladas: real,
    descricao: string,
    dataCarregamento: int,
    prazoEntrega: int,
    dataEntregaReal: Option<int>,
    motoristaNome: Option<string>,
    motoristaTelefone: Option<string>,
    placaVeiculo: Option<string>,
    velocidadeMediaEstimada: real,
    distanciaTotalKm: real,
    origemLat: Option<real>,
    origemLng: Option<real>,
    destinoLat: Option<real>,
    destinoLng: Option<real>,
    status: StatusCarga,
    statusPrazo: StatusPrazo,
    ativo: bool,
    linkRastreamento: Option<string>,
    createdAt: int)

  /** A row of `posicoes_gps`. */
  datatype PosicaoGps = PosicaoGps(
    cargaId: nat,
    latitude: real,
    longitude: real,
    velocidade: Option<real>,
    precisaoMetros: real,
    origem: string,
    timestamp: int)

  /** A row of `historico_status`; `statusAnterior` is `None` for the creation row. */
  datatype HistoricoStatus = HistoricoStatus(
    cargaId: nat,
    statusAnterior: Option<StatusCarga>,
    statusNovo: StatusCarga,
    observacao: string)

  /** A row of `alertas`. */
  datatype Alerta = Alerta(
    cargaId: nat,
    tipo: string,
    destinatario: string,
    mensagem: string,
    enviado: bool)

  /** The tables, updated in place by every write of the core. */
  class Database {
    var cargas: seq<Carga>
    var posicoes: seq<PosicaoGps>
    var historico: seq<HistoricoStatus>
    var alertas: seq<Alerta>
    /** The next id the database will give an inserted shipment. */
    var proximoId: nat

    /** Every stored shipment has an id below the next one to be given out. */
    ghost predicate Valid()
      reads this`cargas, this`proximoId
    {
      forall i :: 0 <= i < |cargas| ==> cargas[i].id < proximoId
    }

    constructor ()
      ensures Valid()
      ensures cargas == [] && posicoes == [] && historico == [] && alertas == []
      ensures proximoId == 0
    {
      cargas, posicoes, historico, alertas := [], [], [], [];
      proximoId := 0;
    }
  }

  /**
   * `r` is what "the most recent fix of shipment `id`" may return: nothing when
   * the shipment has no fix, otherwise one of its fixes with the largest timestamp.
   */
  ghost predicate EhUltimaPosicao(posicoes: seq<PosicaoGps>, id: nat, r: Option<PosicaoGps>)
  {
    match r
    case None => forall j :: 0 <= j < |posicoes| ==> posicoes[j].cargaId != id
    case Some(p) =>
      && p in posicoes
      && p.cargaId == id
      && forall j :: 0 <= j < |posicoes| && posicoes[j].cargaId == id ==> posicoes[j].timestamp <= p.timestamp
  }

  /**
   * `select * from posicoes_gps where carga_id = id order by timestamp desc limit 1`,
   * read off the table in one pass.
   */
  method UltimaPosicao(posicoes: seq<PosicaoGps>, id: nat) returns (r: Option<PosicaoGps>)
    ensures EhUltimaPosicao(posicoes, id, r)
  {
    r := None;
    var i := 0;
    while i < |posicoes|
      invariant 0 <= i <= |posicoes|
      invariant EhUltimaPosicao(posicoes[..i], id, r)
    {
      var p := posicoes[i];
      if p.cargaId == id && (r.None? || r.value.timestamp < p.timestamp) {
        r := Some(p);
      }
      assert posicoes[..i + 1] == posicoes[..i] + [p];
      i := i + 1;
    }
    assert posicoes[..i] == posicoes;
  }

  /** `update cargas set status = 'entregue', data_entrega_real = agora where id = id`. */
  function MarcarEntregueNaTabela(rows: seq<Carga>, id: nat, agora: int): (r: seq<Carga>)
    ensures |r| == |rows|
    ensures forall i :: 0 <= i < |r| ==> r[i].id == rows[i].id
  {
    seq(|rows|, i requires 0 <= i < |rows| =>
      if rows[i].id == id then rows[i].(status := Entregue, dataEntregaReal := Some(agora)) else rows[i])
  }

  /** `update cargas set status = 'cancelada' where id = id`. */
  function CancelarNaTabela(rows: seq<Carga>, id: nat): (r: seq<Carga>)
    ensures |r| == |rows|
    ensures forall i :: 0 <= i < |r| ==> r[i].id == rows[i].id
  {
    seq(|rows|, i requires 0 <= i < |rows| =>
      if rows[i].id == id then rows[i].(status := Cancelada) else rows[i])
  }

  /** `update cargas set link_rastreamento = token where id = id`. */
  function GravarTokenNaTabela(rows: seq<Carga>, id: nat, token: string): (r: seq<Carga>)
    ensures |r| == |rows|
    ensures forall i :: 0 <= i < |r| ==> r[i].id == rows[i].id
  {
    seq(|rows|, i requires 0 <= i < |rows| =>
      if rows[i].id == id then rows[i].(linkRastreamento := Some(token)) else rows[i])
  }

  /**
   * Marking delivered touches only the rows with that id, and on them only the
   * status (now `entregue`) and the delivery time (now `agora`).
   */
  lemma MarcarEntregueAltera(rows: seq<Carga>, id: nat, agora: int)
    ensures var r := MarcarEntregueNaTabela(rows, id, agora);
      forall i :: 0 <= i < |rows| ==>
        && (rows[i].id == id ==> r[i].status == Entregue && r[i].dataEntregaReal == Some(agora))
        && (rows[i].id != id ==> r[i] == rows[i])
        && r[i].(status := rows[i].status, dataEntregaReal := rows[i].dataEntregaReal) == rows[i]
  {
  }

  /** Cancelling touches only the rows with that id, and on them only the status. */
  lemma CancelarAltera(rows: seq<Carga>, id: nat)
    ensures var r := CancelarNaTabela(rows, id);
      forall i :: 0 <= i < |rows| ==>
        && (rows[i].id == id ==> r[i].status == Cancelada)
        && (rows[i].id != id ==> r[i] == rows[i])
        && r[i].(status := rows[i].status) == rows[i]
  {
  }

  /** Storing a token touches only the rows with that id, and on them only the link. */
  lemma GravarTokenAltera(rows: seq<Carga>, id: nat, token: string)
    ensures var r := GravarTokenNaTabela(rows, id, token);
      forall i :: 0 <= i < |rows| ==>
        && (rows[i].id == id ==> r[i].linkRastreamento == Some(token))
        && (rows[i].id != id ==> r[i] == rows[i])
        && r[i].(linkRastreamento := rows[i].linkRastreamento) == rows[i]
  {
  }
}
