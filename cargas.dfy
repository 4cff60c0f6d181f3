/**
 * The `useCargas` hook: the list query with its filters and ordering, the
 * latest fix attached to each shipment, creation, delivery, cancellation and the
 * delivery alert; and the `useMetricasDashboard` aggregation.
 */
module Cargas {
  import opened Wrappers
  import opened Banco

  // ---------------------------------------------------------------------------
  // Filters
  // ---------------------------------------------------------------------------

  /**
   * `FiltrosCargas`. An empty list or string, or `None`, is a filter the user did
   * not set.
   */
  datatype FiltrosCargas = FiltrosCargas(
    status: seq<StatusCarga>,
    statusPrazo: seq<StatusPrazo>,
    notaFiscal: string,
    origemUf: string,
    destinoUf: string,
    motoristaNome: string,
    placaVeiculo: string,
    dataCarregamentoInicio: Option<int>,
    dataCarregamentoFim: Option<int>,
    prazoEntregaInicio: Option<int>,
    prazoEntregaFim: Option<int>)

  const SemFiltros: FiltrosCargas :=
    FiltrosCargas([], [], "", "", "", "", "", None, None, None, None)

  function Minuscula(c: char): char
  {
    if 'A' <= c <= 'Z' then (c as int + 32) as char else c
  }

  function Minusculas(s: string): (r: string)
    ensures |r| == |s|
  {
    seq(|s|, i requires 0 <= i < |s| => Minuscula(s[i]))
  }

  /** `padrao` occurs somewhere in `texto`. */
  predicate Contem(texto: string, padrao: string)
    decreases |texto|
  {
    padrao <= texto || (texto != [] && Contem(texto[1..], padrao))
  }

  /** `Contem` is "occurs at some position". */
  lemma {:induction false} ContemEmAlgumaPosicao(texto: string, padrao: string)
    ensures Contem(texto, padrao) <==> exists i :: 0 <= i <= |texto| && padrao <= texto[i..]
  {
    if padrao <= texto {
      assert texto[0..] == texto;
    } else if texto == [] {
      forall i | 0 <= i <= |texto| ensures !(padrao <= texto[i..]) {
        assert texto[i..] == texto;
      }
    } else {
      ContemEmAlgumaPosicao(texto[1..], padrao);
      if Contem(texto[1..], padrao) {
        var i :| 0 <= i <= |texto[1..]| && padrao <= texto[1..][i..];
        assert texto[1..][i..] == texto[i + 1..];
      } else {
        forall i | 0 <= i <= |texto| ensures !(padrao <= texto[i..]) {
          if i > 0 {
            assert texto[i..] == texto[1..][i - 1..];
          } else {
            assert texto[i..] == texto;
          }
        }
      }
    }
  }

  /** `ilike(coluna, '%padrao%')`: case-insensitive substring. */
  predicate ILike(coluna: string, padrao: string)
  {
    Contem(Minusculas(coluna), Minusculas(padrao))
  }

  /** Changing the case of either side does not change an `ilike` match. */
  lemma ILikeIgnoraCaixa(coluna: string, padrao: string)
    ensures ILike(Minusculas(coluna), padrao) == ILike(coluna, padrao)
    ensures ILike(coluna, Minusculas(padrao)) == ILike(coluna, padrao)
  {
    assert Minusculas(Minusculas(coluna)) == Minusculas(coluna);
    assert Minusculas(Minusculas(padrao)) == Minusculas(padrao);
  }

  /** The extra filters of `fetchCargas`: each one that is set adds one conjunct. */
  predicate AtendeFiltros(c: Carga, f: FiltrosCargas)
  {
    && (|f.status| == 0 || c.status in f.status)
    && (|f.statusPrazo| == 0 || c.statusPrazo in f.statusPrazo)
    && (f.notaFiscal == "" || ILike(c.notaFiscal, f.notaFiscal))
    && (f.origemUf == "" || c.origemUf == f.origemUf)
    && (f.destinoUf == "" || c.destinoUf == f.destinoUf)
    && (f.motoristaNome == "" || (c.motoristaNome.Some? && ILike(c.motoristaNome.value, f.motoristaNome)))
    && (f.placaVeiculo == "" || (c.placaVeiculo.Some? && ILike(c.placaVeiculo.value, f.placaVeiculo)))
    && (f.dataCarregamentoInicio.None? || c.dataCarregamento >= f.dataCarregamentoInicio.value)
    && (f.dataCarregamentoFim.None? || c.dataCarregamento <= f.dataCarregamentoFim.value)
    && (f.prazoEntregaInicio.None? || c.prazoEntrega >= f.prazoEntregaInicio.value)
    && (f.prazoEntregaFim.None? || c.prazoEntrega <= f.prazoEntregaFim.value)
  }

  /** The whole row predicate of the query: active, of the shipper when one is given, and the filters. */
  predicate Selecionada(c: Carga, embarcadorId: string, filtros: Option<FiltrosCargas>)
  {
    && c.ativo
    && (embarcadorId == "" || c.embarcadorId == embarcadorId)
    && (filtros.None? || AtendeFiltros(c, filtros.value))
  }

  /** Filters nobody set select every active shipment of the shipper. */
  lemma FiltrosVaziosNaoRestringem(c: Carga, embarcadorId: string)
    ensures Selecionada(c, embarcadorId, Some(SemFiltros)) == Selecionada(c, embarcadorId, None)
    ensures Selecionada(c, "", None) == c.ativo
  {
  }

  /** The rows of `rows` the query keeps, in table order. */
  function Filtrar(rows: seq<Carga>, embarcadorId: string, filtros: Option<FiltrosCargas>): (r: seq<Carga>)
    ensures |r| <= |rows|
  {
    if rows == [] then []
    else
      var r := Filtrar(rows[..|rows| - 1], embarcadorId, filtros);
      if Selecionada(rows[|rows| - 1], embarcadorId, filtros) then r + [rows[|rows| - 1]] else r
  }

  /** The query keeps exactly the selected rows, each as often as the table holds it. */
  lemma {:induction false} FiltrarCorreto(rows: seq<Carga>, embarcadorId: string, filtros: Option<FiltrosCargas>)
    ensures var r := Filtrar(rows, embarcadorId, filtros);
      && (forall c :: multiset(r)[c] == if Selecionada(c, embarcadorId, filtros) then multiset(rows)[c] else 0)
      && (forall i :: 0 <= i < |r| ==> Selecionada(r[i], embarcadorId, filtros))
  {
    if rows != [] {
      var ant := rows[..|rows| - 1];
      var c := rows[|rows| - 1];
      assert rows == ant + [c];
      FiltrarCorreto(ant, embarcadorId, filtros);
    }
  }

  // ---------------------------------------------------------------------------
  // Ordering by created_at, descending
  // ---------------------------------------------------------------------------

  predicate Decrescente(s: seq<Carga>)
  {
    forall i, j :: 0 <= i < j < |s| ==> s[i].createdAt >= s[j].createdAt
  }

  /** Puts `x` in its place in a list ordered by `created_at`, newest first. */
  function InserirOrdenado(x: Carga, s: seq<Carga>): (r: seq<Carga>)
    ensures |r| == |s| + 1
    ensures r[0] == x || (s != [] && r[0] == s[0])
  {
    if s == [] then [x]
    else if x.createdAt >= s[0].createdAt then [x] + s
    else [s[0]] + InserirOrdenado(x, s[1..])
  }

  /** Inserting adds `x` and keeps everything else. */
  lemma {:induction false} InserirPermuta(x: Carga, s: seq<Carga>)
    ensures multiset(InserirOrdenado(x, s)) == multiset(s) + multiset{x}
  {
    if s != [] && x.createdAt < s[0].createdAt {
      InserirPermuta(x, s[1..]);
      assert s == [s[0]] + s[1..];
    }
  }

  /** Inserting into an ordered list leaves it ordered. */
  lemma {:induction false} InserirDecrescente(x: Carga, s: seq<Carga>)
    requires Decrescente(s)
    ensures Decrescente(InserirOrdenado(x, s))
  {
    if s != [] && x.createdAt < s[0].createdAt {
      var resto := InserirOrdenado(x, s[1..]);
      InserirDecrescente(x, s[1..]);
      var r := [s[0]] + resto;
      assert forall k :: 1 <= k < |r| ==> r[k] == resto[k - 1];
      assert resto[0].createdAt <= s[0].createdAt;
    }
  }

  /** `order('created_at', { ascending: false })`, as an insertion sort of the rows in table order. */
  function Ordenado(s: seq<Carga>): (r: seq<Carga>)
    ensures |r| == |s|
  {
    if s == [] then [] else InserirOrdenado(s[|s| - 1], Ordenado(s[..|s| - 1]))
  }

  /** The ordering is a permutation that puts the newest first. */
  lemma {:induction false} OrdenadoCorreto(s: seq<Carga>)
    ensures multiset(Ordenado(s)) == multiset(s)
    ensures Decrescente(Ordenado(s))
  {
    if s != [] {
      OrdenadoCorreto(s[..|s| - 1]);
      InserirPermuta(s[|s| - 1], Ordenado(s[..|s| - 1]));
      InserirDecrescente(s[|s| - 1], Ordenado(s[..|s| - 1]));
      assert s == s[..|s| - 1] + [s[|s| - 1]];
    }
  }

  /** The rows the list query answers: the selected ones, newest first. */
  function Consulta(tabela: seq<Carga>, embarcadorId: string, filtros: Option<FiltrosCargas>): seq<Carga>
  {
    Ordenado(Filtrar(tabela, embarcadorId, filtros))
  }

  /**
   * The query answers every selected row of the table (as often as it is there),
   * no other row, and newest first.
   */
  lemma ConsultaCorreta(tabela: seq<Carga>, embarcadorId: string, filtros: Option<FiltrosCargas>)
    ensures var r := Consulta(tabela, embarcadorId, filtros);
      && (forall c :: multiset(r)[c] == if Selecionada(c, embarcadorId, filtros) then multiset(tabela)[c] else 0)
      && (forall i :: 0 <= i < |r| ==> Selecionada(r[i], embarcadorId, filtros))
      && Decrescente(r)
  {
    var f := Filtrar(tabela, embarcadorId, filtros);
    FiltrarCorreto(tabela, embarcadorId, filtros);
    OrdenadoCorreto(f);
    var r := Ordenado(f);
    forall i | 0 <= i < |r| ensures Selecionada(r[i], embarcadorId, filtros) {
      assert r[i] in multiset(f);
    }
  }

  // ---------------------------------------------------------------------------
  // The hook
  // ---------------------------------------------------------------------------

  /** A loaded shipment with `ultima_posicao` attached. */
  datatype CargaComPosicao = CargaComPosicao(carga: Carga, ultimaPosicao: Option<PosicaoGps>)

  function SoCargas(xs: seq<CargaComPosicao>): (r: seq<Carga>)
    ensures |r| == |xs|
  {
    seq(|xs|, i requires 0 <= i < |xs| => xs[i].carga)
  }

  /** What a completed `fetchCargas` leaves in the hook's `cargas` state. */
  ghost predicate ListaCarregada(
    cargas: seq<CargaComPosicao>, tabela: seq<Carga>, posicoes: seq<PosicaoGps>,
    embarcadorId: string, filtros: Option<FiltrosCargas>)
  {
    && SoCargas(cargas) == Consulta(tabela, embarcadorId, filtros)
    && (forall i :: 0 <= i < |cargas| ==>
          EhUltimaPosicao(posicoes, cargas[i].carga.id, cargas[i].ultimaPosicao))
  }

  /**
   * A loaded list holds every selected shipment and nothing else, newest first,
   * each with its most recent fix.
   */
  lemma ListaCarregadaCorreta(
    cargas: seq<CargaComPosicao>, tabela: seq<Carga>, posicoes: seq<PosicaoGps>,
    embarcadorId: string, filtros: Option<FiltrosCargas>)
    requires ListaCarregada(cargas, tabela, posicoes, embarcadorId, filtros)
    ensures forall c ::
              multiset(SoCargas(cargas))[c] == if Selecionada(c, embarcadorId, filtros) then multiset(tabela)[c] else 0
    ensures forall i :: 0 <= i < |cargas| ==> Selecionada(cargas[i].carga, embarcadorId, filtros)
    ensures Decrescente(SoCargas(cargas))
    ensures forall i :: 0 <= i < |cargas| ==>
      EhUltimaPosicao(posicoes, cargas[i].carga.id, cargas[i].ultimaPosicao)
  {
    ConsultaCorreta(tabela, embarcadorId, filtros);
    assert forall i :: 0 <= i < |cargas| ==> cargas[i].carga == SoCargas(cargas)[i];
  }

  /** `cargas.find((c) => c.id === id)`. */
  function Buscar(cargas: seq<CargaComPosicao>, id: nat): (r: Option<Carga>)
    ensures r.Some? ==> r.value.id == id
  {
    if cargas == [] then None
    else if cargas[0].carga.id == id then Some(cargas[0].carga)
    else Buscar(cargas[1..], id)
  }

  /** `find` answers nothing exactly when no loaded shipment has the id, and otherwise the first that has it. */
  lemma {:induction false} BuscarCorreto(cargas: seq<CargaComPosicao>, id: nat)
    ensures Buscar(cargas, id).None? <==> forall i :: 0 <= i < |cargas| ==> cargas[i].carga.id != id
    ensures Buscar(cargas, id).Some? ==>
      exists i :: 0 <= i < |cargas| && cargas[i].carga == Buscar(cargas, id).value
                  && (forall j :: 0 <= j < i ==> cargas[j].carga.id != id)
  {
    if cargas != [] && cargas[0].carga.id != id {
      BuscarCorreto(cargas[1..], id);
      assert forall j :: 1 <= j < |cargas| ==> cargas[j] == cargas[1..][j - 1];
      if Buscar(cargas, id).Some? {
        var i :| 0 <= i < |cargas[1..]| && cargas[1..][i].carga == Buscar(cargas, id).value
                 && (forall j :: 0 <= j < i ==> cargas[1..][j].carga.id != id);
        assert cargas[i + 1].carga == Buscar(cargas, id).value;
      }
    }
  }

  /**
   * What the mutating operations throw: the hook's own `Carga não encontrada`, or
   * the error the database answered, passed on unchanged.
   */
  datatype ErroCargas = CargaNaoEncontrada | FalhaBanco(mensagem: string)

  /** The `message` of the thrown error. */
  function MensagemErro(e: ErroCargas): string
  {
    match e
    case CargaNaoEncontrada => "Carga não encontrada"
    case FalhaBanco(m) => m
  }

  /** `Carga NF <nota> foi entregue com sucesso!`, the delivery alert for the shipper. */
  function AlertaEntrega(c: Carga): Alerta
  {
    Alerta(c.id, "entrega", "embarcador", "Carga NF " + c.notaFiscal + " foi entregue com sucesso!", false)
  }

  /** `velocidade_media_estimada: dados.velocidade_media_estimada || 60`. */
  function VelocidadeOuPadrao(v: real): real
  {
    if v == 0.0 then 60.0 else v
  }

  /** The row `criarCarga` inserts (the database adds the id, `ativo` and `created_at`). */
  function NovaCarga(dados: CargaFormData, id: nat, distancia: real, agora: int): Carga
    requires dados.dataCarregamento.Em? && dados.prazoEntrega.Em?
  {
    Carga(
      id, dados.embarcadorId, dados.notaFiscal,
      dados.origemCidade, dados.origemUf, dados.destinoCidade, dados.destinoUf,
      dados.toneladas, dados.descricao,
      dados.dataCarregamento.minutos, dados.prazoEntrega.minutos, None,
      Some(dados.motoristaNome), dados.motoristaTelefone, Some(dados.placaVeiculo),
      VelocidadeOuPadrao(dados.velocidadeMediaEstimada), distancia,
      dados.origemLat, dados.origemLng, dados.destinoLat, dados.destinoLng,
      EmTransito, NoPrazo, true, None, agora)
  }

  /**
   * One mounted `useCargas(embarcadorId, filtros)`: the hook's `cargas` state over
   * the backend tables in `db`.
   */
  class UseCargas {
    const db: Database
    const embarcadorId: string
    const filtros: Option<FiltrosCargas>
    var cargas: seq<CargaComPosicao>
    /** The hook's `error` state: the message of the last failed list query. */
    var erro: Option<string>

    constructor (db: Database, embarcadorId: string, filtros: Option<FiltrosCargas>)
      ensures this.db == db && this.embarcadorId == embarcadorId && this.filtros == filtros
      ensures cargas == [] && erro == None
    {
      this.db := db;
      this.embarcadorId := embarcadorId;
      this.filtros := filtros;
      cargas := [];
      erro := None;
    }

    /**
     * The state a reload leaves: the freshly loaded list with the error cleared, or,
     * when the list query failed with message `m`, the list `antes` and `m`.
     */
    ghost predicate Recarregada(falha: Option<string>, antes: seq<CargaComPosicao>)
      reads this`cargas, this`erro, db`cargas, db`posicoes
    {
      match falha
      case None => ListaCarregada(cargas, db.cargas, db.posicoes, embarcadorId, filtros) && erro == None
      case Some(m) => cargas == antes && erro == Some(m)
    }

    /**
     * `fetchCargas`: the database answers the list query, then the most recent fix
     * of each answered shipment is looked up, one after the other. `falhaConsulta`
     * is the message of a failed list query (`None` when it succeeds); the failure
     * is caught and only shown.
     */
    method FetchCargas(falhaConsulta: Option<string>)
      modifies this`cargas, this`erro
      ensures Recarregada(falhaConsulta, old(cargas))
    {
      if falhaConsulta.Some? {
        erro := falhaConsulta;
        return;
      }
      var linhas := Consulta(db.cargas, embarcadorId, filtros);
      var resultado: seq<CargaComPosicao> := [];
      var k := 0;
      while k < |linhas|
        invariant 0 <= k <= |linhas|
        invariant |resultado| == k
        invariant forall j :: 0 <= j < k ==> resultado[j].carga == linhas[j]
        invariant forall j :: 0 <= j < k ==>
          EhUltimaPosicao(db.posicoes, linhas[j].id, resultado[j].ultimaPosicao)
      {
        var p := UltimaPosicao(db.posicoes, linhas[k].id);
        resultado := resultado + [CargaComPosicao(linhas[k], p)];
        k := k + 1;
      }
      assert SoCargas(resultado) == linhas;
      cargas := resultado;
      erro := None;
    }

    /**
     * `criarCarga`: inserts the row with the defaults (in transit, on time, speed 60
     * when none was given, distance from the coordinates with 0 for a missing one),
     * appends the creation history row, and reloads the list. `calcularDistancia` is
     * `calcularDistanciaTotal`; `falhaInsercao` is the error the database answers
     * to the row insert (`None` when it succeeds) and is rethrown as it is;
     * `historicoOk` is its answer to the history insert, which the source does not
     * check. The database refuses a row whose dates it cannot read.
     */
    method CriarCarga(
      dados: CargaFormData, agora: int, calcularDistancia: (real, real, real, real) -> real,
      falhaInsercao: Option<string>, historicoOk: bool, falhaRecarga: Option<string>)
      returns (r: Result<Carga, ErroCargas>)
      requires db.Valid()
      requires !dados.dataCarregamento.Em? || !dados.prazoEntrega.Em? ==> falhaInsercao.Some?
      modifies this`cargas, this`erro, db
      ensures db.Valid()
      ensures db.posicoes == old(db.posicoes) && db.alertas == old(db.alertas)
      ensures r.Failure? <==> falhaInsercao.Some?
      ensures r.Failure? ==>
        r.error == FalhaBanco(falhaInsercao.value) && cargas == old(cargas) && erro == old(erro) && db.cargas == old(db.cargas)
        && db.historico == old(db.historico) && db.proximoId == old(db.proximoId)
      ensures r.Success? ==>
        && r.value.status == EmTransito
        && r.value.statusPrazo == NoPrazo
        && r.value.velocidadeMediaEstimada == VelocidadeOuPadrao(dados.velocidadeMediaEstimada)
        && r.value.distanciaTotalKm == calcularDistancia(
             GetOr(dados.origemLat, 0.0), GetOr(dados.origemLng, 0.0),
             GetOr(dados.destinoLat, 0.0), GetOr(dados.destinoLng, 0.0))
        && r.value == NovaCarga(dados, old(db.proximoId), r.value.distanciaTotalKm, agora)
        && (forall i :: 0 <= i < |old(db.cargas)| ==> old(db.cargas)[i].id != r.value.id)
        && db.cargas == old(db.cargas) + [r.value]
        && db.historico == old(db.historico)
             + (if historicoOk then [HistoricoStatus(r.value.id, None, EmTransito, "Carga criada")] else [])
        && Recarregada(falhaRecarga, old(cargas))
    {
      var distanciaTotal := calcularDistancia(
        GetOr(dados.origemLat, 0.0), GetOr(dados.origemLng, 0.0),
        GetOr(dados.destinoLat, 0.0), GetOr(dados.destinoLng, 0.0));
      if falhaInsercao.Some? {
        return Failure(FalhaBanco(falhaInsercao.value));
      }
      var carga := NovaCarga(dados, db.proximoId, distanciaTotal, agora);
      db.cargas := db.cargas + [carga];
      db.proximoId := db.proximoId + 1;
      if historicoOk {
        db.historico := db.historico + [HistoricoStatus(carga.id, None, EmTransito, "Carga criada")];
      }
      FetchCargas(falhaRecarga);
      r := Success(carga);
    }

    /**
     * `dispararAlertaEntrega`: the alert row for a loaded shipment; nothing for an
     * unknown one, and a failed insert is swallowed.
     */
    method DispararAlertaEntrega(cargaId: nat, alertaOk: bool)
      modifies db`alertas
      ensures db.alertas == old(db.alertas) +
        (match Buscar(cargas, cargaId)
         case Some(c) => if alertaOk then [AlertaEntrega(c)] else []
         case None => [])
    {
      var carga := Buscar(cargas, cargaId);
      if carga.None? {
        return;
      }
      if alertaOk {
        db.alertas := db.alertas + [AlertaEntrega(carga.value)];
      }
    }

    /**
     * `marcarComoEntregue`: refuses an id that is not in the loaded list; otherwise
     * sets `entregue` and the delivery time, records the transition from the status
     * the loaded row shows, raises the alert and reloads. There is no check that the
     * shipment is still in transit.
     */
    method MarcarComoEntregue(
      id: nat, agora: int, falhaAtualizacao: Option<string>, historicoOk: bool, alertaOk: bool, falhaRecarga: Option<string>)
      returns (falha: Option<ErroCargas>)
      requires db.Valid()
      modifies this`cargas, this`erro, db`cargas, db`historico, db`alertas
      ensures db.Valid()
      ensures Buscar(old(cargas), id).None? ==> falha == Some(CargaNaoEncontrada)
      ensures Buscar(old(cargas), id).Some? && falhaAtualizacao.Some? ==>
        falha == Some(FalhaBanco(falhaAtualizacao.value))
      ensures falha.Some? ==>
        cargas == old(cargas) && erro == old(erro) && db.cargas == old(db.cargas)
        && db.historico == old(db.historico) && db.alertas == old(db.alertas)
      ensures falha.None? <==> Buscar(old(cargas), id).Some? && falhaAtualizacao.None?
      ensures falha.None? ==>
        var anterior := Buscar(old(cargas), id).value;
        && db.cargas == MarcarEntregueNaTabela(old(db.cargas), id, agora)
        && db.historico == old(db.historico)
             + (if historicoOk then [HistoricoStatus(id, Some(anterior.status), Entregue, "Carga entregue")] else [])
        && db.alertas == old(db.alertas) + (if alertaOk then [AlertaEntrega(anterior)] else [])
        && Recarregada(falhaRecarga, old(cargas))
    {
      var carga := Buscar(cargas, id);
      if carga.None? {
        return Some(CargaNaoEncontrada);
      }
      if falhaAtualizacao.Some? {
        return Some(FalhaBanco(falhaAtualizacao.value));
      }
      db.cargas := MarcarEntregueNaTabela(db.cargas, id, agora);
      assert db.Valid();
      if historicoOk {
        db.historico := db.historico + [HistoricoStatus(id, Some(carga.value.status), Entregue, "Carga entregue")];
      }
      assert Buscar(cargas, id) == carga;
      DispararAlertaEntrega(id, alertaOk);
      assert db.alertas == old(db.alertas) + (if alertaOk then [AlertaEntrega(carga.value)] else []);
      FetchCargas(falhaRecarga);
      falha := None;
    }

    /**
     * `cancelarCarga`: refuses an id that is not in the loaded list; otherwise sets
     * `cancelada` (and nothing else), records the reason in the history and reloads.
     */
    method CancelarCarga(id: nat, motivo: string, falhaAtualizacao: Option<string>, historicoOk: bool, falhaRecarga: Option<string>)
      returns (falha: Option<ErroCargas>)
      requires db.Valid()
      modifies this`cargas, this`erro, db`cargas, db`historico
      ensures db.Valid()
      ensures falha.None? <==> Buscar(old(cargas), id).Some? && falhaAtualizacao.None?
      ensures Buscar(old(cargas), id).None? ==> falha == Some(CargaNaoEncontrada)
      ensures Buscar(old(cargas), id).Some? && falhaAtualizacao.Some? ==>
        falha == Some(FalhaBanco(falhaAtualizacao.value))
      ensures falha.Some? ==>
        cargas == old(cargas) && erro == old(erro) && db.cargas == old(db.cargas) && db.historico == old(db.historico)
      ensures falha.None? ==>
        var anterior := Buscar(old(cargas), id).value;
        && |db.cargas| == |old(db.cargas)|
        && (forall i :: 0 <= i < |db.cargas| ==>
              db.cargas[i] == if old(db.cargas)[i].id == id then old(db.cargas)[i].(status := Cancelada)
                              else old(db.cargas)[i])
        && db.historico == old(db.historico)
             + (if historicoOk then [HistoricoStatus(id, Some(anterior.status), Cancelada, motivo)] else [])
        && Recarregada(falhaRecarga, old(cargas))
    {
      var carga := Buscar(cargas, id);
      if carga.None? {
        return Some(CargaNaoEncontrada);
      }
      if falhaAtualizacao.Some? {
        return Some(FalhaBanco(falhaAtualizacao.value));
      }
      db.cargas := CancelarNaTabela(db.cargas, id);
      assert db.Valid();
      if historicoOk {
        db.historico := db.historico + [HistoricoStatus(id, Some(carga.value.status), Cancelada, motivo)];
      }
      FetchCargas(falhaRecarga);
      falha := None;
    }
  }

  // ---------------------------------------------------------------------------
  // Dashboard metrics
  // ---------------------------------------------------------------------------

  datatype MetricasDashboard = MetricasDashboard(
    totalCargas: nat,
    cargasEmTransito: nat,
    cargasEntregues: nat,
    cargasNoPrazo: nat,
    cargasAtrasadas: nat,
    cargasAdiantadas: nat,
    totalToneladasTransporte: real,
    totalToneladasEntregues: real,
    percentualEntregaPrazo: real,
    percentualEntregaAdiantada: real,
    percentualEntregaAtrasada: real)

  function ContarStatus(rows: seq<Carga>, s: StatusCarga): (n: nat)
    ensures n <= |rows|
  {
    if rows == [] then 0
    else (if rows[0].status == s then 1 else 0) + ContarStatus(rows[1..], s)
  }

  function ContarPrazo(rows: seq<Carga>, p: StatusPrazo): (n: nat)
    ensures n <= |rows|
  {
    if rows == [] then 0
    else (if rows[0].statusPrazo == p then 1 else 0) + ContarPrazo(rows[1..], p)
  }

  function SomarToneladas(rows: seq<Carga>): real
  {
    if rows == [] then 0.0 else rows[0].toneladas + SomarToneladas(rows[1..])
  }

  function SomarToneladasEntregues(rows: seq<Carga>): real
  {
    if rows == [] then 0.0
    else (if rows[0].status == Entregue then rows[0].toneladas else 0.0) + SomarToneladasEntregues(rows[1..])
  }

  /**
   * With no negative tonnage, the delivered tonnage is part of the total tonnage;
   * without a delivered shipment it is 0.
   */
  lemma {:induction false} ToneladasEntreguesLimitadas(rows: seq<Carga>)
    requires forall i :: 0 <= i < |rows| ==> rows[i].toneladas >= 0.0
    ensures 0.0 <= SomarToneladasEntregues(rows) <= SomarToneladas(rows)
    ensures ContarStatus(rows, Entregue) == 0 ==> SomarToneladasEntregues(rows) == 0.0
  {
    if rows != [] {
      ToneladasEntreguesLimitadas(rows[1..]);
    }
  }

  /** When every shipment is delivered, the two tonnage sums agree. */
  lemma {:induction false} ToneladasTodasEntregues(rows: seq<Carga>)
    requires forall i :: 0 <= i < |rows| ==> rows[i].status == Entregue
    ensures SomarToneladasEntregues(rows) == SomarToneladas(rows)
  {
    if rows != [] {
      ToneladasTodasEntregues(rows[1..]);
    }
  }

  /** `entregues > 0 ? (parte / entregues) * 100 : 0`. */
  function Percentual(parte: nat, entregues: nat): real
  {
    if entregues > 0 then (parte as real / entregues as real) * 100.0 else 0.0
  }

  /** The object `fetchMetricas` builds from the loaded rows. */
  function Metricas(rows: seq<Carga>): MetricasDashboard
  {
    var entregues := ContarStatus(rows, Entregue);
    var noPrazo := ContarPrazo(rows, NoPrazo);
    var atrasadas := ContarPrazo(rows, Atrasado);
    var adiantadas := ContarPrazo(rows, Adiantado);
    MetricasDashboard(
      |rows|, ContarStatus(rows, EmTransito), entregues,
      noPrazo, atrasadas, adiantadas,
      SomarToneladas(rows), SomarToneladasEntregues(rows),
      Percentual(noPrazo, entregues), Percentual(adiantadas, entregues), Percentual(atrasadas, entregues))
  }

  /** What `fetchMetricas` computes: the metrics of the active shipments (of one shipper, when given). */
  function MetricasAtivas(tabela: seq<Carga>, embarcadorId: string): MetricasDashboard
  {
    Metricas(Filtrar(tabela, embarcadorId, None))
  }

  /** The three lifecycle counts split the rows. */
  lemma {:induction false} StatusParticionam(rows: seq<Carga>)
    ensures ContarStatus(rows, EmTransito) + ContarStatus(rows, Entregue) + ContarStatus(rows, Cancelada) == |rows|
  {
    if rows != [] {
      StatusParticionam(rows[1..]);
    }
  }

  /** The three deadline counts split the rows. */
  lemma {:induction false} PrazosParticionam(rows: seq<Carga>)
    ensures ContarPrazo(rows, NoPrazo) + ContarPrazo(rows, Atrasado) + ContarPrazo(rows, Adiantado) == |rows|
  {
    if rows != [] {
      PrazosParticionam(rows[1..]);
    }
  }

  /**
   * The bounds of the metrics: the counts never exceed the total, and without a
   * delivered shipment every percentage is 0 rather than a division by zero.
   */
  lemma MetricasLimites(tabela: seq<Carga>, embarcadorId: string)
    ensures var m := MetricasAtivas(tabela, embarcadorId);
      && m.cargasEmTransito + m.cargasEntregues <= m.totalCargas
      && m.cargasNoPrazo + m.cargasAtrasadas + m.cargasAdiantadas <= m.totalCargas
      && (m.cargasEntregues == 0 ==>
            m.percentualEntregaPrazo == 0.0 && m.percentualEntregaAdiantada == 0.0
            && m.percentualEntregaAtrasada == 0.0)
      && m.totalCargas == |Filtrar(tabela, embarcadorId, None)|
  {
    var rows := Filtrar(tabela, embarcadorId, None);
    StatusParticionam(rows);
    PrazosParticionam(rows);
  }

  /** One mounted `useMetricasDashboard(embarcadorId)`: the hook's `metricas` state. */
  class UseMetricasDashboard {
    const db: Database
    const embarcadorId: string
    var metricas: Option<MetricasDashboard>

    constructor (db: Database, embarcadorId: string)
      ensures this.db == db && this.embarcadorId == embarcadorId
      ensures metricas == None
    {
      this.db := db;
      this.embarcadorId := embarcadorId;
      metricas := None;
    }

    /**
     * `fetchMetricas`: a successful query replaces the metrics with those of the
     * answered rows; a failed one is caught and the previous metrics stay.
     */
    method FetchMetricas(consultaOk: bool)
      modifies this`metricas
      ensures consultaOk ==> metricas == Some(MetricasAtivas(db.cargas, embarcadorId))
      ensures !consultaOk ==> metricas == old(metricas)
    {
      if !consultaOk {
        return;
      }
      var linhas := Filtrar(db.cargas, embarcadorId, None);
      metricas := Some(Metricas(linhas));
    }
  }

  /**
   * The on-time percentage counts every loaded shipment that is on time, delivered
   * or not, over the delivered ones: one shipment in transit and one delivered, both
   * on time, give 200%.
   */
  lemma PercentualNoPrazoExcede100()
    ensures exists rows: seq<Carga> :: Metricas(rows).percentualEntregaPrazo == 200.0
  {
    var c := Carga(0, "", "", "", "", "", "", 0.0, "", 0, 0, None, None, None, None,
                   60.0, 0.0, None, None, None, None, EmTransito, NoPrazo, true, None, 0);
    var d := c.(id := 1, status := Entregue);
    var rows := [c, d];
    assert rows[1..] == [d];
    assert [d][1..] == [];
    assert ContarStatus(rows, Entregue) == 1;
    assert ContarPrazo(rows, NoPrazo) == 2;
    assert Metricas(rows).percentualEntregaPrazo == 200.0;
  }

  /** The number of delivered shipments with deadline status `p`. */
  function ContarEntreguesPrazo(rows: seq<Carga>, p: StatusPrazo): (n: nat)
    ensures n <= ContarStatus(rows, Entregue)
  {
    if rows == [] then 0
    else (if rows[0].status == Entregue && rows[0].statusPrazo == p then 1 else 0)
         + ContarEntreguesPrazo(rows[1..], p)
  }

  lemma {:induction false} EntreguesPrazosParticionam(rows: seq<Carga>)
    ensures ContarEntreguesPrazo(rows, NoPrazo) + ContarEntreguesPrazo(rows, Atrasado)
            + ContarEntreguesPrazo(rows, Adiantado) == ContarStatus(rows, Entregue)
  {
    if rows != [] {
      EntreguesPrazosParticionam(rows[1..]);
    }
  }

  /** The metrics with the delivery percentages taken over delivered shipments only. */
  function MetricasCorrigidas(rows: seq<Carga>): MetricasDashboard
  {
    var entregues := ContarStatus(rows, Entregue);
    Metricas(rows).(
      percentualEntregaPrazo := Percentual(ContarEntreguesPrazo(rows, NoPrazo), entregues),
      percentualEntregaAdiantada := Percentual(ContarEntreguesPrazo(rows, Adiantado), entregues),
      percentualEntregaAtrasada := Percentual(ContarEntreguesPrazo(rows, Atrasado), entregues))
  }

  /** Corrected, each percentage lies in [0, 100] and, once something was delivered, they add up to 100. */
  lemma MetricasCorrigidasLimitadas(rows: seq<Carga>)
    ensures var m := MetricasCorrigidas(rows);
      && 0.0 <= m.percentualEntregaPrazo <= 100.0
      && 0.0 <= m.percentualEntregaAdiantada <= 100.0
      && 0.0 <= m.percentualEntregaAtrasada <= 100.0
      && (m.cargasEntregues > 0 ==>
            m.percentualEntregaPrazo + m.percentualEntregaAdiantada + m.percentualEntregaAtrasada == 100.0)
  {
    var e := ContarStatus(rows, Entregue);
    var a, b, c := ContarEntreguesPrazo(rows, NoPrazo), ContarEntreguesPrazo(rows, Adiantado),
                   ContarEntreguesPrazo(rows, Atrasado);
    EntreguesPrazosParticionam(rows);
    PercentualAte100(a, e);
    PercentualAte100(b, e);
    PercentualAte100(c, e);
    if e > 0 {
      PercentuaisSomam(a, b, c, e);
    }
  }

  lemma PercentualAte100(parte: nat, total: nat)
    requires parte <= total
    ensures 0.0 <= Percentual(parte, total) <= 100.0
  {
    if total > 0 {
      assert parte as real / total as real <= 1.0;
    }
  }

  lemma PercentuaisSomam(a: nat, b: nat, c: nat, total: nat)
    requires 0 < total && a + b + c == total
    ensures Percentual(a, total) + Percentual(b, total) + Percentual(c, total) == 100.0
  {
    var t := total as real;
    assert a as real / t + b as real / t + c as real / t == (a as real + b as real + c as real) / t;
    assert (a as real + b as real + c as real) / t == 1.0;
  }
}
