/**
 * `RastreamentoService`: the registry of tracking sessions (one repeating timer
 * per shipment), the capture tick that appends a fix, the driver's entry point
 * with a tracking token, the token, link and WhatsApp URL formats, and the
 * "is the driver still sharing" freshness check.
 */
module Rastreamento {
  import opened Wrappers
  import opened Digitos
  import opened Banco

  /** `config.intervaloAtualizacao`, in minutes. */
  const IntervaloAtualizacao: nat := 5

  /** The period given to `setInterval`, in milliseconds. */
  const PeriodoMs: nat := IntervaloAtualizacao * 60 * 1000

  /** Ten minutes in milliseconds: the freshness limit of the sharing check. */
  const LimiteCompartilhamentoMs: int := 10 * 60 * 1000

  /** What `getCurrentPosition` hands to its success callback. */
  datatype Leitura = Leitura(latitude: real, longitude: real, velocidade: Option<real>, precisao: real)

  /** An armed repeating timer of the runtime: which shipment it captures for, and its period. */
  datatype Intervalo = Intervalo(cargaId: nat, periodoMs: nat)

  /** The fix `capturarPosicao` inserts for a reading taken at `agora`. */
  function Fix(cargaId: nat, l: Leitura, agora: int): PosicaoGps
  {
    PosicaoGps(cargaId, l.latitude, l.longitude, l.velocidade, l.precisao, "api_rastreamento", agora)
  }

  // ---------------------------------------------------------------------------
  // Tokens and links
  // ---------------------------------------------------------------------------

  function DigitoDecimal(d: nat): (c: char)
    requires d < 10
    ensures EhDigito(c)
  {
    ('0' as int + d) as char
  }

  /** `String(n)` for a non-negative integer. */
  function NatParaDecimal(n: nat): (r: string)
    ensures SoDigitos(r) && |r| >= 1
  {
    if n < 10 then [DigitoDecimal(n)] else NatParaDecimal(n / 10) + [DigitoDecimal(n % 10)]
  }

  /** The value of a decimal numeral. */
  function DecimalParaNat(s: string): nat
    requires SoDigitos(s)
  {
    if s == [] then 0 else DecimalParaNat(s[..|s| - 1]) * 10 + (s[|s| - 1] as int - '0' as int)
  }

  lemma {:induction false} DecimalIda(n: nat)
    ensures DecimalParaNat(NatParaDecimal(n)) == n
  {
    if n >= 10 {
      var p := NatParaDecimal(n / 10);
      var r := p + [DigitoDecimal(n % 10)];
      assert r[..|r| - 1] == p;
      DecimalIda(n / 10);
    }
  }

  /** The digit `d` of `Number.prototype.toString(36)`. */
  function DigitoBase36(d: nat): char
    requires d < 36
  {
    if d < 10 then ('0' as int + d) as char else ('a' as int + d - 10) as char
  }

  /**
   * `Math.random().toString(36).substring(2, 15)`: the base-36 fraction digits that
   * follow `"0."`, cut to 13. `fracao` is the random number's expansion.
   */
  function SufixoAleatorio(fracao: seq<nat>): (r: string)
    requires forall i :: 0 <= i < |fracao| ==> fracao[i] < 36
    ensures |r| <= 13
    ensures forall i :: 0 <= i < |r| ==> r[i] != '-'
  {
    Primeiros(seq(|fracao|, i requires 0 <= i < |fracao| => DigitoBase36(fracao[i])), 13)
  }

  /** `gerarToken`: `<Date.now()>-<random suffix>`. */
  function GerarToken(agora: nat, fracao: seq<nat>): string
    requires forall i :: 0 <= i < |fracao| ==> fracao[i] < 36
  {
    NatParaDecimal(agora) + "-" + SufixoAleatorio(fracao)
  }

  /** The first position of `c` in `s`. */
  function IndiceDe(s: string, c: char): (r: Option<nat>)
    ensures r.Some? ==> r.value < |s| && s[r.value] == c && forall j :: 0 <= j < r.value ==> s[j] != c
    ensures r.None? ==> forall j :: 0 <= j < |s| ==> s[j] != c
  {
    if s == [] then None
    else if s[0] == c then Some(0)
    else match IndiceDe(s[1..], c)
      case None => None
      case Some(k) => Some(k + 1)
  }

  /** Reads a token back: the creation instant before the first `-`, the suffix after it. */
  function LerToken(t: string): Option<(nat, string)>
  {
    match IndiceDe(t, '-')
    case None => None
    case Some(k) =>
      if k > 0 && SoDigitos(t[..k]) then Some((DecimalParaNat(t[..k]), t[k + 1..])) else None
  }

  /** A token gives back the instant and the suffix it was made from. */
  lemma TokenLegivel(agora: nat, fracao: seq<nat>)
    requires forall i :: 0 <= i < |fracao| ==> fracao[i] < 36
    ensures LerToken(GerarToken(agora, fracao)) == Some((agora, SufixoAleatorio(fracao)))
  {
    var p := NatParaDecimal(agora);
    var t := GerarToken(agora, fracao);
    assert t[|p|] == '-';
    assert forall j :: 0 <= j < |p| ==> t[j] == p[j];
    assert IndiceDe(t, '-') == Some(|p|);
    assert t[..|p|] == p;
    assert t[|p| + 1..] == SufixoAleatorio(fracao);
    DecimalIda(agora);
  }

  /** Tokens made at different instants differ. */
  lemma TokensDeInstantesDiferentes(a: nat, fa: seq<nat>, b: nat, fb: seq<nat>)
    requires forall i :: 0 <= i < |fa| ==> fa[i] < 36
    requires forall i :: 0 <= i < |fb| ==> fb[i] < 36
    requires a != b
    ensures GerarToken(a, fa) != GerarToken(b, fb)
  {
    TokenLegivel(a, fa);
    TokenLegivel(b, fb);
  }

  /** `${window.location.origin}/rastreamento/${token}`. */
  function LinkRastreamento(origem: string, token: string): (r: string)
    ensures |r| == |origem| + 14 + |token|
    ensures r[..|origem|] == origem
    ensures r[|origem|..|origem| + 14] == "/rastreamento/"
    ensures r[|origem| + 14..] == token
  {
    origem + "/rastreamento/" + token
  }

  /**
   * The driver's page reads the instant and the random suffix back from the part
   * of a generated link after `/rastreamento/`.
   */
  lemma LinkLegivel(origem: string, agora: nat, fracao: seq<nat>)
    requires forall i :: 0 <= i < |fracao| ==> fracao[i] < 36
    ensures var link := LinkRastreamento(origem, GerarToken(agora, fracao));
      LerToken(link[|origem| + 14..]) == Some((agora, SufixoAleatorio(fracao)))
  {
    TokenLegivel(agora, fracao);
  }

  /** The rows whose `link_rastreamento` is `token`, in table order. */
  function LinhasComToken(rows: seq<Carga>, token: string): (r: seq<Carga>)
    ensures |r| <= |rows|
    ensures forall c :: c in r <==> c in rows && c.linkRastreamento == Some(token)
  {
    if rows == [] then []
    else
      var resto := LinhasComToken(rows[1..], token);
      assert rows == [rows[0]] + rows[1..];
      if rows[0].linkRastreamento == Some(token) then [rows[0]] + resto else resto
  }

  lemma {:induction false} SemTokenNenhuma(rows: seq<Carga>, token: string)
    requires forall j :: 0 <= j < |rows| ==> rows[j].linkRastreamento != Some(token)
    ensures LinhasComToken(rows, token) == []
  {
    if rows != [] {
      SemTokenNenhuma(rows[1..], token);
    }
  }

  /**
   * Writing a fresh token on the one row with that id makes the driver's lookup by
   * that token find exactly that row.
   */
  lemma {:induction false} TokenGravadoEncontrado(rows: seq<Carga>, id: nat, token: string, k: nat)
    requires k < |rows| && rows[k].id == id
    requires forall j :: 0 <= j < |rows| && j != k ==> rows[j].id != id
    requires forall j :: 0 <= j < |rows| ==> rows[j].linkRastreamento != Some(token)
    ensures var achadas := LinhasComToken(GravarTokenNaTabela(rows, id, token), token);
      |achadas| == 1 && achadas[0].id == id
  {
    var novas := GravarTokenNaTabela(rows, id, token);
    assert novas[1..] == GravarTokenNaTabela(rows[1..], id, token);
    if k == 0 {
      assert forall j :: 0 <= j < |novas[1..]| ==> novas[1..][j] == rows[j + 1];
      SemTokenNenhuma(novas[1..], token);
    } else {
      TokenGravadoEncontrado(rows[1..], id, token, k - 1);
    }
  }

  // ---------------------------------------------------------------------------
  // The WhatsApp URL
  // ---------------------------------------------------------------------------

  /** The text of the message before the link. */
  const AberturaMensagem: string := "Olá! \U{1F44B}\n      \nPara que possamos rastrear sua carga em tempo real, por favor clique no link abaixo e permita o acesso à sua localização:\n\n"

  /** The text of the message after the link. */
  const FechoMensagem: string := "\n\nEste link é seguro e será usado apenas para acompanhar a entrega da carga.\n\nObrigado!\nBraticargas"

  /** The message sent to the driver, with the link on a line of its own. */
  function MensagemWhatsApp(link: string): string
  {
    AberturaMensagem + link + FechoMensagem
  }

  /** The characters `encodeURIComponent` leaves as they are. */
  predicate NaoReservado(c: char)
  {
    ('A' <= c <= 'Z') || ('a' <= c <= 'z') || ('0' <= c <= '9')
    || c == '-' || c == '_' || c == '.' || c == '!' || c == '~' || c == '*' || c == '\'' || c == '(' || c == ')'
  }

  /** Every element is a byte value. */
  predicate Bytes(bs: seq<int>)
  {
    forall i :: 0 <= i < |bs| ==> 0 <= bs[i] < 256
  }

  /** The UTF-8 bytes of one Unicode scalar value. */
  function Utf8(c: char): (r: seq<int>)
    ensures 1 <= |r| <= 4
    ensures Bytes(r)
    ensures c as int < 0x80 ==> r == [c as int]
  {
    var n := c as int;
    if n < 0x80 then [n]
    else if n < 0x800 then [0xC0 + n / 64, 0x80 + n % 64]
    else if n < 0x10000 then [0xE0 + n / 4096, 0x80 + (n / 64) % 64, 0x80 + n % 64]
    else [0xF0 + n / 262144, 0x80 + (n / 4096) % 64, 0x80 + (n / 64) % 64, 0x80 + n % 64]
  }

  function Utf8Texto(s: string): seq<int>
  {
    if s == [] then [] else Utf8(s[0]) + Utf8Texto(s[1..])
  }

  function DigitoHex(d: nat): (c: char)
    requires d < 16
    ensures NaoReservado(c)
  {
    "0123456789ABCDEF"[d]
  }

  predicate EhHex(c: char)
  {
    ('0' <= c <= '9') || ('A' <= c <= 'F')
  }

  function ValorHex(c: char): nat
    requires EhHex(c)
  {
    if c <= '9' then c as int - '0' as int else c as int - 'A' as int + 10
  }

  lemma ValorDigitoHex(d: nat)
    requires d < 16
    ensures EhHex(DigitoHex(d)) && ValorHex(DigitoHex(d)) == d
  {
  }

  /** `%XX` for every byte, upper-case hexadecimal. */
  function Percentual(bs: seq<int>): (r: string)
    requires Bytes(bs)
    ensures |r| == 3 * |bs|
    ensures forall i :: 0 <= i < |r| ==> NaoReservado(r[i]) || r[i] == '%'
  {
    if bs == [] then []
    else
      var b: nat := bs[0];
      ['%', DigitoHex(b / 16), DigitoHex(b % 16)] + Percentual(bs[1..])
  }

  function CodificarCaractere(c: char): (r: string)
    ensures forall i :: 0 <= i < |r| ==> NaoReservado(r[i]) || r[i] == '%'
  {
    if NaoReservado(c) then [c] else Percentual(Utf8(c))
  }

  /** `encodeURIComponent`. */
  function EncodeURIComponent(s: string): (r: string)
    ensures forall i :: 0 <= i < |r| ==> NaoReservado(r[i]) || r[i] == '%'
  {
    if s == [] then [] else CodificarCaractere(s[0]) + EncodeURIComponent(s[1..])
  }

  /** A string of unreserved characters is encoded as itself. */
  lemma {:induction false} EncodeURIComponentNaoReservados(s: string)
    requires forall i :: 0 <= i < |s| ==> NaoReservado(s[i])
    ensures EncodeURIComponent(s) == s
  {
    if s != [] {
      EncodeURIComponentNaoReservados(s[1..]);
      assert s == [s[0]] + s[1..];
    }
  }

  /**
   * Percent-decoding to bytes: `%XX` is the byte `XX`, any other character its own
   * code; a `%` without two hexadecimal digits is malformed.
   */
  function DecodificarPercentual(s: string): Option<seq<int>>
  {
    if s == [] then Some([])
    else if s[0] == '%' then
      if |s| >= 3 && EhHex(s[1]) && EhHex(s[2]) then
        match DecodificarPercentual(s[3..])
        case None => None
        case Some(r) => Some([ValorHex(s[1]) * 16 + ValorHex(s[2])] + r)
      else None
    else
      match DecodificarPercentual(s[1..])
      case None => None
      case Some(r) => Some([s[0] as int] + r)
  }

  /** The two hexadecimal digits of a byte give the byte back. */
  lemma HexDeByte(b: nat)
    requires b < 256
    ensures EhHex(DigitoHex(b / 16)) && EhHex(DigitoHex(b % 16))
    ensures ValorHex(DigitoHex(b / 16)) * 16 + ValorHex(DigitoHex(b % 16)) == b
  {
    ValorDigitoHex(b / 16);
    ValorDigitoHex(b % 16);
  }

  /** One `%XX` triple in front of a decodable rest. */
  lemma DecodificarTriplo(b: nat, cauda: string, x: seq<int>)
    requires b < 256
    requires DecodificarPercentual(cauda) == Some(x)
    ensures DecodificarPercentual(['%', DigitoHex(b / 16), DigitoHex(b % 16)] + cauda) == Some([b] + x)
  {
    var s := ['%', DigitoHex(b / 16), DigitoHex(b % 16)] + cauda;
    HexDeByte(b);
    assert s[3..] == cauda;
  }

  lemma {:induction false} DecodificarPercentualBytes(bs: seq<int>, resto: string, r: seq<int>)
    requires Bytes(bs)
    requires DecodificarPercentual(resto) == Some(r)
    ensures DecodificarPercentual(Percentual(bs) + resto) == Some(bs + r)
  {
    if bs == [] {
      assert Percentual(bs) + resto == resto;
      assert bs + r == r;
    } else {
      var b: nat := bs[0];
      PercentualCabeca(bs, resto);
      DecodificarPercentualBytes(bs[1..], resto, r);
      DecodificarTriplo(b, Percentual(bs[1..]) + resto, bs[1..] + r);
      SepararCabeca(bs, r);
    }
  }

  /** The encoding of a non-empty byte string is the triple of its first byte, then the rest. */
  lemma PercentualCabeca(bs: seq<int>, resto: string)
    requires Bytes(bs) && bs != []
    ensures 0 <= bs[0] < 256
    ensures Percentual(bs) + resto
         == ['%', DigitoHex(bs[0] / 16), DigitoHex(bs[0] % 16)] + (Percentual(bs[1..]) + resto)
  {
    var t := ['%', DigitoHex(bs[0] / 16), DigitoHex(bs[0] % 16)];
    var p := Percentual(bs[1..]);
    assert Percentual(bs) == t + p;
    Associa(t, p, resto);
  }

  lemma Associa(a: string, b: string, c: string)
    ensures (a + b) + c == a + (b + c)
  {
  }

  lemma SepararCabeca(xs: seq<int>, ys: seq<int>)
    requires xs != []
    ensures xs + ys == [xs[0]] + (xs[1..] + ys)
  {
    assert xs == [xs[0]] + xs[1..];
  }

  /** Percent-decoding the encoded text gives back the text's UTF-8 bytes. */
  lemma {:induction false} EncodeURIComponentDecodifica(s: string)
    ensures DecodificarPercentual(EncodeURIComponent(s)) == Some(Utf8Texto(s))
  {
    if s != [] {
      EncodeURIComponentDecodifica(s[1..]);
      var resto := EncodeURIComponent(s[1..]);
      if NaoReservado(s[0]) {
        assert ([s[0]] + resto)[1..] == resto;
      } else {
        DecodificarPercentualBytes(Utf8(s[0]), resto, Utf8Texto(s[1..]));
      }
    }
  }

  /** `https://wa.me/55<digits of the phone>?text=<encoded text>`. */
  function UrlWhatsAppTexto(telefone: string, texto: string): string
  {
    "https://wa.me/55" + SomenteDigitos(telefone) + "?text=" + EncodeURIComponent(texto)
  }

  /** The URL `enviarLinkWhatsApp` builds for the driver's phone and the tracking link. */
  function UrlWhatsApp(telefone: string, link: string): string
  {
    UrlWhatsAppTexto(telefone, MensagemWhatsApp(link))
  }

  /**
   * The URL's parts can be read back: the fixed prefix, the phone's digits, the
   * `?text=` separator, and a query value with no `?`, `&`, `#` or space that
   * decodes to the text's UTF-8 bytes.
   */
  lemma UrlWhatsAppPartes(telefone: string, texto: string)
    ensures var u := UrlWhatsAppTexto(telefone, texto);
      var d := SomenteDigitos(telefone);
      var k := 22 + |d|;
      && |u| >= k
      && u[..16] == "https://wa.me/55"
      && u[16..k - 6] == d
      && u[k - 6..k] == "?text="
      && (forall i :: k <= i < |u| ==> u[i] != '?' && u[i] != '&' && u[i] != '#' && u[i] != ' ')
      && DecodificarPercentual(u[k..]) == Some(Utf8Texto(texto))
  {
    var d := SomenteDigitos(telefone);
    var e := EncodeURIComponent(texto);
    var k := 22 + |d|;
    var u := "https://wa.me/55" + d + "?text=" + e;
    assert u[k..] == e;
    forall i | k <= i < |u|
      ensures u[i] != '?' && u[i] != '&' && u[i] != '#' && u[i] != ' '
    {
      assert u[i] == e[i - k];
    }
    assert u[..16] == "https://wa.me/55";
    assert u[16..k - 6] == d;
    assert u[k - 6..k] == "?text=";
    EncodeURIComponentDecodifica(texto);
  }

  /** Dropping a key and then storing it is storing it. */
  lemma RegistrarDeNovo(m: map<nat, nat>, k: nat, v: nat)
    ensures (m - {k})[k := v] == m[k := v]
  {
  }

  // ---------------------------------------------------------------------------
  // The service
  // ---------------------------------------------------------------------------

  /**
   * The service object: `intervalos` maps a shipment to the handle of its timer;
   * `timers` is the runtime's table of armed timers by handle, and `proximoHandle`
   * the next handle `setInterval` gives out.
   */
  class RastreamentoService {
    const db: Database
    var intervalos: map<nat, nat>
    var timers: map<nat, Intervalo>
    var proximoHandle: nat

    /**
     * Every registered handle is armed for its shipment with the configured period,
     * every armed timer is the registered one of its shipment, and every handle was
     * given out already.
     */
    ghost predicate Valid()
      reads this`intervalos, this`timers, this`proximoHandle
    {
      && (forall id :: id in intervalos ==>
            intervalos[id] in timers && timers[intervalos[id]] == Intervalo(id, PeriodoMs))
      && (forall h :: h in timers ==>
            timers[h].cargaId in intervalos && intervalos[timers[h].cargaId] == h && h < proximoHandle)
    }

    constructor (db: Database)
      ensures Valid()
      ensures this.db == db && intervalos == map[] && timers == map[]
    {
      this.db := db;
      intervalos := map[];
      timers := map[];
      proximoHandle := 0;
    }

    /** `pararRastreamento`: clears and forgets the shipment's timer, if it has one. */
    method PararRastreamento(cargaId: nat)
      requires Valid()
      modifies this`intervalos, this`timers
      ensures Valid()
      ensures intervalos == old(intervalos) - {cargaId}
      ensures timers == if cargaId in old(intervalos) then old(timers) - {old(intervalos)[cargaId]} else old(timers)
      ensures forall h :: h in timers ==> timers[h].cargaId != cargaId
    {
      if cargaId in intervalos {
        timers := timers - {intervalos[cargaId]};
        intervalos := intervalos - {cargaId};
      }
    }

    /** `pararTodosRastreamentos`: clears every registered timer, then empties the registry. */
    method PararTodosRastreamentos()
      requires Valid()
      modifies this`intervalos, this`timers
      ensures Valid()
      ensures intervalos == map[] && timers == map[]
    {
      var restantes := intervalos.Keys;
      while restantes != {}
        invariant restantes <= intervalos.Keys
        invariant forall h :: h in timers ==>
          timers[h].cargaId in restantes && intervalos[timers[h].cargaId] == h
        decreases |restantes|
      {
        var id :| id in restantes;
        timers := timers - {intervalos[id]};
        restantes := restantes - {id};
      }
      assert timers.Keys == {};
      intervalos := map[];
    }

    /**
     * `capturarPosicao`: inserts a fix when the reading and the insert both succeed
     * and swallows any failure. `leitura` is `None` when `getCurrentPosition` fails.
     */
    method CapturarPosicao(cargaId: nat, leitura: Option<Leitura>, insercaoOk: bool, agora: int)
      modifies db`posicoes
      ensures db.posicoes == old(db.posicoes)
        + (if leitura.Some? && insercaoOk then [Fix(cargaId, leitura.value, agora)] else [])
    {
      if leitura.None? {
        return;
      }
      if !insercaoOk {
        return;
      }
      db.posicoes := db.posicoes + [Fix(cargaId, leitura.value, agora)];
    }

    /** One firing of the armed timer `h`: a capture for its shipment. */
    method Disparar(h: nat, leitura: Option<Leitura>, insercaoOk: bool, agora: int)
      requires Valid() && h in timers
      modifies db`posicoes
      ensures db.posicoes == old(db.posicoes)
        + (if leitura.Some? && insercaoOk then [Fix(timers[h].cargaId, leitura.value, agora)] else [])
    {
      CapturarPosicao(timers[h].cargaId, leitura, insercaoOk, agora);
    }

    /**
     * `iniciarRastreamentoContinuo`: stops the shipment's previous session, captures
     * once, and registers a new timer with the configured period. Afterwards the
     * shipment has exactly one armed timer and every other shipment's is untouched.
     */
    method IniciarRastreamentoContinuo(cargaId: nat, leitura: Option<Leitura>, insercaoOk: bool, agora: int)
      requires Valid()
      modifies this`intervalos, this`timers, this`proximoHandle, db`posicoes
      ensures Valid()
      ensures intervalos == old(intervalos)[cargaId := old(proximoHandle)]
      ensures timers ==
        (if cargaId in old(intervalos) then old(timers) - {old(intervalos)[cargaId]} else old(timers))
        [old(proximoHandle) := Intervalo(cargaId, PeriodoMs)]
      ensures forall h :: h in timers && timers[h].cargaId == cargaId ==> h == intervalos[cargaId]
      ensures db.posicoes == old(db.posicoes)
        + (if leitura.Some? && insercaoOk then [Fix(cargaId, leitura.value, agora)] else [])
    {
      PararRastreamento(cargaId);
      CapturarPosicao(cargaId, leitura, insercaoOk, agora);
      var h := proximoHandle;
      proximoHandle := proximoHandle + 1;
      timers := timers[h := Intervalo(cargaId, PeriodoMs)];
      RegistrarDeNovo(old(intervalos), cargaId, h);
      intervalos := intervalos[cargaId := h];
    }

    /**
     * `capturarLocalizacaoMotorista`: without geolocation it fails before any lookup;
     * unless exactly one shipment carries the token (`.single()`), or when the lookup
     * fails, it fails with an invalid-token error and starts nothing; otherwise it
     * starts the session of that shipment.
     */
    method CapturarLocalizacaoMotorista(
      token: string, temGeolocalizacao: bool, consultaOk: bool,
      leitura: Option<Leitura>, insercaoOk: bool, agora: int)
      returns (erro: Option<string>)
      requires Valid()
      modifies this`intervalos, this`timers, this`proximoHandle, db`posicoes
      ensures Valid()
      ensures !temGeolocalizacao ==> erro == Some("Geolocalização não suportada neste dispositivo")
      ensures temGeolocalizacao && (!consultaOk || |LinhasComToken(db.cargas, token)| != 1) ==>
        erro == Some("Token de rastreamento inválido")
      ensures erro.Some? ==>
        intervalos == old(intervalos) && timers == old(timers) && db.posicoes == old(db.posicoes)
      ensures erro.None? <==> temGeolocalizacao && consultaOk && |LinhasComToken(db.cargas, token)| == 1
      ensures erro.None? ==>
        var id := LinhasComToken(db.cargas, token)[0].id;
        && intervalos == old(intervalos)[id := old(proximoHandle)]
        && old(proximoHandle) in timers && timers[old(proximoHandle)] == Intervalo(id, PeriodoMs)
        && db.posicoes == old(db.posicoes)
             + (if leitura.Some? && insercaoOk then [Fix(id, leitura.value, agora)] else [])
    {
      if !temGeolocalizacao {
        return Some("Geolocalização não suportada neste dispositivo");
      }
      var achadas := LinhasComToken(db.cargas, token);
      if !consultaOk || |achadas| != 1 {
        return Some("Token de rastreamento inválido");
      }
      IniciarRastreamentoContinuo(achadas[0].id, leitura, insercaoOk, agora);
      erro := None;
    }

    /**
     * `gerarLinkRastreamento`: makes a token from the clock and the random
     * expansion, stores it on the shipment and, once stored, builds the WhatsApp URL
     * (which the source only logs) and returns the link. `falhaAtualizacao` is the
     * database's error for a refused update (`None` when it succeeds); that error is
     * rethrown before anything is sent.
     */
    method GerarLinkRastreamento(
      cargaId: nat, telefoneMotorista: string, origem: string,
      agora: nat, fracao: seq<nat>, falhaAtualizacao: Option<string>)
      returns (r: Result<string, string>, whatsappUrl: Option<string>)
      requires forall i :: 0 <= i < |fracao| ==> fracao[i] < 36
      modifies db`cargas
      ensures r.Success? <==> falhaAtualizacao.None?
      ensures r.Failure? ==>
        r.error == falhaAtualizacao.value && db.cargas == old(db.cargas) && whatsappUrl.None?
      ensures r.Success? ==>
        && r.value == LinkRastreamento(origem, GerarToken(agora, fracao))
        && db.cargas == GravarTokenNaTabela(old(db.cargas), cargaId, GerarToken(agora, fracao))
        && whatsappUrl == Some(UrlWhatsApp(telefoneMotorista, r.value))
    {
      var token := GerarToken(agora, fracao);
      var link := LinkRastreamento(origem, token);
      if falhaAtualizacao.Some? {
        return Failure(falhaAtualizacao.value), None;
      }
      db.cargas := GravarTokenNaTabela(db.cargas, cargaId, token);
      whatsappUrl := Some(UrlWhatsApp(telefoneMotorista, link));
      r := Success(link);
    }

    /**
     * `verificarCompartilhamentoAtivo`: true exactly when the lookup succeeds and the
     * shipment's latest fix (equivalently, some fix) is less than ten minutes old.
     */
    method VerificarCompartilhamentoAtivo(cargaId: nat, agora: int, consultaOk: bool) returns (ativo: bool)
      ensures ativo <==> consultaOk && exists j :: 0 <= j < |db.posicoes| && db.posicoes[j].cargaId == cargaId
                                                 && agora - db.posicoes[j].timestamp < LimiteCompartilhamentoMs
    {
      if !consultaOk {
        return false;
      }
      var ultima := UltimaPosicao(db.posicoes, cargaId);
      if ultima.None? {
        return false;
      }
      var diferencaMinutos := (agora - ultima.value.timestamp) as real / (1000.0 * 60.0);
      ativo := diferencaMinutos < 10.0;
      if ativo {
        var j :| 0 <= j < |db.posicoes| && db.posicoes[j] == ultima.value;
        assert agora - db.posicoes[j].timestamp < LimiteCompartilhamentoMs;
      }
    }
  }
}
