/**
 * The shipment form (`CargaForm`): its phone and area-code helpers, the 8-day
 * delivery ceiling, the ordered checks of `handleSubmit`, the choice of the
 * stored driver phone, the `[Tipo de carga: …]` description prefix, and the
 * coordinate completion done before the record is handed to `criarCarga`.
 */
module CargaForm {
  import opened Wrappers
  import opened Digitos
  import opened Banco

  // ---------------------------------------------------------------------------
  // Phone helpers
  // ---------------------------------------------------------------------------

  /** `validarCelular`: nine digits once the rest is stripped, the first a `9`. */
  predicate ValidarCelular(numero: string)
  {
    var n := SomenteDigitos(numero);
    |n| == 9 && n[0] == '9'
  }

  /** A number typed as two groups of digits around a hyphen is read as the two groups joined. */
  lemma ValidarCelularComHifen(a: string, b: string)
    requires SoDigitos(a) && SoDigitos(b)
    ensures ValidarCelular(a + "-" + b) <==> |a| + |b| == 9 && (a + b)[0] == '9'
  {
    SomenteDigitosConcat(a + "-", b);
    SomenteDigitosConcat(a, "-");
    SomenteDigitosDeDigitos(a);
    SomenteDigitosDeDigitos(b);
    assert SomenteDigitos("-") == "";
  }

  /** A hyphenated nine-digit mobile number is accepted. */
  lemma ValidarCelularExemploValido()
    ensures ValidarCelular("98765-4321")
  {
    var a, b := "98765", "4321";
    ValidarCelularComHifen(a, b);
    assert a + "-" + b == "98765-4321";
    assert |a| + |b| == 9 && (a + b)[0] == '9';
  }

  /** Eight digits are not a mobile number. */
  lemma ValidarCelularExemploInvalido()
    ensures !ValidarCelular("8765-4321")
  {
    ValidarCelularComHifen("8765", "4321");
    assert "8765" + "-" + "4321" == "8765-4321";
  }

  /** `montarTelefoneBr`: the digits of the area code followed by those of the number. */
  function MontarTelefoneBr(ddd: string, numero: string): (r: string)
    ensures r == SomenteDigitos(ddd + numero)
    ensures SoDigitos(r)
  {
    SomenteDigitosConcat(ddd, numero);
    SomenteDigitos(ddd) + SomenteDigitos(numero)
  }

  /** `formatarCelular`: at most nine digits, shown as `ddddd-dddd` once there are more than five. */
  function FormatarCelular(valor: string): (r: string)
    ensures SomenteDigitos(r) == Primeiros(SomenteDigitos(valor), 9)
    ensures |r| <= 10
    ensures |Primeiros(SomenteDigitos(valor), 9)| <= 5 ==> r == Primeiros(SomenteDigitos(valor), 9)
    ensures |Primeiros(SomenteDigitos(valor), 9)| > 5 ==>
      r[5] == '-' && r[..5] + r[6..] == Primeiros(SomenteDigitos(valor), 9)
  {
    var digits := Primeiros(SomenteDigitos(valor), 9);
    AgruparCincoSomenteDigitos(digits);
    if |digits| > 5 then
      var r := AgruparCinco(digits);
      assert digits == digits[..5] + digits[5..];
      r
    else AgruparCinco(digits)
  }

  /** Formatting what is already formatted changes nothing. */
  lemma FormatarCelularIdempotente(valor: string)
    ensures FormatarCelular(FormatarCelular(valor)) == FormatarCelular(valor)
  {
    var d := Primeiros(SomenteDigitos(valor), 9);
    assert Primeiros(SomenteDigitos(FormatarCelular(valor)), 9) == d;
  }

  /**
   * What the number field keeps is a valid mobile exactly when the typed text has at
   * least nine digits and the first is a `9` (the field drops any digit past the ninth).
   */
  lemma ValidarCelularFormatado(valor: string)
    ensures ValidarCelular(FormatarCelular(valor))
        <==> |SomenteDigitos(valor)| >= 9 && SomenteDigitos(valor)[0] == '9'
  {
  }

  /** `formatarDDD`: at most two digits, shown as `""`, `"(d"` or `"(dd)"`. */
  function FormatarDdd(valor: string): (r: string)
    ensures SomenteDigitos(r) == Primeiros(SomenteDigitos(valor), 2)
    ensures r == "" <==> SomenteDigitos(valor) == ""
    ensures r != "" ==> r[0] == '(' && (r[|r| - 1] == ')' <==> |SomenteDigitos(valor)| >= 2)
    ensures |r| <= 4
    ensures |SomenteDigitos(valor)| == 1 ==> r == "(" + SomenteDigitos(valor)
    ensures |SomenteDigitos(valor)| >= 2 ==> r == "(" + SomenteDigitos(valor)[..2] + ")"
  {
    var digits := Primeiros(SomenteDigitos(valor), 2);
    if |digits| == 0 then ""
    else
      var fecho := if |digits| == 2 then ")" else "";
      SomenteDigitosConcat("(" + digits, fecho);
      SomenteDigitosConcat("(", digits);
      SomenteDigitosDeDigitos(digits);
      assert SomenteDigitos(fecho) == "";
      "(" + digits + fecho
  }

  // ---------------------------------------------------------------------------
  // Delivery ceiling
  // ---------------------------------------------------------------------------

  const MinutosPorDia: int := 24 * 60
  /** Days allowed between departure and the delivery estimate. */
  const DiasMaximos: int := 8

  /**
   * `prazoEntregaMax`: 23:59 on the calendar day eight days after the departure
   * date, or nothing (the empty string) when the departure is blank or unreadable.
   */
  function PrazoEntregaMax(saida: CampoData): (r: Option<int>)
    ensures r.Some? <==> saida.Em?
  {
    match saida
    case Em(m) => Some((m / MinutosPorDia + DiasMaximos) * MinutosPorDia + (MinutosPorDia - 1))
    case _ => None
  }

  /** The ceiling is the last minute of a day, between eight and nine days after departure. */
  lemma PrazoEntregaMaxLimites(saida: CampoData)
    requires saida.Em?
    ensures PrazoEntregaMax(saida).value % MinutosPorDia == MinutosPorDia - 1
    ensures DiasMaximos * MinutosPorDia <= PrazoEntregaMax(saida).value - saida.minutos
                                        < (DiasMaximos + 1) * MinutosPorDia
  {
  }

  /**
   * The ceiling check of `handleSubmit`: only when the ceiling exists and the
   * delivery estimate parses is a delivery strictly after the ceiling refused.
   */
  predicate DentroDoPrazo(saida: CampoData, entrega: CampoData)
  {
    match (PrazoEntregaMax(saida), entrega)
    case (Some(max), Em(e)) => e <= max
    case _ => true
  }

  /** On calendar days: accepted iff the delivery day is at most eight days after the departure day. */
  lemma DentroDoPrazoPorDia(s: int, e: int)
    ensures DentroDoPrazo(Em(s), Em(e)) <==> e / MinutosPorDia <= s / MinutosPorDia + DiasMaximos
  {
    var max := (s / MinutosPorDia + DiasMaximos) * MinutosPorDia + (MinutosPorDia - 1);
    assert PrazoEntregaMax(Em(s)) == Some(max);
    if e <= max {
      assert e / MinutosPorDia <= max / MinutosPorDia;
      assert max / MinutosPorDia == s / MinutosPorDia + DiasMaximos;
    } else {
      assert e / MinutosPorDia >= (max + 1) / MinutosPorDia;
      assert (max + 1) / MinutosPorDia == s / MinutosPorDia + DiasMaximos + 1;
    }
  }

  /** Exactly eight days after departure is accepted; nine days after is refused. */
  lemma OitoDiasExatos(s: int)
    ensures DentroDoPrazo(Em(s), Em(s + DiasMaximos * MinutosPorDia))
    ensures !DentroDoPrazo(Em(s), Em(s + (DiasMaximos + 1) * MinutosPorDia))
  {
    DentroDoPrazoPorDia(s, s + DiasMaximos * MinutosPorDia);
    DentroDoPrazoPorDia(s, s + (DiasMaximos + 1) * MinutosPorDia);
  }

  // ---------------------------------------------------------------------------
  // The checks of handleSubmit
  // ---------------------------------------------------------------------------

  /** The inputs of the two phone blocks of the form. */
  datatype Telefones = Telefones(
    ddd1: string,
    numero1: string,
    ehWhatsapp: bool,
    dddWhatsapp: string,
    numeroWhatsapp: string)

  /** The errors `handleSubmit` throws before anything is saved. */
  datatype ErroCadastro =
    | CamposObrigatorios
    | EstadosObrigatorios
    | DataSaidaObrigatoria
    | EstimativaEntregaObrigatoria
    | EmpresaObrigatoria
    | TelefoneInvalido
    | WhatsappObrigatorio
    | WhatsappInvalido
    | DataUltrapassaLimite

  /** The text shown for each error. */
  function Mensagem(e: ErroCadastro): string
  {
    match e
    case CamposObrigatorios => "Preencha todos os campos obrigatórios"
    case EstadosObrigatorios => "Selecione o estado de saída e o estado de destino"
    case DataSaidaObrigatoria => "Selecione a data de saída"
    case EstimativaEntregaObrigatoria => "Selecione a estimativa de entrega"
    case EmpresaObrigatoria => "Selecione o nome da empresa"
    case TelefoneInvalido => "Telefone inválido: informe 9 dígitos e o primeiro deve ser 9"
    case WhatsappObrigatorio => "Informe um telefone com WhatsApp"
    case WhatsappInvalido => "Telefone WhatsApp inválido: informe 9 dígitos e o primeiro deve ser 9"
    case DataUltrapassaLimite =>
      "data ultrapassa a quantidade de dias estabelecido. Por favor selecione uma data válida."
  }

  /** One guard of the chain: whether it passes, and what is thrown when it does not. */
  datatype Verificacao = Verificacao(passa: bool, erro: ErroCadastro)

  /** A phone block counts as filled in when either of its primary fields is non-empty. */
  predicate TemTelefone(t: Telefones)
  {
    t.ddd1 != "" || t.numero1 != ""
  }

  predicate ExigeWhatsapp(t: Telefones)
  {
    TemTelefone(t) && !t.ehWhatsapp
  }

  /**
   * The guards in the order `handleSubmit` runs them; the nested phone block is
   * spelled out as three guards that pass outright when their block does not apply.
   */
  function Verificacoes(f: CargaFormData, embarcadorProp: string, t: Telefones): (vs: seq<Verificacao>)
    ensures |vs| == 9
  {
    seq(9, k requires 0 <= k < 9 => Guarda(f, embarcadorProp, t, k))
  }

  function Guarda(f: CargaFormData, embarcadorProp: string, t: Telefones, k: nat): Verificacao
  {
    if k == 0 then Verificacao(f.notaFiscal != "" && f.origemCidade != "" && f.destinoCidade != "", CamposObrigatorios)
    else if k == 1 then Verificacao(f.origemUf != "" && f.destinoUf != "", EstadosObrigatorios)
    else if k == 2 then Verificacao(!f.dataCarregamento.Vazio?, DataSaidaObrigatoria)
    else if k == 3 then Verificacao(!f.prazoEntrega.Vazio?, EstimativaEntregaObrigatoria)
    else if k == 4 then Verificacao(embarcadorProp != "" || f.embarcadorId != "", EmpresaObrigatoria)
    else if k == 5 then Verificacao(!TemTelefone(t) || ValidarCelular(t.numero1), TelefoneInvalido)
    else if k == 6 then Verificacao(!ExigeWhatsapp(t) || (t.dddWhatsapp != "" && t.numeroWhatsapp != ""), WhatsappObrigatorio)
    else if k == 7 then Verificacao(!ExigeWhatsapp(t) || ValidarCelular(t.numeroWhatsapp), WhatsappInvalido)
    else Verificacao(DentroDoPrazo(f.dataCarregamento, f.prazoEntrega), DataUltrapassaLimite)
  }

  /** The error of the first guard that fails, if any. */
  function PrimeiraFalha(vs: seq<Verificacao>): Option<ErroCadastro>
  {
    if vs == [] then None
    else if !vs[0].passa then Some(vs[0].erro)
    else PrimeiraFalha(vs[1..])
  }

  /** No error exactly when every guard passes; otherwise the error of a failing guard preceded only by passing ones. */
  lemma {:induction false} PrimeiraFalhaCorreta(vs: seq<Verificacao>)
    ensures PrimeiraFalha(vs).None? <==> forall i :: 0 <= i < |vs| ==> vs[i].passa
    ensures PrimeiraFalha(vs).Some? ==>
      exists i :: 0 <= i < |vs| && !vs[i].passa && vs[i].erro == PrimeiraFalha(vs).value
                  && forall j :: 0 <= j < i ==> vs[j].passa
  {
    if vs != [] && vs[0].passa {
      PrimeiraFalhaCorreta(vs[1..]);
      assert forall i :: 1 <= i < |vs| ==> vs[i] == vs[1..][i - 1];
      if PrimeiraFalha(vs).Some? {
        DeslocaTestemunha(vs, PrimeiraFalha(vs).value);
      }
    }
  }

  /** A failing guard of `vs[1..]` preceded only by passing ones is one of `vs` when `vs[0]` passes. */
  lemma DeslocaTestemunha(vs: seq<Verificacao>, e: ErroCadastro)
    requires vs != [] && vs[0].passa
    requires exists i :: 0 <= i < |vs[1..]| && !vs[1..][i].passa && vs[1..][i].erro == e
                         && forall j :: 0 <= j < i ==> vs[1..][j].passa
    ensures exists i :: 0 <= i < |vs| && !vs[i].passa && vs[i].erro == e
                        && forall j :: 0 <= j < i ==> vs[j].passa
  {
    var i :| 0 <= i < |vs[1..]| && !vs[1..][i].passa && vs[1..][i].erro == e
             && forall j :: 0 <= j < i ==> vs[1..][j].passa;
    assert !vs[i + 1].passa && vs[i + 1].erro == e;
    forall j | 0 <= j < i + 1 ensures vs[j].passa {
      if j > 0 { assert vs[j] == vs[1..][j - 1]; }
    }
  }

  /** What the submit handler throws, if anything. */
  function PrimeiroErro(f: CargaFormData, embarcadorProp: string, t: Telefones): Option<ErroCadastro>
  {
    PrimeiraFalha(Verificacoes(f, embarcadorProp, t))
  }

  /** A guard that fails after guards that all pass decides the outcome. */
  lemma {:induction false} PrimeiraFalhaNo(vs: seq<Verificacao>, k: nat)
    requires k < |vs| && !vs[k].passa
    requires forall j :: 0 <= j < k ==> vs[j].passa
    ensures PrimeiraFalha(vs) == Some(vs[k].erro)
  {
    if k > 0 {
      assert vs[0].passa;
      PrimeiraFalhaNo(vs[1..], k - 1);
    }
  }

  /**
   * When every guard throws an error of its own, guard `k` decides the outcome
   * exactly when it fails and every guard before it passes.
   */
  lemma PrimeiraFalhaEm(vs: seq<Verificacao>, k: nat)
    requires k < |vs|
    requires forall i, j :: 0 <= i < j < |vs| ==> vs[i].erro != vs[j].erro
    ensures PrimeiraFalha(vs) == Some(vs[k].erro)
        <==> !vs[k].passa && forall j :: 0 <= j < k ==> vs[j].passa
  {
    var r := PrimeiraFalha(vs);
    PrimeiraFalhaCorreta(vs);
    if r == Some(vs[k].erro) {
      var i :| 0 <= i < |vs| && !vs[i].passa && vs[i].erro == r.value
               && forall j :: 0 <= j < i ==> vs[j].passa;
      assert i == k;
    }
    if !vs[k].passa && forall j :: 0 <= j < k ==> vs[j].passa {
      assert r.Some?;
      var i :| 0 <= i < |vs| && !vs[i].passa && vs[i].erro == r.value
               && forall j :: 0 <= j < i ==> vs[j].passa;
      assert i == k;
    }
  }

  /** The checks run in the order of `Verificacoes`: the first failing one names the error. */
  lemma OrdemDasVerificacoes(f: CargaFormData, embarcadorProp: string, t: Telefones, k: nat)
    requires k < |Verificacoes(f, embarcadorProp, t)|
    ensures var vs := Verificacoes(f, embarcadorProp, t);
            (PrimeiroErro(f, embarcadorProp, t) == Some(vs[k].erro)
             <==> !vs[k].passa && forall j :: 0 <= j < k ==> vs[j].passa)
  {
    PrimeiraFalhaEm(Verificacoes(f, embarcadorProp, t), k);
  }

  /** With both primary phone fields blank, no phone error can be raised. */
  lemma SemTelefoneSemErroDeTelefone(f: CargaFormData, embarcadorProp: string, t: Telefones)
    requires t.ddd1 == "" && t.numero1 == ""
    ensures PrimeiroErro(f, embarcadorProp, t) !in {Some(TelefoneInvalido), Some(WhatsappObrigatorio), Some(WhatsappInvalido)}
  {
    var vs := Verificacoes(f, embarcadorProp, t);
    PrimeiraFalhaEm(vs, 5);
    PrimeiraFalhaEm(vs, 6);
    PrimeiraFalhaEm(vs, 7);
  }

  /**
   * Once the other fields pass, a readable delivery date is refused iff it lies
   * strictly after the ceiling.
   */
  lemma TetoDecide(f: CargaFormData, embarcadorProp: string, t: Telefones)
    requires f.dataCarregamento.Em? && f.prazoEntrega.Em?
    requires forall j :: 0 <= j < 8 ==> Verificacoes(f, embarcadorProp, t)[j].passa
    ensures PrimeiroErro(f, embarcadorProp, t) == Some(DataUltrapassaLimite)
        <==> f.prazoEntrega.minutos > PrazoEntregaMax(f.dataCarregamento).value
    ensures PrimeiroErro(f, embarcadorProp, t).None?
        <==> f.prazoEntrega.minutos <= PrazoEntregaMax(f.dataCarregamento).value
  {
    PrimeiraFalhaEm(Verificacoes(f, embarcadorProp, t), 8);
    PrimeiraFalhaCorreta(Verificacoes(f, embarcadorProp, t));
  }

  // ---------------------------------------------------------------------------
  // What is saved
  // ---------------------------------------------------------------------------

  predicate PrincipalCompleto(t: Telefones)
  {
    t.ddd1 != "" && t.numero1 != ""
  }

  /** `telefoneParaContato`. */
  function TelefoneParaContato(t: Telefones): string
  {
    if PrincipalCompleto(t) then MontarTelefoneBr(t.ddd1, t.numero1) else ""
  }

  /** `telefoneParaWhatsapp`. */
  function TelefoneParaWhatsapp(t: Telefones): string
  {
    if !PrincipalCompleto(t) then ""
    else if t.ehWhatsapp then TelefoneParaContato(t)
    else MontarTelefoneBr(t.dddWhatsapp, t.numeroWhatsapp)
  }

  /** `motorista_telefone: telefoneParaWhatsapp || telefoneParaContato || undefined`. */
  function TelefoneArmazenado(t: Telefones): Option<string>
  {
    if TelefoneParaWhatsapp(t) != "" then Some(TelefoneParaWhatsapp(t))
    else if TelefoneParaContato(t) != "" then Some(TelefoneParaContato(t))
    else None
  }

  /** Nothing is stored unless both the primary area code and number were typed. */
  lemma TelefoneArmazenadoExigePrincipal(t: Telefones)
    ensures !PrincipalCompleto(t) ==> TelefoneArmazenado(t) == None
    ensures !PrincipalCompleto(t) ==> TelefoneParaContato(t) == "" && TelefoneParaWhatsapp(t) == ""
  {
  }

  /**
   * After the checks pass, the stored phone is the WhatsApp number: the contact
   * number itself when the primary is WhatsApp, the secondary number otherwise;
   * and it is all digits, its last nine forming a valid mobile.
   */
  lemma {:induction false} TelefoneArmazenadoValido(f: CargaFormData, embarcadorProp: string, t: Telefones)
    requires PrimeiroErro(f, embarcadorProp, t).None?
    ensures PrincipalCompleto(t) && t.ehWhatsapp ==>
      TelefoneArmazenado(t) == Some(MontarTelefoneBr(t.ddd1, t.numero1))
    ensures PrincipalCompleto(t) && !t.ehWhatsapp ==>
      TelefoneArmazenado(t) == Some(MontarTelefoneBr(t.dddWhatsapp, t.numeroWhatsapp))
    ensures TelefoneArmazenado(t).Some? ==>
      var p := TelefoneArmazenado(t).value;
      SoDigitos(p) && |p| >= 9 && ValidarCelular(p[|p| - 9..])
  {
    var vs := Verificacoes(f, embarcadorProp, t);
    PrimeiraFalhaCorreta(vs);
    assert vs[5].passa && vs[7].passa;
    if PrincipalCompleto(t) {
      var ddd, num := if t.ehWhatsapp then t.ddd1 else t.dddWhatsapp,
                      if t.ehWhatsapp then t.numero1 else t.numeroWhatsapp;
      assert ValidarCelular(num);
      var p := MontarTelefoneBr(ddd, num);
      assert p == SomenteDigitos(ddd) + SomenteDigitos(num) by {
        SomenteDigitosConcat(ddd, num);
      }
      assert p[|p| - 9..] == SomenteDigitos(num);
      SomenteDigitosIdempotente(num);
      assert p != "";
      assert TelefoneArmazenado(t) == Some(p);
    }
  }

  const EtiquetaTipo: string := "[Tipo de carga: "

  /** `[Tipo de carga: <tipo>]`, then a space and the typed description when there is one. */
  function DescricaoComTipo(tipoCarga: string, descricao: string): string
  {
    var prefixo := EtiquetaTipo + tipoCarga + "]";
    if descricao != "" then prefixo + " " + descricao else prefixo
  }

  /** The stored description starts with the tag, and after the tag comes the typed text, if any. */
  lemma DescricaoComTipoLegivel(tipoCarga: string, descricao: string)
    ensures var r := DescricaoComTipo(tipoCarga, descricao);
      && EtiquetaTipo + tipoCarga + "]" <= r
      && r[|EtiquetaTipo| + |tipoCarga| + 1..] == if descricao == "" then "" else " " + descricao
  {
  }

  /**
   * The record `handleSubmit` hands to `criarCarga`: the form with the stored phone,
   * the tagged description, and each end's coordinates replaced by the geocoded
   * ones when either of them is not a finite number.
   */
  function RegistroSalvo(
    formData: CargaFormData, tipoCarga: string, t: Telefones,
    geoOrigem: (real, real), geoDestino: (real, real)): CargaFormData
  {
    var origemOk := formData.origemLat.Some? && formData.origemLng.Some?;
    var destinoOk := formData.destinoLat.Some? && formData.destinoLng.Some?;
    formData.(
      motoristaTelefone := TelefoneArmazenado(t),
      descricao := DescricaoComTipo(tipoCarga, formData.descricao),
      origemLat := if origemOk then formData.origemLat else Some(geoOrigem.0),
      origemLng := if origemOk then formData.origemLng else Some(geoOrigem.1),
      destinoLat := if destinoOk then formData.destinoLat else Some(geoDestino.0),
      destinoLng := if destinoOk then formData.destinoLng else Some(geoDestino.1))
  }

  /**
   * The guard chain of `handleSubmit`, in its order and with its nesting: the
   * error of the first guard that fails, if any.
   */
  method Validar(formData: CargaFormData, embarcadorProp: string, t: Telefones)
    returns (erro: Option<ErroCadastro>)
    ensures erro == PrimeiroErro(formData, embarcadorProp, t)
  {
    ghost var vs := Verificacoes(formData, embarcadorProp, t);
    if formData.notaFiscal == "" || formData.origemCidade == "" || formData.destinoCidade == "" {
      PrimeiraFalhaNo(vs, 0);
      return Some(CamposObrigatorios);
    }
    if formData.origemUf == "" || formData.destinoUf == "" {
      PrimeiraFalhaNo(vs, 1);
      return Some(EstadosObrigatorios);
    }
    if formData.dataCarregamento.Vazio? {
      PrimeiraFalhaNo(vs, 2);
      return Some(DataSaidaObrigatoria);
    }
    if formData.prazoEntrega.Vazio? {
      PrimeiraFalhaNo(vs, 3);
      return Some(EstimativaEntregaObrigatoria);
    }
    if embarcadorProp == "" && formData.embarcadorId == "" {
      PrimeiraFalhaNo(vs, 4);
      return Some(EmpresaObrigatoria);
    }
    if t.ddd1 != "" || t.numero1 != "" {
      if !ValidarCelular(t.numero1) {
        PrimeiraFalhaNo(vs, 5);
        return Some(TelefoneInvalido);
      }
      if !t.ehWhatsapp {
        if t.dddWhatsapp == "" || t.numeroWhatsapp == "" {
          PrimeiraFalhaNo(vs, 6);
          return Some(WhatsappObrigatorio);
        }
        if !ValidarCelular(t.numeroWhatsapp) {
          PrimeiraFalhaNo(vs, 7);
          return Some(WhatsappInvalido);
        }
      }
    }
    var max := PrazoEntregaMax(formData.dataCarregamento);
    if max.Some? && formData.prazoEntrega.Em? {
      if formData.prazoEntrega.minutos > max.value {
        PrimeiraFalhaNo(vs, 8);
        return Some(DataUltrapassaLimite);
      }
    }
    assert forall i :: 0 <= i < |vs| ==> vs[i].passa;
    PrimeiraFalhaCorreta(vs);
    return None;
  }

  /**
   * `handleSubmit` up to the call of `criarCarga`: the guards in order (the first
   * that fails is thrown), then the record to save. `geoOrigem` and `geoDestino`
   * are what `geocodeCidadeUf` answers.
   */
  method HandleSubmit(
    formData: CargaFormData, embarcadorProp: string, tipoCarga: string, t: Telefones,
    geoOrigem: (real, real), geoDestino: (real, real))
    returns (r: Result<CargaFormData, ErroCadastro>)
    ensures r.Failure? <==> PrimeiroErro(formData, embarcadorProp, t).Some?
    ensures r.Failure? ==> Some(r.error) == PrimeiroErro(formData, embarcadorProp, t)
    ensures r.Success? ==> r.value == RegistroSalvo(formData, tipoCarga, t, geoOrigem, geoDestino)
  {
    var erro := Validar(formData, embarcadorProp, t);
    if erro.Some? {
      return Failure(erro.value);
    }

    var telefoneParaContato := TelefoneParaContato(t);
    var telefoneParaWhatsapp := TelefoneParaWhatsapp(t);
    var telefone := if telefoneParaWhatsapp != "" then Some(telefoneParaWhatsapp)
                    else if telefoneParaContato != "" then Some(telefoneParaContato)
                    else None;
    var dados := formData.(motoristaTelefone := telefone,
                           descricao := DescricaoComTipo(tipoCarga, formData.descricao));
    if dados.origemLat.None? || dados.origemLng.None? {
      dados := dados.(origemLat := Some(geoOrigem.0), origemLng := Some(geoOrigem.1));
    }
    if dados.destinoLat.None? || dados.destinoLng.None? {
      dados := dados.(destinoLat := Some(geoDestino.0), destinoLng := Some(geoDestino.1));
    }
    r := Success(dados);
  }
}
