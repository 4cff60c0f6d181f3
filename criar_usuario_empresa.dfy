/**
 * The `criar-usuario-empresa` edge function: the definitive password generator
 * and the request handler that creates the login, the shipper, its profile and
 * sends the credentials, with its required-field guard and its compensating
 * delete.
 */
module CriarUsuarioEmpresa {
  import opened Wrappers

  // ---------------------------------------------------------------------------
  // The password
  // ---------------------------------------------------------------------------

  /** The four alphabets; none has a character easily taken for another (I O i l o 0 1). */
  const Maiusculas: string := "ABCDEFGHJKLMNPQRSTUVWXYZ"
  const Minusculas: string := "abcdefghjkmnpqrstuvwxyz"
  const Numeros: string := "23456789"
  const Especiais: string := "!@#$%&*"

  /** `todosCaracteres`, the alphabet the filler characters are drawn from. */
  const TodosCaracteres: string := Maiusculas + Minusculas + Numeros + Especiais

  /** `tamanho` when the handler does not give one. */
  const TamanhoPadrao: int := 16

  /** The character classes the four alphabets spell out. */
  predicate Maiuscula(c: char) { 'A' <= c <= 'Z' && c != 'I' && c != 'O' }
  predicate Minuscula(c: char) { 'a' <= c <= 'z' && c != 'i' && c != 'l' && c != 'o' }
  predicate Numero(c: char) { '2' <= c <= '9' }
  predicate Especial(c: char) { c == '!' || c == '@' || c == '#' || c == '$' || c == '%' || c == '&' || c == '*' }

  predicate Permitido(c: char)
  {
    Maiuscula(c) || Minuscula(c) || Numero(c) || Especial(c)
  }

  /** The characters easily taken for one another, which no alphabet holds. */
  predicate Ambiguo(c: char)
  {
    c == 'I' || c == 'O' || c == 'i' || c == 'l' || c == 'o' || c == '0' || c == '1'
  }

  /** Every character of each alphabet belongs to its class. */
  lemma MaiusculasDaClasse()
    ensures forall i :: 0 <= i < |Maiusculas| ==> Maiuscula(Maiusculas[i])
  {
  }

  lemma MinusculasDaClasse()
    ensures forall i :: 0 <= i < |Minusculas| ==> Minuscula(Minusculas[i])
  {
  }

  lemma NumerosDaClasse()
    ensures forall i :: 0 <= i < |Numeros| ==> Numero(Numeros[i])
  {
  }

  lemma EspeciaisDaClasse()
    ensures forall i :: 0 <= i < |Especiais| ==> Especial(Especiais[i])
  {
  }

  lemma TodosPermitidos()
    ensures forall i :: 0 <= i < |TodosCaracteres| ==> Permitido(TodosCaracteres[i])
  {
    MaiusculasDaClasse();
    MinusculasDaClasse();
    NumerosDaClasse();
    EspeciaisDaClasse();
  }

  /** Each class is spelled out in full by its alphabet. */
  lemma MaiusculasCompletas()
    ensures forall c :: Maiuscula(c) ==> c in Maiusculas
  {
  }

  lemma MinusculasCompletas()
    ensures forall c :: Minuscula(c) ==> c in Minusculas
  {
  }

  lemma NumerosCompletos()
    ensures forall c :: Numero(c) ==> c in Numeros
  {
  }

  lemma EspeciaisCompletos()
    ensures forall c :: Especial(c) ==> c in Especiais
  {
  }

  /** The alphabet is exactly the four classes, so none of the ambiguous characters. */
  lemma AlfabetoExato()
    ensures forall c :: c in TodosCaracteres <==> Permitido(c)
    ensures forall c :: c in TodosCaracteres ==> !Ambiguo(c)
  {
    TodosPermitidos();
    MaiusculasCompletas();
    MinusculasCompletas();
    NumerosCompletos();
    EspeciaisCompletos();
  }

  function Max(a: int, b: int): int
  {
    if a >= b then a else b
  }

  /**
   * `alfabeto.charAt(Math.floor(Math.random() * alfabeto.length))`. A draw of
   * `Math.random()` is modelled by the position it picks: any natural number, taken
   * modulo the length, so every character of the alphabet can come out.
   */
  function Sortear(alfabeto: string, sorteio: nat): char
    requires |alfabeto| > 0
  {
    alfabeto[sorteio % |alfabeto|]
  }

  /** The four guaranteed characters, one of each alphabet, from the first four draws. */
  function Garantidos(sorteios: seq<nat>): (s: string)
    requires |sorteios| >= 4
    ensures |s| == 4
  {
    [Sortear(Maiusculas, sorteios[0]), Sortear(Minusculas, sorteios[1]),
     Sortear(Numeros, sorteios[2]), Sortear(Especiais, sorteios[3])]
  }

  /** The guaranteed characters are an upper-case letter, a lower-case letter, a digit and a symbol. */
  lemma GarantidosUmDeCada(sorteios: seq<nat>)
    requires |sorteios| >= 4
    ensures var s := Garantidos(sorteios);
      Maiuscula(s[0]) && Minuscula(s[1]) && Numero(s[2]) && Especial(s[3])
  {
    MaiusculasDaClasse();
    MinusculasDaClasse();
    NumerosDaClasse();
    EspeciaisDaClasse();
  }

  /** The filler characters, one from each of the given draws, in order. */
  function Preenchimento(sorteios: seq<nat>): (s: string)
    ensures |s| == |sorteios|
  {
    if sorteios == [] then []
    else Preenchimento(sorteios[..|sorteios| - 1]) + [Sortear(TodosCaracteres, sorteios[|sorteios| - 1])]
  }

  /** Every filler character is in the alphabet. */
  lemma {:induction false} PreenchimentoPermitido(sorteios: seq<nat>)
    ensures forall i :: 0 <= i < |sorteios| ==> Permitido(Preenchimento(sorteios)[i])
  {
    if sorteios != [] {
      PreenchimentoPermitido(sorteios[..|sorteios| - 1]);
      TodosPermitidos();
    }
  }

  /**
   * The password before the shuffle: one character of each alphabet in turn, then
   * the filler up to `tamanho`, the draws of `Math.random()` taken in order.
   */
  function SenhaInicial(tamanho: int, sorteios: seq<nat>): (s: string)
    requires |sorteios| >= Max(4, tamanho)
    ensures |s| == Max(4, tamanho)
  {
    Garantidos(sorteios) + Preenchimento(sorteios[4..Max(4, tamanho)])
  }

  /** The password before the shuffle starts with one of each class and keeps to the alphabet. */
  lemma SenhaInicialBemFormada(tamanho: int, sorteios: seq<nat>)
    requires |sorteios| >= Max(4, tamanho)
    ensures var s := SenhaInicial(tamanho, sorteios);
      && Maiuscula(s[0]) && Minuscula(s[1]) && Numero(s[2]) && Especial(s[3])
      && forall i :: 0 <= i < |s| ==> Permitido(s[i])
  {
    var g, f := Garantidos(sorteios), Preenchimento(sorteios[4..Max(4, tamanho)]);
    GarantidosUmDeCada(sorteios);
    PreenchimentoPermitido(sorteios[4..Max(4, tamanho)]);
    var s := g + f;
    assert forall j :: 4 <= j < |s| ==> s[j] == f[j - 4];
  }

  /** A password has the length, the four classes and only characters of the alphabet. */
  predicate SenhaForte(s: string, tamanho: int)
  {
    && |s| == Max(4, tamanho)
    && (exists i :: 0 <= i < |s| && Maiuscula(s[i]))
    && (exists i :: 0 <= i < |s| && Minuscula(s[i]))
    && (exists i :: 0 <= i < |s| && Numero(s[i]))
    && (exists i :: 0 <= i < |s| && Especial(s[i]))
    && (forall i :: 0 <= i < |s| ==> Permitido(s[i]))
  }

  /** Every rearrangement of a password that starts with one character of each class is strong. */
  lemma PermutacaoForte(s: string, p: string, tamanho: int)
    requires |p| == Max(4, tamanho)
    requires Maiuscula(p[0]) && Minuscula(p[1]) && Numero(p[2]) && Especial(p[3])
    requires forall i :: 0 <= i < |p| ==> Permitido(p[i])
    requires multiset(s) == multiset(p)
    ensures SenhaForte(s, tamanho)
  {
    assert |s| == |multiset(s)| == |multiset(p)| == |p|;
    forall k | 0 <= k < 4 ensures p[k] in s {
      assert p[k] in multiset(p);
    }
    forall i | 0 <= i < |s| ensures Permitido(s[i]) {
      assert s[i] in multiset(p);
    }
  }

  /** Swaps positions `x` and `y` of `s`. */
  function Trocar(s: string, x: nat, y: nat): (r: string)
    requires x < |s| && y < |s|
    ensures |r| == |s| && r[x] == s[y] && r[y] == s[x]
    ensures forall k :: 0 <= k < |s| && k != x && k != y ==> r[k] == s[k]
  {
    s[x := s[y]][y := s[x]]
  }

  lemma {:induction false} TrocarPermuta(s: string, x: nat, y: nat)
    requires x < |s| && y < |s|
    ensures multiset(Trocar(s, x, y)) == multiset(s)
  {
    var t := s[x := s[y]];
    assert multiset(t) == multiset(s) - multiset{s[x]} + multiset{s[y]};
    assert multiset(t[y := s[x]]) == multiset(t) - multiset{t[y]} + multiset{s[x]};
  }

  /**
   * `split('').sort(() => Math.random() - 0.5).join('')`: the answers of the random
   * comparator are modelled as the swaps the sort performs, each a pair of positions
   * taken modulo the length.
   */
  function Embaralhado(s: string, trocas: seq<(nat, nat)>): (r: string)
    ensures |r| == |s|
    decreases |trocas|
  {
    if trocas == [] || |s| == 0 then s
    else
      var r := Embaralhado(s, trocas[..|trocas| - 1]);
      var t := trocas[|trocas| - 1];
      Trocar(r, t.0 % |s|, t.1 % |s|)
  }

  /** The shuffle only rearranges the characters. */
  lemma {:induction false} EmbaralhadoPermuta(s: string, trocas: seq<(nat, nat)>)
    ensures multiset(Embaralhado(s, trocas)) == multiset(s)
    decreases |trocas|
  {
    if trocas != [] && |s| != 0 {
      var r := Embaralhado(s, trocas[..|trocas| - 1]);
      var t := trocas[|trocas| - 1];
      EmbaralhadoPermuta(s, trocas[..|trocas| - 1]);
      TrocarPermuta(r, t.0 % |s|, t.1 % |s|);
    }
  }

  /** The shuffle, on the character array in place. */
  method Embaralhar(s: string, trocas: seq<(nat, nat)>) returns (r: string)
    ensures r == Embaralhado(s, trocas)
  {
    var n := |s|;
    if n == 0 {
      return s;
    }
    var a := new char[n](j requires 0 <= j < n => s[j]);
    assert a[..] == s;
    var k := 0;
    while k < |trocas|
      invariant 0 <= k <= |trocas|
      invariant a[..] == Embaralhado(s, trocas[..k])
    {
      assert trocas[..k + 1][..k] == trocas[..k];
      var x, y := trocas[k].0 % n, trocas[k].1 % n;
      a[x], a[y] := a[y], a[x];
      k := k + 1;
    }
    assert trocas[..k] == trocas;
    r := a[..];
  }

  /** Whatever the draws and however the sort shuffles, the password is strong. */
  lemma SenhaGeradaForte(tamanho: int, sorteios: seq<nat>, trocas: seq<(nat, nat)>)
    requires |sorteios| >= Max(4, tamanho)
    ensures SenhaForte(Embaralhado(SenhaInicial(tamanho, sorteios), trocas), tamanho)
  {
    var p := SenhaInicial(tamanho, sorteios);
    EmbaralhadoPermuta(p, trocas);
    SenhaInicialBemFormada(tamanho, sorteios);
    PermutacaoForte(Embaralhado(p, trocas), p, tamanho);
  }

  /**
   * `gerarSenhaDefinitiva`: appends the four guaranteed characters and the filler,
   * then shuffles. The shuffle by a random comparator is modelled as any sequence of
   * swaps (`trocas`, taken modulo the length).
   */
  method GerarSenhaDefinitiva(tamanho: int, sorteios: seq<nat>, trocas: seq<(nat, nat)>) returns (senha: string)
    requires |sorteios| >= Max(4, tamanho)
    ensures senha == Embaralhado(SenhaInicial(tamanho, sorteios), trocas)
    ensures SenhaForte(senha, tamanho)
  {
    var s: string := [];
    s := s + [Sortear(Maiusculas, sorteios[0])];
    s := s + [Sortear(Minusculas, sorteios[1])];
    s := s + [Sortear(Numeros, sorteios[2])];
    s := s + [Sortear(Especiais, sorteios[3])];
    assert s == Garantidos(sorteios);
    var i := |s|;
    while i < tamanho
      invariant 4 <= i <= Max(4, tamanho)
      invariant s == Garantidos(sorteios) + Preenchimento(sorteios[4..i])
    {
      assert sorteios[4..i + 1][..i - 4] == sorteios[4..i];
      s := s + [Sortear(TodosCaracteres, sorteios[i])];
      i := i + 1;
    }
    assert s == SenhaInicial(tamanho, sorteios);

    senha := Embaralhar(s, trocas);
    SenhaGeradaForte(tamanho, sorteios, trocas);
  }

  // ---------------------------------------------------------------------------
  // The handler
  // ---------------------------------------------------------------------------

  /** `CriarUsuarioRequest`; a blank or missing field is `""`. */
  datatype CriarUsuarioRequest = CriarUsuarioRequest(
    razaoSocial: string, cnpj: string, emailContato: string, telefone: string)

  /** A preflight, or a POST whose body is `None` when it is not JSON. */
  datatype Requisicao = Options | Post(corpo: Option<CriarUsuarioRequest>)

  datatype CorpoResposta =
    | TextoOk
    | Erro(mensagem: string)
    | ErroInterno
    | Sucesso(embarcadorId: nat, userId: nat, emailEnviado: bool, senha: string)

  datatype Resposta = Resposta(status: nat, corpo: CorpoResposta)

  /** A login of the authentication service. */
  datatype Usuario = Usuario(id: nat, email: string, senha: string, razaoSocial: string, tipo: string)

  /** A row of `embarcadores`. */
  datatype Embarcador = Embarcador(
    id: nat, razaoSocial: string, cnpj: string, emailContato: string,
    emailsAlertas: seq<string>, telefone: Option<string>, ativo: bool)

  /** A row of `profiles`. */
  datatype Perfil = Perfil(id: nat, email: string, nome: string, tipo: string, embarcadorId: nat)

  /** The credentials e-mail: to whom, for which company, with which password. */
  datatype EmailCredenciais = EmailCredenciais(para: string, razaoSocial: string, senha: string)

  const MensagemDadosObrigatorios: string := "Dados obrigatórios não informados"

  /** `!dados.razao_social || !dados.cnpj || !dados.email_contato`. */
  predicate FaltaObrigatorio(d: CriarUsuarioRequest)
  {
    d.razaoSocial == "" || d.cnpj == "" || d.emailContato == ""
  }

  /** The shipper row the handler inserts. */
  function NovoEmbarcador(id: nat, d: CriarUsuarioRequest): Embarcador
  {
    Embarcador(id, d.razaoSocial, d.cnpj, d.emailContato, [d.emailContato],
               if d.telefone == "" then None else Some(d.telefone), true)
  }

  /** The logins of `us` except those with id `id`, in their order. */
  function SemUsuario(us: seq<Usuario>, id: nat): (r: seq<Usuario>)
    ensures |r| <= |us|
  {
    if us == [] then []
    else
      var resto := SemUsuario(us[..|us| - 1], id);
      if us[|us| - 1].id != id then resto + [us[|us| - 1]] else resto
  }

  /** A deletion keeps exactly the logins with another id. */
  lemma {:induction false} SemUsuarioCorreto(us: seq<Usuario>, id: nat)
    ensures forall u :: u in SemUsuario(us, id) <==> u in us && u.id != id
  {
    if us != [] {
      SemUsuarioCorreto(us[..|us| - 1], id);
      assert us == us[..|us| - 1] + [us[|us| - 1]];
    }
  }

  /** Deleting a login just added with a fresh id gives back the logins from before. */
  lemma {:induction false} SemUsuarioNovo(us: seq<Usuario>, novo: Usuario)
    requires forall i :: 0 <= i < |us| ==> us[i].id < novo.id
    ensures SemUsuario(us + [novo], novo.id) == us
  {
    assert (us + [novo])[..|us|] == us;
    SemUsuarioIntacto(us, novo.id);
  }

  /** Deleting an id no login has changes nothing. */
  lemma {:induction false} SemUsuarioIntacto(us: seq<Usuario>, id: nat)
    requires forall i :: 0 <= i < |us| ==> us[i].id < id
    ensures SemUsuario(us, id) == us
  {
    if us != [] {
      SemUsuarioIntacto(us[..|us| - 1], id);
      assert us == us[..|us| - 1] + [us[|us| - 1]];
    }
  }

  /** The authentication users, the two tables and the mail the handler sends. */
  class Backend {
    var usuarios: seq<Usuario>
    var embarcadores: seq<Embarcador>
    var perfis: seq<Perfil>
    /** The credential e-mails handed to the mail service: attempted sends, delivered or not. */
    var emails: seq<EmailCredenciais>
    var proximoUsuario: nat
    var proximoEmbarcador: nat

    constructor ()
      ensures usuarios == [] && embarcadores == [] && perfis == [] && emails == []
      ensures Valid()
    {
      usuarios, embarcadores, perfis, emails := [], [], [], [];
      proximoUsuario, proximoEmbarcador := 0, 0;
    }

    /** Every login has an id below the next one to be given out. */
    ghost predicate Valid()
      reads this`usuarios, this`proximoUsuario
    {
      forall i :: 0 <= i < |usuarios| ==> usuarios[i].id < proximoUsuario
    }

    /** `deleteUser`: removes the login with that id; a failed call (ignored by the caller) leaves it. */
    method ExcluirUsuario(id: nat, exclusaoOk: bool)
      modifies this`usuarios
      ensures usuarios == if exclusaoOk then SemUsuario(old(usuarios), id) else old(usuarios)
    {
      if !exclusaoOk {
        return;
      }
      var restantes: seq<Usuario> := [];
      var i := 0;
      while i < |usuarios|
        invariant 0 <= i <= |usuarios|
        invariant restantes == SemUsuario(usuarios[..i], id)
      {
        assert usuarios[..i + 1][..i] == usuarios[..i];
        if usuarios[i].id != id {
          restantes := restantes + [usuarios[i]];
        }
        i := i + 1;
      }
      assert usuarios[..i] == usuarios;
      usuarios := restantes;
    }

    /**
     * What the steps after the field check do to the backend, given the services'
     * answers: a refused login changes nothing; a refused shipper row leaves the
     * login deleted when the deletion succeeds; otherwise a fresh login with a
     * strong password, its shipper row, the profile when its insert succeeds and the
     * e-mail when a mail key is set, and a 200 with the ids and the password.
     */
    twostate predicate Cadastrou(
      d: CriarUsuarioRequest, resendApiKey: string,
      authErro: Option<string>, embarcadorErro: Option<string>, exclusaoOk: bool,
      perfilOk: bool, emailOk: bool, resp: Resposta)
      reads this
    {
      match authErro
      case Some(m) =>
        resp == Resposta(400, Erro(m))
        && usuarios == old(usuarios) && embarcadores == old(embarcadores)
        && perfis == old(perfis) && emails == old(emails)
      case None =>
        match embarcadorErro
        case Some(m) =>
          && resp == Resposta(400, Erro(m))
          && (exclusaoOk ==> usuarios == old(usuarios))
          && embarcadores == old(embarcadores) && perfis == old(perfis) && emails == old(emails)
        case None =>
          && resp.status == 200 && resp.corpo.Sucesso?
          && var userId, embId, senha := resp.corpo.userId, resp.corpo.embarcadorId, resp.corpo.senha;
          && (forall i :: 0 <= i < |old(usuarios)| ==> old(usuarios)[i].id != userId)
          && SenhaForte(senha, TamanhoPadrao)
          && usuarios == old(usuarios) + [Usuario(userId, d.emailContato, senha, d.razaoSocial, "embarcador")]
          && embarcadores == old(embarcadores) + [NovoEmbarcador(embId, d)]
          && perfis == old(perfis)
               + (if perfilOk then [Perfil(userId, d.emailContato, d.razaoSocial, "embarcador", embId)] else [])
          && emails == old(emails)
               + (if resendApiKey != "" then [EmailCredenciais(d.emailContato, d.razaoSocial, senha)] else [])
          && resp.corpo.emailEnviado == (resendApiKey != "" && emailOk)
    }

    /**
     * The `try` block of the handler once the fields are present and the password is
     * drawn: the login, the shipper row (whose refusal deletes the login), the
     * profile, the e-mail.
     */
    method Cadastrar(
      dados: CriarUsuarioRequest, resendApiKey: string, senhaDefinitiva: string,
      authErro: Option<string>, embarcadorErro: Option<string>, exclusaoOk: bool,
      perfilOk: bool, emailOk: bool)
      returns (resp: Resposta)
      requires SenhaForte(senhaDefinitiva, TamanhoPadrao)
      requires Valid()
      modifies this
      ensures Valid()
      ensures Cadastrou(dados, resendApiKey, authErro, embarcadorErro, exclusaoOk, perfilOk, emailOk, resp)
      ensures resp.corpo.Sucesso? ==> resp.corpo.senha == senhaDefinitiva
    {
      // 1. the login
      if authErro.Some? {
        return Resposta(400, Erro(authErro.value));
      }
      var userId := proximoUsuario;
      proximoUsuario := proximoUsuario + 1;
      usuarios := usuarios + [Usuario(userId, dados.emailContato, senhaDefinitiva, dados.razaoSocial, "embarcador")];
      assert Valid();

      // 2. the shipper
      if embarcadorErro.Some? {
        SemUsuarioNovo(old(usuarios), Usuario(userId, dados.emailContato, senhaDefinitiva, dados.razaoSocial, "embarcador"));
        ExcluirUsuario(userId, exclusaoOk);
        return Resposta(400, Erro(embarcadorErro.value));
      }
      var embId := proximoEmbarcador;
      proximoEmbarcador := proximoEmbarcador + 1;
      embarcadores := embarcadores + [NovoEmbarcador(embId, dados)];

      // 3. the profile; a failure does not stop the handler
      if perfilOk {
        perfis := perfis + [Perfil(userId, dados.emailContato, dados.razaoSocial, "embarcador", embId)];
      }

      // 4. the credentials e-mail
      var emailEnviado := false;
      if resendApiKey != "" {
        emails := emails + [EmailCredenciais(dados.emailContato, dados.razaoSocial, senhaDefinitiva)];
        emailEnviado := emailOk;
      }
      resp := Resposta(200, Sucesso(embId, userId, emailEnviado, senhaDefinitiva));
    }

    /**
     * The handler. A preflight is answered `ok`; a body that is not JSON is a 500; a
     * missing required field is a 400 before anything is created; otherwise the
     * password is drawn and the steps of `Cadastrar` run, and a success carries that
     * password. `authErro`, `embarcadorErro`, `exclusaoOk`,
     * `perfilOk` and `emailOk` are the services' answers.
     */
    method CriarUsuarioEmpresa(
      req: Requisicao, resendApiKey: string,
      sorteios: seq<nat>, trocas: seq<(nat, nat)>,
      authErro: Option<string>, embarcadorErro: Option<string>, exclusaoOk: bool,
      perfilOk: bool, emailOk: bool)
      returns (resp: Resposta)
      requires |sorteios| >= TamanhoPadrao
      requires Valid()
      modifies this
      ensures Valid()
      ensures req.Options? ==> resp == Resposta(200, TextoOk)
      ensures req.Post? && req.corpo.None? ==> resp == Resposta(500, ErroInterno)
      ensures req.Post? && req.corpo.Some? && FaltaObrigatorio(req.corpo.value) ==>
        resp == Resposta(400, Erro(MensagemDadosObrigatorios))
      ensures req.Options? || req.corpo.None? || FaltaObrigatorio(req.corpo.value) ==>
        usuarios == old(usuarios) && embarcadores == old(embarcadores)
        && perfis == old(perfis) && emails == old(emails)
      ensures req.Post? && req.corpo.Some? && !FaltaObrigatorio(req.corpo.value) ==>
        Cadastrou(req.corpo.value, resendApiKey, authErro, embarcadorErro, exclusaoOk, perfilOk, emailOk, resp)
      ensures resp.corpo.Sucesso? ==> resp.corpo.senha == Embaralhado(SenhaInicial(TamanhoPadrao, sorteios), trocas)
    {
      if req.Options? {
        return Resposta(200, TextoOk);
      }
      if req.corpo.None? {
        return Resposta(500, ErroInterno);
      }
      var dados := req.corpo.value;
      if FaltaObrigatorio(dados) {
        return Resposta(400, Erro(MensagemDadosObrigatorios));
      }
      var senhaDefinitiva := GerarSenhaDefinitiva(TamanhoPadrao, sorteios, trocas);
      resp := Cadastrar(dados, resendApiKey, senhaDefinitiva, authErro, embarcadorErro, exclusaoOk, perfilOk, emailOk);
    }
  }
}
