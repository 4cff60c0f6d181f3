/**
 * The postal-code lookup: `buscarEnderecoPorCep` with its module-level cache
 * and the `formatarCep` input mask.
 */
module ViaCep {
  import opened Wrappers
  import opened Digitos

  /** `EnderecoViaCep`, what the lookup hands to the form. */
  datatype EnderecoViaCep = EnderecoViaCep(cep: string, logradouro: string, bairro: string, cidade: string, uf: string)

  /** The JSON body of the service; `erro` is its "no such code" flag. */
  datatype ViaCepResponse = ViaCepResponse(
    cep: string, logradouro: string, complemento: string, bairro: string,
    localidade: string, uf: string, erro: bool)

  /** How the request ended: no answer, a non-2xx status, a body that is not JSON, or a body. */
  datatype RespostaHttp = FalhaRede | StatusNaoOk(status: int) | CorpoInvalido | Json(corpo: ViaCepResponse)

  /** The digits-only code used as the cache key. */
  function ChaveCep(cep: string): string
  {
    SomenteDigitos(cep)
  }

  predicate ChaveValida(k: string)
  {
    |k| == 8 && SoDigitos(k)
  }

  function UrlViaCep(k: string): string
  {
    "https://viacep.com.br/ws/" + k + "/json/"
  }

  /** The address built from a body without the `erro` flag (`localidade` becomes `cidade`). */
  function Endereco(d: ViaCepResponse): EnderecoViaCep
  {
    EnderecoViaCep(d.cep, d.logradouro, d.bairro, d.localidade, d.uf)
  }

  /**
   * The module state: `cache` maps a code to its address or to `None` for a code
   * the service does not know; `requisicoes` lists the URLs fetched so far.
   */
  class CacheViaCep {
    var cache: map<string, Option<EnderecoViaCep>>
    var requisicoes: seq<string>

    /** Only eight-digit codes are ever cached, and each was fetched once. */
    ghost predicate Valid()
      reads this
    {
      forall k :: k in cache ==> ChaveValida(k) && UrlViaCep(k) in requisicoes
    }

    constructor ()
      ensures Valid() && cache == map[] && requisicoes == []
    {
      cache := map[];
      requisicoes := [];
    }

    /**
     * `buscarEnderecoPorCep`: a code without eight digits is `None` with no request;
     * a cached code (address or `None`) is answered from the cache; otherwise the
     * service is asked once, its "unknown" answer is cached as `None`, its address is
     * cached and returned, and any failure is `None` without touching the cache.
     */
    method BuscarEnderecoPorCep(cep: string, resposta: RespostaHttp) returns (r: Option<EnderecoViaCep>)
      requires Valid()
      modifies this
      ensures Valid()
      ensures |ChaveCep(cep)| != 8 ==>
        r.None? && cache == old(cache) && requisicoes == old(requisicoes)
      ensures |ChaveCep(cep)| == 8 && ChaveCep(cep) in old(cache) ==>
        r == old(cache)[ChaveCep(cep)] && cache == old(cache) && requisicoes == old(requisicoes)
      ensures |ChaveCep(cep)| == 8 && ChaveCep(cep) !in old(cache) ==>
        var k := ChaveCep(cep);
        && requisicoes == old(requisicoes) + [UrlViaCep(k)]
        && match resposta
           case Json(d) =>
             if d.erro then r.None? && cache == old(cache)[k := None]
             else r == Some(Endereco(d)) && cache == old(cache)[k := Some(Endereco(d))]
           case _ => r.None? && cache == old(cache)
      ensures r.Some? ==> ChaveCep(cep) in cache && cache[ChaveCep(cep)] == r
    {
      var cepLimpo := SomenteDigitos(cep);
      if |cepLimpo| != 8 {
        return None;
      }
      if cepLimpo in cache {
        return cache[cepLimpo];
      }
      requisicoes := requisicoes + [UrlViaCep(cepLimpo)];
      match resposta {
        case Json(d) =>
          if d.erro {
            cache := cache[cepLimpo := None];
            return None;
          }
          var endereco := Endereco(d);
          cache := cache[cepLimpo := Some(endereco)];
          return Some(endereco);
        case _ =>
          return None;
      }
    }
  }

  /** `formatarCep`: at most eight digits, with a hyphen after the fifth when there are more. */
  function FormatarCep(valor: string): (r: string)
    ensures SomenteDigitos(r) == Primeiros(SomenteDigitos(valor), 8)
    ensures |r| <= 9
    ensures |Primeiros(SomenteDigitos(valor), 8)| <= 5 ==> r == Primeiros(SomenteDigitos(valor), 8)
    ensures |Primeiros(SomenteDigitos(valor), 8)| > 5 ==>
      r[5] == '-' && r[..5] + r[6..] == Primeiros(SomenteDigitos(valor), 8)
  {
    var digits := Primeiros(SomenteDigitos(valor), 8);
    AgruparCincoSomenteDigitos(digits);
    if |digits| > 5 then
      var r := AgruparCinco(digits);
      assert digits == digits[..5] + digits[5..];
      r
    else AgruparCinco(digits)
  }

  /** Masking a masked code changes nothing. */
  lemma FormatarCepIdempotente(valor: string)
    ensures FormatarCep(FormatarCep(valor)) == FormatarCep(valor)
  {
    var d := Primeiros(SomenteDigitos(valor), 8);
    assert Primeiros(SomenteDigitos(FormatarCep(valor)), 8) == d;
  }

  /**
   * The masked field looks up the same cache entry as the typed text whenever the
   * text has at most eight digits, and a complete code keeps its eight digits.
   */
  lemma FormatarCepMesmaChave(valor: string)
    ensures |SomenteDigitos(valor)| <= 8 ==> ChaveCep(FormatarCep(valor)) == ChaveCep(valor)
    ensures |ChaveCep(FormatarCep(valor))| == 8 <==> |SomenteDigitos(valor)| >= 8
  {
  }
}
