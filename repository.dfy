/**
 * FiiRepository: decodes the scraped rows into Fii records behind a memory
 * cache, and looks a fund up by ticker.
 *
 * The download and the culture parsers are parameters; the memory cache is a
 * map from key to (value, absolute expiry), with the clock as a parameter.
 */
module Repository {
  import opened Wrappers
  import opened Text
  import opened Seqs
  import opened Domain
  import opened Scraper

  // ---------------------------------------------------------------------
  // Get: one column of a row dictionary
  // ---------------------------------------------------------------------

  /** The keys the P/VP fallback accepts: containing "P/VP" ignoring case, or exactly "PVP". */
  predicate IsPvpKey(k: string) {
    ContainsIgnoreCase(k, "P/VP") || k == "PVP"
  }

  /** The position of the first key the P/VP fallback accepts, or -1. */
  function FirstPvpIndex(r: Row): (i: int)
    ensures -1 <= i < |r|
    ensures i >= 0 ==> IsPvpKey(r[i].key) && forall j | 0 <= j < i :: !IsPvpKey(r[j].key)
    ensures i == -1 ==> forall j | 0 <= j < |r| :: !IsPvpKey(r[j].key)
  {
    if |r| == 0 then -1
    else if IsPvpKey(r[0].key) then 0
    else
      var i := FirstPvpIndex(r[1..]);
      if i == -1 then -1 else i + 1
  }

  /** A key of the row is found by a lookup of itself. */
  lemma {:induction false} LookupOwnKey(r: Row, i: nat)
    requires i < |r|
    ensures Lookup(r, r[i].key).Some?
  {
    assert EqualsIgnoreCase(r[i].key, r[i].key);
  }

  /** A key of a row with distinct keys looks up its own value. */
  lemma {:induction false} LookupOwnEntry(r: Row, i: nat)
    requires i < |r| && UniqueKeys(r)
    ensures Lookup(r, r[i].key) == Some(r[i].value)
  {
    assert EqualsIgnoreCase(r[i].key, r[i].key);
  }

  /** The value Get returns. */
  function GetSpec(r: Row, key: string): string {
    var v := Lookup(r, key);
    if v.Some? then v.value
    else if key == "P/VP" && FirstPvpIndex(r) >= 0 then Lookup(r, r[FirstPvpIndex(r)].key).GetOr("")
    else ""
  }

  /** Get: the exact key ignoring case, the P/VP fallback, else "". */
  method Get(r: Row, key: string) returns (v: string)
    ensures v == GetSpec(r, key)
  {
    var found := Lookup(r, key);
    if found.Some? {
      return found.value;
    }
    if key == "P/VP" {
      for i := 0 to |r|
        invariant forall j | 0 <= j < i :: !IsPvpKey(r[j].key)
      {
        if IsPvpKey(r[i].key) {
          LookupOwnKey(r, i);
          return Lookup(r, r[i].key).value;
        }
      }
    }
    return "";
  }

  /**
   * The three outcomes of Get: a present key gives its value; a missing "P/VP"
   * gives the value of the first key the fallback accepts; anything else gives "".
   */
  lemma {:induction false} GetCasos(r: Row, key: string)
    requires UniqueKeys(r)
    ensures Lookup(r, key).Some? ==> GetSpec(r, key) == Lookup(r, key).value
    ensures Lookup(r, key).None? && key == "P/VP" && (exists j | 0 <= j < |r| :: IsPvpKey(r[j].key)) ==>
              exists j | 0 <= j < |r| :: IsPvpKey(r[j].key) && GetSpec(r, key) == r[j].value
                && forall l | 0 <= l < j :: !IsPvpKey(r[l].key)
    ensures Lookup(r, key).None? && (key != "P/VP" || forall j | 0 <= j < |r| :: !IsPvpKey(r[j].key)) ==>
              GetSpec(r, key) == ""
  {
    var i := FirstPvpIndex(r);
    if i >= 0 {
      LookupOwnEntry(r, i);
    }
  }

  // ---------------------------------------------------------------------
  // The row -> Fii loop of ObterTodosAsync
  // ---------------------------------------------------------------------

  /** A row yields a fund when its PAPEL column is not blank. */
  predicate PapelPresente(r: Row) {
    !IsBlank(GetSpec(r, "PAPEL"))
  }

  /** The fund built from one row: each column read with Get and parsed. */
  function MontarFii(p: Parsers, r: Row): Fii {
    Fii(
      GetSpec(r, "PAPEL"),
      GetSpec(r, "SEGMENTO"),
      ParseDecimalBr(p, GetSpec(r, "COTACAO")),
      ParseDecimalBr(p, GetSpec(r, "FFO_YIELD")),
      ParseDecimalBr(p, GetSpec(r, "DIVIDEND_YIELD")),
      ParseDecimalBr(p, GetSpec(r, "P/VP")),
      ParseDecimalBr(p, GetSpec(r, "VALOR_DE_MERCADO")),
      ParseDecimalBr(p, GetSpec(r, "LIQUIDEZ")),
      ParseIntBr(p, GetSpec(r, "QTD_DE_IMOVEIS")),
      ParseDecimalBr(p, GetSpec(r, "PRECO_DO_M2")),
      ParseDecimalBr(p, GetSpec(r, "ALUGUEL_POR_M2")),
      ParseDecimalBr(p, GetSpec(r, "CAP_RATE")),
      ParseDecimalBr(p, GetSpec(r, "VACANCIA_MEDIA")))
  }

  /** The list the loader builds: the rows with a ticker, in order, each built into a fund. */
  function Decodificar(p: Parsers, rows: seq<Row>): seq<Fii> {
    Map(Filter(rows, PapelPresente), (r: Row) => MontarFii(p, r))
  }

  lemma {:induction false} DecodificarSnoc(p: Parsers, rows: seq<Row>, r: Row)
    ensures Decodificar(p, rows + [r])
            == Decodificar(p, rows) + (if PapelPresente(r) then [MontarFii(p, r)] else [])
  {
    FilterMapSnoc(rows, r, PapelPresente, (x: Row) => MontarFii(p, x));
  }

  /** The foreach of ObterTodosAsync: blank tickers are skipped, the rest appended. */
  method DecodificarLinhas(p: Parsers, rows: seq<Row>) returns (list: seq<Fii>)
    ensures list == Decodificar(p, rows)
  {
    list := [];
    for i := 0 to |rows|
      invariant list == Decodificar(p, rows[..i])
    {
      var r := rows[i];
      assert rows[..i + 1] == rows[..i] + [r];
      DecodificarSnoc(p, rows[..i], r);
      var papel := Get(r, "PAPEL");
      if IsBlank(papel) {
        continue;
      }
      var segmento := Get(r, "SEGMENTO");
      var cotacao := Get(r, "COTACAO");
      var ffoYield := Get(r, "FFO_YIELD");
      var dividendYield := Get(r, "DIVIDEND_YIELD");
      var pvp := Get(r, "P/VP");
      var valorMercado := Get(r, "VALOR_DE_MERCADO");
      var liquidez := Get(r, "LIQUIDEZ");
      var qtdImoveis := Get(r, "QTD_DE_IMOVEIS");
      var precoM2 := Get(r, "PRECO_DO_M2");
      var aluguelM2 := Get(r, "ALUGUEL_POR_M2");
      var capRate := Get(r, "CAP_RATE");
      var vacancia := Get(r, "VACANCIA_MEDIA");
      var fii := Fii(papel, segmento,
        ParseDecimalBr(p, cotacao), ParseDecimalBr(p, ffoYield), ParseDecimalBr(p, dividendYield),
        ParseDecimalBr(p, pvp), ParseDecimalBr(p, valorMercado), ParseDecimalBr(p, liquidez),
        ParseIntBr(p, qtdImoveis), ParseDecimalBr(p, precoM2), ParseDecimalBr(p, aluguelM2),
        ParseDecimalBr(p, capRate), ParseDecimalBr(p, vacancia));
      list := list + [fii];
    }
    assert rows[..|rows|] == rows;
  }

  /** f is the fund built from some row of `rows` that has a ticker. */
  predicate DeAlgumaLinha(p: Parsers, rows: seq<Row>, f: Fii) {
    exists r | r in rows :: PapelPresente(r) && f == MontarFii(p, r)
  }

  /** Rows with a blank ticker are skipped; every other row gives one fund, in row order. */
  lemma {:induction false} DecodificarFacts(p: Parsers, rows: seq<Row>)
    ensures var out := Decodificar(p, rows);
      && |out| <= |rows|
      && |out| == |Filter(rows, PapelPresente)|
      && (forall i | 0 <= i < |out| :: !IsBlank(out[i].papel))
      && (forall i | 0 <= i < |out| :: DeAlgumaLinha(p, rows, out[i]))
      && (forall r | r in rows && PapelPresente(r) :: MontarFii(p, r) in out)
  {
    var kept := Filter(rows, PapelPresente);
    var out := Decodificar(p, rows);
    assert |out| == |kept| <= |rows|;
    forall i | 0 <= i < |out|
      ensures !IsBlank(out[i].papel)
      ensures DeAlgumaLinha(p, rows, out[i])
    {
      var r := kept[i];
      assert r in rows && PapelPresente(r);
      assert out[i] == MontarFii(p, r);
      assert out[i].papel == GetSpec(r, "PAPEL");
    }
    forall r | r in rows && PapelPresente(r) ensures MontarFii(p, r) in out {
      assert r in kept;
      var i :| 0 <= i < |kept| && kept[i] == r;
      assert out[i] == MontarFii(p, r);
    }
  }

  /** Decoding two batches of rows gives the two lists one after the other. */
  lemma {:induction false} DecodificarConcat(p: Parsers, rows: seq<Row>, rows2: seq<Row>)
    ensures Decodificar(p, rows + rows2) == Decodificar(p, rows) + Decodificar(p, rows2)
  {
    FilterConcat(rows, rows2, PapelPresente);
    MapConcat(Filter(rows, PapelPresente), Filter(rows2, PapelPresente), (x: Row) => MontarFii(p, x));
  }

  /**
   * A numeric column absent from the row reads as "" and decodes to 0; for P/VP
   * only when no key qualifies for the fallback either.
   */
  lemma {:induction false} ColunaAusenteZero(p: Parsers, r: Row, key: string)
    requires Lookup(r, key).None?
    requires key != "P/VP" || FirstPvpIndex(r) == -1
    ensures GetSpec(r, key) == ""
    ensures ParseDecimalBr(p, GetSpec(r, key)) == 0.0 && ParseIntBr(p, GetSpec(r, key)) == 0
  {
    VazioEhZero(p);
  }

  // ---------------------------------------------------------------------
  // The cache and the two repository operations
  // ---------------------------------------------------------------------

  /** The cache key of the full listing. */
  const ChaveCache: string := "fiis_fundamentus_all"

  /** The absolute expiry of the cached listing: 6 hours, in seconds. */
  const ValidadeCache: int := 6 * 60 * 60

  /** A cached value with its absolute expiry time. */
  datatype CacheEntry = CacheEntry(value: seq<Fii>, expiry: int)

  /** The listing is cached and has not expired at time now. */
  predicate CacheValido(cache: map<string, CacheEntry>, now: int) {
    ChaveCache in cache && now < cache[ChaveCache].expiry
  }

  /** The loader of ObterTodosAsync: download, parse the table, decode the rows. */
  function Carregar(p: Parsers, download: Result<Option<HtmlTable>, Erro>): (res: Result<seq<Fii>, Erro>)
    ensures download.Failure? ==> res == Failure(download.error)
    ensures download.Success? && TabelaParaLinhas(download.value).Failure? ==>
              res == Failure(TabelaParaLinhas(download.value).error)
    ensures res.Success? ==> |res.value| <= |TabelaParaLinhas(download.value).value|
  {
    match download
    case Failure(e) => Failure(e)
    case Success(doc) =>
      var rows := TabelaParaLinhas(doc);
      if rows.Failure? then Failure(rows.error)
      else
        DecodificarFacts(p, rows.value);
        Success(Decodificar(p, rows.value))
  }

  /** The first fund whose ticker equals t ignoring case (FirstOrDefault). */
  function BuscarPorPapel(all: seq<Fii>, t: string): (r: Option<Fii>)
    ensures r.None? <==> forall i | 0 <= i < |all| :: !EqualsIgnoreCase(all[i].papel, t)
    ensures r.Some? ==> exists i | 0 <= i < |all| ::
              all[i] == r.value && EqualsIgnoreCase(all[i].papel, t) &&
              forall j | 0 <= j < i :: !EqualsIgnoreCase(all[j].papel, t)
  {
    if |all| == 0 then None
    else if EqualsIgnoreCase(all[0].papel, t) then Some(all[0])
    else
      var r := BuscarPorPapel(all[1..], t);
      if r.Some? then
        var i :| 0 <= i < |all[1..]| && all[1..][i] == r.value && EqualsIgnoreCase(all[1..][i].papel, t) &&
          forall j | 0 <= j < i :: !EqualsIgnoreCase(all[1..][j].papel, t);
        assert all[i + 1] == r.value;
        r
      else r
  }

  class FiiRepository {
    /** The memory cache, by key. */
    var cache: map<string, CacheEntry>

    constructor()
      ensures cache == map[]
    {
      cache := map[];
    }

    /**
     * ObterTodosAsync at time now: a valid cached listing is returned as it is
     * and the loader does not run; otherwise the loader's outcome is returned,
     * and stored for 6 hours when it succeeds.
     */
    method ObterTodos(p: Parsers, now: int, download: Result<Option<HtmlTable>, Erro>)
      returns (res: Result<seq<Fii>, Erro>)
      modifies this
      ensures CacheValido(old(cache), now) ==>
                res == Success(old(cache)[ChaveCache].value) && cache == old(cache)
      ensures !CacheValido(old(cache), now) ==> res == Carregar(p, download)
      ensures !CacheValido(old(cache), now) && res.Success? ==>
                cache == old(cache)[ChaveCache := CacheEntry(res.value, now + ValidadeCache)]
      ensures res.Failure? ==> cache == old(cache)
    {
      if CacheValido(cache, now) {
        return Success(cache[ChaveCache].value);
      }
      if download.Failure? {
        return Failure(download.error);
      }
      var rows := ParseTableRows(download.value);
      if rows.Failure? {
        return Failure(rows.error);
      }
      var list := DecodificarLinhas(p, rows.value);
      cache := cache[ChaveCache := CacheEntry(list, now + ValidadeCache)];
      return Success(list);
    }

    /**
     * ObterPorPapelAsync: no lookup and no load for a blank ticker; otherwise
     * the first fund of the listing whose ticker equals the trimmed input
     * ignoring case.
     */
    method ObterPorPapel(p: Parsers, papel: string, now: int, download: Result<Option<HtmlTable>, Erro>)
      returns (res: Result<Option<Fii>, Erro>)
      modifies this
      ensures IsBlank(papel) ==> res == Success(None) && cache == old(cache)
      ensures !IsBlank(papel) && CacheValido(old(cache), now) ==>
                res == Success(BuscarPorPapel(old(cache)[ChaveCache].value, Trim(papel))) && cache == old(cache)
      ensures !IsBlank(papel) && !CacheValido(old(cache), now) ==>
                match Carregar(p, download)
                case Success(all) =>
                  && res == Success(BuscarPorPapel(all, Trim(papel)))
                  && cache == old(cache)[ChaveCache := CacheEntry(all, now + ValidadeCache)]
                case Failure(e) => res == Failure(e) && cache == old(cache)
    {
      if IsBlank(papel) {
        return Success(None);
      }
      var all := ObterTodos(p, now, download);
      if all.Failure? {
        return Failure(all.error);
      }
      return Success(BuscarPorPapel(all.value, Trim(papel)));
    }
  }
}
