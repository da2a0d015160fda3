/**
 * FundamentusFiiScraper without the network: header normalisation, the
 * header/cell zip that turns the result table into one dictionary per row,
 * and the guards around the culture-specific number parsers.
 *
 * The HTML document is given already selected and decoded: the text of the
 * `th` cells and, per data row, the text of its `td` cells (`None` for a row
 * whose cell query finds nothing). The culture parsers are parameters.
 */
module Scraper {
  import opened Wrappers
  import opened Text
  import opened Domain

  // ---------------------------------------------------------------------
  // Header normalisation
  // ---------------------------------------------------------------------

  /** What the replacement chain does to one upper-cased character. */
  function HeaderChar(c: char): char {
    if c == 'Ç' then 'C'
    else if c == 'Ã' || c == 'Á' || c == 'À' || c == 'Â' then 'A'
    else if c == 'É' || c == 'Ê' then 'E'
    else if c == 'Í' then 'I'
    else if c == 'Ó' || c == 'Ô' || c == 'Õ' then 'O'
    else if c == 'Ú' then 'U'
    else if c == '\U{B2}' then '2'
    else if c == ' ' then '_'
    else c
  }

  /** NormalizeHeader: trim, upper-case, then the fixed chain of replacements. */
  function NormalizeHeader(h: string): (r: string)
    ensures |r| == |Trim(h)|
  {
    var h0 := ToUpper(Trim(h));
    var h1 := ReplaceChar(h0, 'Ç', 'C');
    var h2 := ReplaceChar(ReplaceChar(ReplaceChar(ReplaceChar(h1, 'Ã', 'A'), 'Á', 'A'), 'À', 'A'), 'Â', 'A');
    var h3 := ReplaceChar(ReplaceChar(h2, 'É', 'E'), 'Ê', 'E');
    var h4 := ReplaceChar(h3, 'Í', 'I');
    var h5 := ReplaceChar(ReplaceChar(ReplaceChar(h4, 'Ó', 'O'), 'Ô', 'O'), 'Õ', 'O');
    var h6 := ReplaceChar(h5, 'Ú', 'U');
    var h7 := ReplaceChar(h6, '\U{B2}', '2');
    ReplaceChar(h7, ' ', '_')
  }

  /** One Replace, seen on one character. */
  function Rep(c: char, from: char, to: char): char {
    if c == from then to else c
  }

  /** The replacements of C and A, on one character. */
  function RepA(c: char): char {
    Rep(Rep(Rep(Rep(Rep(c, 'Ç', 'C'), 'Ã', 'A'), 'Á', 'A'), 'À', 'A'), 'Â', 'A')
  }

  /** The replacements of E, I and the first O, on one character. */
  function RepB(c: char): char {
    Rep(Rep(Rep(Rep(c, 'É', 'E'), 'Ê', 'E'), 'Í', 'I'), 'Ó', 'O')
  }

  /** The remaining replacements, on one character. */
  function RepC(c: char): char {
    Rep(Rep(Rep(Rep(Rep(c, 'Ô', 'O'), 'Õ', 'O'), 'Ú', 'U'), '\U{B2}', '2'), ' ', '_')
  }

  lemma {:induction false} EtapaA(s: string)
    ensures var r := ReplaceChar(ReplaceChar(ReplaceChar(ReplaceChar(ReplaceChar(s, 'Ç', 'C'), 'Ã', 'A'), 'Á', 'A'), 'À', 'A'), 'Â', 'A');
      |r| == |s| && forall i | 0 <= i < |s| :: r[i] == RepA(s[i])
  {
  }

  lemma {:induction false} EtapaB(s: string)
    ensures var r := ReplaceChar(ReplaceChar(ReplaceChar(ReplaceChar(s, 'É', 'E'), 'Ê', 'E'), 'Í', 'I'), 'Ó', 'O');
      |r| == |s| && forall i | 0 <= i < |s| :: r[i] == RepB(s[i])
  {
  }

  lemma {:induction false} EtapaC(s: string)
    ensures var r := ReplaceChar(ReplaceChar(ReplaceChar(ReplaceChar(ReplaceChar(s, 'Ô', 'O'), 'Õ', 'O'), 'Ú', 'U'), '\U{B2}', '2'), ' ', '_');
      |r| == |s| && forall i | 0 <= i < |s| :: r[i] == RepC(s[i])
  {
  }

  /** The three groups of replacements, one after the other, are HeaderChar. */
  lemma {:induction false} HeaderCharEtapas(c: char)
    ensures HeaderChar(c) == RepC(RepB(RepA(c)))
  {
  }

  /** The chain of replacements acts character by character, as HeaderChar. */
  lemma {:induction false} NormalizeHeaderChars(h: string)
    ensures forall i | 0 <= i < |NormalizeHeader(h)| ::
      NormalizeHeader(h)[i] == HeaderChar(UpperChar(Trim(h)[i]))
  {
    var h0 := ToUpper(Trim(h));
    var a := ReplaceChar(ReplaceChar(ReplaceChar(ReplaceChar(ReplaceChar(h0, 'Ç', 'C'), 'Ã', 'A'), 'Á', 'A'), 'À', 'A'), 'Â', 'A');
    var b := ReplaceChar(ReplaceChar(ReplaceChar(ReplaceChar(a, 'É', 'E'), 'Ê', 'E'), 'Í', 'I'), 'Ó', 'O');
    var r := ReplaceChar(ReplaceChar(ReplaceChar(ReplaceChar(ReplaceChar(b, 'Ô', 'O'), 'Õ', 'O'), 'Ú', 'U'), '\U{B2}', '2'), ' ', '_');
    assert r == NormalizeHeader(h);
    EtapaA(h0);
    EtapaB(a);
    EtapaC(b);
    forall i | 0 <= i < |r| ensures r[i] == HeaderChar(UpperChar(Trim(h)[i])) {
      HeaderCharEtapas(h0[i]);
    }
  }

  /** A header that needs no trimming normalises to its characters mapped by HeaderChar. */
  lemma {:induction false} NormalizeHeaderOf(h: string, key: string)
    requires Trim(h) == h && |key| == |h|
    requires forall i | 0 <= i < |h| :: key[i] == HeaderChar(UpperChar(h[i]))
    ensures NormalizeHeader(h) == key
  {
    NormalizeHeaderChars(h);
  }

  /** The accented capitals and the superscript two that the chain removes. */
  predicate Removido(c: char) {
    c == 'Ç' || c == 'Ã' || c == 'Á' || c == 'À' || c == 'Â' || c == 'É' || c == 'Ê'
    || c == 'Í' || c == 'Ó' || c == 'Ô' || c == 'Õ' || c == 'Ú' || c == '\U{B2}'
  }

  lemma {:induction false} HeaderCharFacts(c: char)
    ensures var d := HeaderChar(UpperChar(c));
      && d != ' ' && !Removido(d) && UpperChar(d) == d
      && (!IsWhiteSpace(c) ==> !IsWhiteSpace(d))
  {
  }

  /**
   * The key NormalizeHeader produces has no space, no white space at either
   * end, is in upper case and has none of the replaced characters left.
   */
  lemma {:induction false} NormalizeHeaderShape(h: string)
    ensures var r := NormalizeHeader(h);
      && (forall i | 0 <= i < |r| :: r[i] != ' ' && !Removido(r[i]))
      && ToUpper(r) == r
      && (r == [] || (!IsWhiteSpace(r[0]) && !IsWhiteSpace(r[|r| - 1])))
      && (r == [] <==> IsBlank(h))
  {
    var t := Trim(h);
    var r := NormalizeHeader(h);
    NormalizeHeaderChars(h);
    forall i | 0 <= i < |r|
      ensures r[i] != ' ' && !Removido(r[i]) && UpperChar(r[i]) == r[i]
      ensures !IsWhiteSpace(t[i]) ==> !IsWhiteSpace(r[i])
    {
      HeaderCharFacts(t[i]);
    }
  }

  lemma {:induction false} ExemploDividendYield(h: string)
    requires h == "Dividend Yield"
    ensures NormalizeHeader(h) == "DIVIDEND_YIELD"
  {
    TrimNoOp(h);
    NormalizeHeaderOf(h, "DIVIDEND_YIELD");
  }

  lemma {:induction false} ExemploQtdImoveis(h: string)
    requires h == "Qtd de imóveis"
    ensures NormalizeHeader(h) == "QTD_DE_IMOVEIS"
  {
    TrimNoOp(h);
    NormalizeHeaderOf(h, "QTD_DE_IMOVEIS");
  }

  lemma {:induction false} ExemploVacanciaMedia(h: string)
    requires h == "Vacância Média"
    ensures NormalizeHeader(h) == "VACANCIA_MEDIA"
  {
    TrimNoOp(h);
    NormalizeHeaderOf(h, "VACANCIA_MEDIA");
  }

  // ---------------------------------------------------------------------
  // Row dictionaries (Dictionary<string, string> with OrdinalIgnoreCase)
  // ---------------------------------------------------------------------

  /** One key/value pair of a row dictionary. */
  datatype Entry = Entry(key: string, value: string)

  /** A row dictionary, in insertion order. */
  type Row = seq<Entry>

  /** Position of the entry whose key equals k ignoring case, or -1. */
  function IndexOfKey(row: Row, k: string): (r: int)
    ensures -1 <= r < |row|
    ensures r >= 0 ==> EqualsIgnoreCase(row[r].key, k)
    ensures r >= 0 ==> forall j | 0 <= j < r :: !EqualsIgnoreCase(row[j].key, k)
    ensures r == -1 ==> forall j | 0 <= j < |row| :: !EqualsIgnoreCase(row[j].key, k)
  {
    if |row| == 0 then -1
    else if EqualsIgnoreCase(row[0].key, k) then 0
    else
      var r := IndexOfKey(row[1..], k);
      if r == -1 then -1 else r + 1
  }

  /** TryGetValue. */
  function Lookup(row: Row, k: string): (v: Option<string>)
    ensures v.Some? <==> exists j | 0 <= j < |row| :: EqualsIgnoreCase(row[j].key, k)
  {
    var j := IndexOfKey(row, k);
    if j >= 0 then Some(row[j].value) else None
  }

  /** dict[k] = v: an existing key keeps its spelling and place, a new one is appended. */
  function SetEntry(row: Row, k: string, v: string): (r: Row)
    ensures |r| == |row| || |r| == |row| + 1
  {
    var j := IndexOfKey(row, k);
    if j >= 0 then row[j := Entry(row[j].key, v)] else row + [Entry(k, v)]
  }

  /** No two keys are equal ignoring case. */
  predicate UniqueKeys(row: Row) {
    forall a, b | 0 <= a < b < |row| :: !EqualsIgnoreCase(row[a].key, row[b].key)
  }

  lemma {:induction false} IndexOfKeyAppend(row: Row, e: Entry, k: string)
    ensures IndexOfKey(row + [e], k)
            == if IndexOfKey(row, k) >= 0 then IndexOfKey(row, k)
               else if EqualsIgnoreCase(e.key, k) then |row| else -1
  {
    if |row| > 0 {
      assert (row + [e])[1..] == row[1..] + [e];
      IndexOfKeyAppend(row[1..], e, k);
    }
  }

  lemma {:induction false} IndexOfKeyUpdate(row: Row, j: nat, v: string, k: string)
    requires j < |row|
    ensures IndexOfKey(row[j := Entry(row[j].key, v)], k) == IndexOfKey(row, k)
  {
    if |row| > 0 && j > 0 {
      assert row[j := Entry(row[j].key, v)][1..] == row[1..][j - 1 := Entry(row[j].key, v)];
      IndexOfKeyUpdate(row[1..], j - 1, v, k);
    }
  }

  /** An assignment is read back, and every other key keeps its value. */
  lemma {:induction false} LookupSetEntry(row: Row, k: string, v: string, k2: string)
    ensures Lookup(SetEntry(row, k, v), k) == Some(v)
    ensures !EqualsIgnoreCase(k, k2) ==> Lookup(SetEntry(row, k, v), k2) == Lookup(row, k2)
  {
    var j := IndexOfKey(row, k);
    if j >= 0 {
      IndexOfKeyUpdate(row, j, v, k);
      IndexOfKeyUpdate(row, j, v, k2);
    } else {
      IndexOfKeyAppend(row, Entry(k, v), k);
      IndexOfKeyAppend(row, Entry(k, v), k2);
    }
  }

  lemma {:induction false} SetEntryUnique(row: Row, k: string, v: string)
    requires UniqueKeys(row)
    ensures UniqueKeys(SetEntry(row, k, v))
  {
    var j := IndexOfKey(row, k);
    var r := SetEntry(row, k, v);
    if j < 0 {
      forall a, b | 0 <= a < b < |r| ensures !EqualsIgnoreCase(r[a].key, r[b].key) {
        if b == |row| { assert r[b].key == k; }
      }
    }
  }

  /** The dictionary built by assigning keys[i] := values[i] for i < n, in order. */
  function RowDict(keys: seq<string>, values: seq<string>, n: nat): Row
    requires n <= |keys| && n <= |values|
  {
    if n == 0 then []
    else SetEntry(RowDict(keys, values, n - 1), keys[n - 1], values[n - 1])
  }

  /** Keys of a row dictionary stay unique. */
  lemma {:induction false} RowDictUnique(keys: seq<string>, values: seq<string>, n: nat)
    requires n <= |keys| && n <= |values|
    ensures UniqueKeys(RowDict(keys, values, n))
  {
    if n > 0 {
      RowDictUnique(keys, values, n - 1);
      SetEntryUnique(RowDict(keys, values, n - 1), keys[n - 1], values[n - 1]);
    }
  }

  /**
   * Under keys[i] the dictionary holds values[i] when no later key among the
   * first n equals it ignoring case: a later duplicate overwrites.
   */
  lemma {:induction false} RowDictLookup(keys: seq<string>, values: seq<string>, n: nat, i: nat)
    requires n <= |keys| && n <= |values| && i < n
    requires forall j | i < j < n :: !EqualsIgnoreCase(keys[j], keys[i])
    ensures Lookup(RowDict(keys, values, n), keys[i]) == Some(values[i])
  {
    LookupSetEntry(RowDict(keys, values, n - 1), keys[n - 1], values[n - 1], keys[i]);
    if i < n - 1 {
      RowDictLookup(keys, values, n - 1, i);
    }
  }

  /** A key none of the first n keys equals is absent. */
  lemma {:induction false} RowDictMissing(keys: seq<string>, values: seq<string>, n: nat, k: string)
    requires n <= |keys| && n <= |values|
    requires forall j | 0 <= j < n :: !EqualsIgnoreCase(keys[j], k)
    ensures Lookup(RowDict(keys, values, n), k) == None
  {
    if n > 0 {
      RowDictMissing(keys, values, n - 1, k);
      LookupSetEntry(RowDict(keys, values, n - 1), keys[n - 1], values[n - 1], k);
    }
  }

  /** A row dictionary depends only on the first n values. */
  lemma {:induction false} RowDictAgree(keys: seq<string>, v1: seq<string>, v2: seq<string>, n: nat)
    requires n <= |keys| && n <= |v1| && n <= |v2|
    requires forall i | 0 <= i < n :: v1[i] == v2[i]
    ensures RowDict(keys, v1, n) == RowDict(keys, v2, n)
  {
    if n > 0 {
      RowDictAgree(keys, v1, v2, n - 1);
    }
  }

  // ---------------------------------------------------------------------
  // ParseTableRows
  // ---------------------------------------------------------------------

  /** The selected table: its header texts and, per `tr[td]`, its cell texts. */
  datatype HtmlTable = HtmlTable(headerTexts: seq<string>, rows: seq<Option<seq<string>>>)

  /** Header texts trimmed, blank ones dropped. */
  function Cabecalhos(texts: seq<string>): (h: seq<string>)
    ensures |h| <= |texts|
    ensures forall i | 0 <= i < |h| :: !IsBlank(h[i])
    decreases |texts|
  {
    if |texts| == 0 then []
    else
      var t := Trim(texts[|texts| - 1]);
      Cabecalhos(texts[..|texts| - 1]) + (if t == [] then [] else [t])
  }

  function MinInt(a: int, b: int): int { if a < b then a else b }

  /** The keys of the headers. */
  function Chaves(headers: seq<string>): (k: seq<string>)
    ensures |k| == |headers| && forall i | 0 <= i < |headers| :: k[i] == NormalizeHeader(headers[i])
  {
    seq(|headers|, i requires 0 <= i < |headers| => NormalizeHeader(headers[i]))
  }

  /** The cell texts, trimmed. */
  function Textos(cells: seq<string>): (t: seq<string>)
    ensures |t| == |cells| && forall i | 0 <= i < |cells| :: t[i] == Trim(cells[i])
  {
    seq(|cells|, i requires 0 <= i < |cells| => Trim(cells[i]))
  }

  /** The dictionary of one row zips as many header/cell pairs as both sides have. */
  function ZipRow(headers: seq<string>, cells: seq<string>): Row {
    RowDict(Chaves(headers), Textos(cells), MinInt(|headers|, |cells|))
  }

  /** One dictionary per row that has cells, in row order. */
  function Linhas(headers: seq<string>, rows: seq<Option<seq<string>>>): (r: seq<Row>)
    ensures |r| <= |rows|
    decreases |rows|
  {
    if |rows| == 0 then []
    else
      var last := rows[|rows| - 1];
      Linhas(headers, rows[..|rows| - 1]) + (if last.None? then [] else [ZipRow(headers, last.value)])
  }

  /** The value ParseTableRows specifies: errors for no table or no header. */
  function TabelaParaLinhas(doc: Option<HtmlTable>): Result<seq<Row>, Erro> {
    match doc
    case None => Failure(TabelaNaoEncontrada)
    case Some(t) =>
      var headers := Cabecalhos(t.headerTexts);
      if |headers| == 0 then Failure(CabecalhosNaoEncontrados)
      else if |t.rows| == 0 then Success([])
      else Success(Linhas(headers, t.rows))
  }

  method ParseTableRows(doc: Option<HtmlTable>) returns (res: Result<seq<Row>, Erro>)
    ensures res == TabelaParaLinhas(doc)
  {
    if doc.None? {
      return Failure(TabelaNaoEncontrada);
    }
    var table := doc.value;
    var headers := Cabecalhos(table.headerTexts);
    if |headers| == 0 {
      return Failure(CabecalhosNaoEncontrados);
    }
    if |table.rows| == 0 {
      return Success([]);
    }
    var result: seq<Row> := [];
    for r := 0 to |table.rows|
      invariant result == Linhas(headers, table.rows[..r])
    {
      assert table.rows[..r + 1][..r] == table.rows[..r];
      if table.rows[r].Some? {
        var dict := MontarLinha(headers, table.rows[r].value);
        result := result + [dict];
      }
    }
    assert table.rows[..|table.rows|] == table.rows;
    return Success(result);
  }

  /** The inner loop of ParseTableRows: one row's dictionary. */
  method MontarLinha(headers: seq<string>, cells: seq<string>) returns (dict: Row)
    ensures dict == ZipRow(headers, cells)
  {
    dict := PreencherLinha(Chaves(headers), Textos(cells), MinInt(|headers|, |cells|));
  }

  /** dict[keys[i]] = values[i] for i < n, in order. */
  method PreencherLinha(keys: seq<string>, values: seq<string>, n: nat) returns (dict: Row)
    requires n <= |keys| && n <= |values|
    ensures dict == RowDict(keys, values, n)
  {
    dict := [];
    for i := 0 to n
      invariant dict == RowDict(keys, values, i)
    {
      dict := SetEntry(dict, keys[i], values[i]);
    }
  }

  /** The error cases and the empty case of ParseTableRows. */
  lemma {:induction false} ParseTableRowsCasos(doc: Option<HtmlTable>)
    ensures doc.None? <==> TabelaParaLinhas(doc) == Failure(TabelaNaoEncontrada)
    ensures TabelaParaLinhas(doc) == Failure(CabecalhosNaoEncontrados)
            <==> doc.Some? && forall i | 0 <= i < |doc.value.headerTexts| :: IsBlank(doc.value.headerTexts[i])
    ensures doc.Some? && |doc.value.rows| == 0 && !TabelaParaLinhas(doc).Failure? ==> TabelaParaLinhas(doc) == Success([])
  {
    if doc.Some? {
      CabecalhosVazios(doc.value.headerTexts);
    }
  }

  /** No header survives exactly when every header text is blank. */
  lemma {:induction false} CabecalhosVazios(texts: seq<string>)
    ensures Cabecalhos(texts) == [] <==> forall i | 0 <= i < |texts| :: IsBlank(texts[i])
    decreases |texts|
  {
    if |texts| > 0 {
      var init := texts[..|texts| - 1];
      CabecalhosVazios(init);
      assert forall i | 0 <= i < |init| :: init[i] == texts[i];
    }
  }

  /** Every row that has cells gives exactly one dictionary. */
  lemma {:induction false} LinhasCount(headers: seq<string>, rows: seq<Option<seq<string>>>)
    ensures |Linhas(headers, rows)| == CountSome(rows)
    decreases |rows|
  {
    if |rows| > 0 { LinhasCount(headers, rows[..|rows| - 1]); }
  }

  function CountSome<T>(s: seq<Option<T>>): nat
    decreases |s|
  {
    if |s| == 0 then 0 else CountSome(s[..|s| - 1]) + (if s[|s| - 1].Some? then 1 else 0)
  }

  /**
   * In a row dictionary, the key of header i holds the trimmed cell i when no
   * later zipped header has the same key.
   */
  lemma {:induction false} ZipRowLookup(headers: seq<string>, cells: seq<string>, i: nat)
    requires i < |headers| && i < |cells|
    requires forall j | i < j < MinInt(|headers|, |cells|) ::
               !EqualsIgnoreCase(NormalizeHeader(headers[j]), NormalizeHeader(headers[i]))
    ensures Lookup(ZipRow(headers, cells), NormalizeHeader(headers[i])) == Some(Trim(cells[i]))
    ensures UniqueKeys(ZipRow(headers, cells))
  {
    var n := MinInt(|headers|, |cells|);
    RowDictLookup(Chaves(headers), Textos(cells), n, i);
    RowDictUnique(Chaves(headers), Textos(cells), n);
  }

  /** Cells beyond the headers are ignored. */
  lemma {:induction false} ZipRowIgnoresExtraCells(headers: seq<string>, cells: seq<string>, extra: seq<string>)
    requires |cells| >= |headers|
    ensures ZipRow(headers, cells + extra) == ZipRow(headers, cells)
  {
    var n := |headers|;
    var v1, v2 := Textos(cells + extra), Textos(cells);
    forall i | 0 <= i < n ensures v1[i] == v2[i] {
      assert (cells + extra)[i] == cells[i];
    }
    RowDictAgree(Chaves(headers), v1, v2, n);
  }

  // ---------------------------------------------------------------------
  // Numeric fields
  // ---------------------------------------------------------------------

  /**
   * The culture-specific parsers: decimal.TryParse and int.TryParse with
   * NumberStyles.Any under pt-BR and under the invariant culture.
   */
  datatype Parsers = Parsers(
    decPtBr: string -> Option<real>,
    decInv: string -> Option<real>,
    intPtBr: string -> Option<int>,
    intInv: string -> Option<int>)

  /** The placeholders for a missing figure: hyphen and em dash. */
  predicate IsTraco(s: string) {
    s == "-" || s == "\U{2014}"
  }

  /** The pt-BR spelling rewritten for the invariant culture: "1.234,5" -> "1234.5". */
  function Invariante(s: string): string {
    ReplaceChar(RemoveChar(s, '.'), ',', '.')
  }

  /** The text ParseDecimalBr hands to the parsers: trimmed, without '%'. */
  function LimpaDecimal(input: string): string {
    Trim(RemoveChar(Trim(input), '%'))
  }

  /** The first of two parse attempts that succeeds, else 0. */
  function PrimeiroOuZero<T>(first: Option<T>, second: Option<T>, zero: T): T {
    if first.Some? then first.value else second.GetOr(zero)
  }

  function ParseDecimalBr(p: Parsers, input: string): (r: real)
    ensures IsBlank(input) ==> r == 0.0
  {
    if IsBlank(input) then 0.0
    else
      var s := LimpaDecimal(input);
      if IsTraco(s) then 0.0
      else PrimeiroOuZero(p.decPtBr(s), p.decInv(Invariante(s)), 0.0)
  }

  function ParseIntBr(p: Parsers, input: string): (r: int)
    ensures IsBlank(input) ==> r == 0
  {
    if IsBlank(input) then 0
    else
      var s := Trim(input);
      if IsTraco(s) then 0
      else PrimeiroOuZero(p.intPtBr(s), p.intInv(Invariante(s)), 0)
  }

  /**
   * ParseDecimalBr never fails: its value is 0 for a blank input or a dash,
   * the pt-BR reading when there is one, else the invariant reading of the
   * rewritten text, else 0.
   */
  lemma {:induction false} ParseDecimalBrCasos(p: Parsers, input: string)
    ensures var r := ParseDecimalBr(p, input);
      var s := LimpaDecimal(input);
      && (IsBlank(input) || IsTraco(s) ==> r == 0.0)
      && (!IsBlank(input) && !IsTraco(s) && p.decPtBr(s).Some? ==> r == p.decPtBr(s).value)
      && (!IsBlank(input) && !IsTraco(s) && p.decPtBr(s).None? && p.decInv(Invariante(s)).Some? ==>
            r == p.decInv(Invariante(s)).value)
      && (p.decPtBr(s).None? && p.decInv(Invariante(s)).None? ==> r == 0.0)
      && (r == 0.0 || p.decPtBr(s) == Some(r) || p.decInv(Invariante(s)) == Some(r))
  {
  }

  /** The parsers only ever see a trimmed text with no '%' that is not a dash. */
  lemma {:induction false} LimpaDecimalSemPercentual(input: string)
    ensures forall i | 0 <= i < |LimpaDecimal(input)| :: LimpaDecimal(input)[i] != '%'
  {
    var t := RemoveChar(Trim(input), '%');
    var s := Trim(t);
    var a := TrimStart(t);
    forall i | 0 <= i < |s| ensures s[i] != '%' {
      assert s[i] == a[i];
      assert a[i] == t[|t| - |a| + i];
    }
  }

  /**
   * ParseIntBr has the same shape on the trimmed text: 0 for a blank input or
   * a dash, the pt-BR reading when there is one, else the invariant reading of
   * the rewritten text, else 0.
   */
  lemma {:induction false} ParseIntBrCasos(p: Parsers, input: string)
    ensures var r := ParseIntBr(p, input);
      var s := Trim(input);
      && (IsBlank(input) || IsTraco(s) ==> r == 0)
      && (!IsBlank(input) && !IsTraco(s) && p.intPtBr(s).Some? ==> r == p.intPtBr(s).value)
      && (!IsBlank(input) && !IsTraco(s) && p.intPtBr(s).None? && p.intInv(Invariante(s)).Some? ==>
            r == p.intInv(Invariante(s)).value)
      && (p.intPtBr(s).None? && p.intInv(Invariante(s)).None? ==> r == 0)
      && (r == 0 || p.intPtBr(s) == Some(r) || p.intInv(Invariante(s)) == Some(r))
  {
  }

  /** An absent column reads as "" and decodes to 0 under any parsers. */
  lemma {:induction false} VazioEhZero(p: Parsers)
    ensures ParseDecimalBr(p, "") == 0.0 && ParseIntBr(p, "") == 0
  {
  }
}
