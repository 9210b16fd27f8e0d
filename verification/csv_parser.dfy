/**
 * The row rules of the backend CSV reader. The CSV library hands over each
 * data line as a record from column header to cell text; the rules below
 * turn those records into keyword, business and product rows and drop the
 * rows that lack a phrase, a search volume or an ASIN.
 *
 * A header absent from a record reads as the empty text, which is what
 * `row[key] || ''` gives for a missing or empty cell.
 */
module CsvParser {
  import opened Wrappers
  import opened Text
  import opened Numbers
  import opened Model

  /** One data line of a CSV file with a header line: column header -> cell text. */
  type Record = map<string, string>

  /** `row[key] || ''` */
  function Cell(row: Record, key: string): string {
    if key in row then row[key] else ""
  }

  // ---------------------------------------------------------------------
  // European number format

  /**
   * `parseEuropeanNumber`: with a comma, the dots before the first comma group thousands and the text after
   * it (up to a second comma) is the fraction; without a comma, a single dot followed by three or more
   * characters, or several dots, group thousands and the text is read as an integer; anything else is read
   * as a plain decimal. Empty text and text that does not parse give 0.
   */
  function ParseEuropeanNumber(value: string): real {
    if value == "" then 0.0 else EuropeanCleaned(Trim(value))
  }

  /** The number in trimmed text, read by whether it holds a comma. */
  function EuropeanCleaned(cleaned: string): real {
    if ',' in cleaned then EuropeanWithComma(cleaned) else EuropeanWithoutComma(cleaned)
  }

  function EuropeanWithComma(cleaned: string): real
    requires ',' in cleaned
  {
    var parts := Split(cleaned, ',');
    assert |parts| >= 2 by { CountIn(cleaned, ','); }
    var integerPart := RemoveChar(parts[0], '.');
    var decimalPart := parts[1];
    ParseFloatOr0(integerPart + "." + decimalPart)
  }

  function EuropeanWithoutComma(cleaned: string): real {
    var parts := Split(cleaned, '.');
    if |parts| == 2 && |parts[1]| > 2 then ParseIntOr0(RemoveChar(cleaned, '.')) as real
    else if |parts| > 2 then ParseIntOr0(RemoveChar(cleaned, '.')) as real
    else ParseFloatOr0(cleaned)
  }

  /** Empty text, and text of white space only, is read as 0. */
  lemma EuropeanBlank(value: string)
    requires Trim(value) == ""
    ensures ParseEuropeanNumber(value) == 0.0
  {
    if value != "" {
      assert Split("", '.') == [""];
      assert ParseFloat("") == None by {
        assert TrimStart("") == "";
        assert LeadingDigits("") == 0;
      }
    }
  }

  /** White space around the number makes no difference. */
  lemma EuropeanSpacesIgnored(value: string)
    ensures ParseEuropeanNumber(value) == ParseEuropeanNumber(Trim(value))
  {
    var t := Trim(value);
    if t == "" {
      EuropeanBlank(value);
    } else {
      assert Trim(t) == t by {
        TrimIsTrimmed(value);
        TrimOfTrimmed(t);
      }
    }
  }

  /** Digits and dots, a comma, digits and a trimmed rest make a trimmed text with a comma. */
  lemma CommaAfter(j: string, f: string, rest: string)
    requires Numeric(j) && ',' !in j && AllDigits(f) && Trimmed(rest)
    requires rest == [] || rest[0] == ','
    ensures var v := j + [','] + f + rest; Trim(v) == v && ',' in v && ',' !in f
  {
    var v := j + [','] + f + rest;
    NotIn(f, ',');
    assert v[|j|] == ',';
    var p := j + [','] + f;
    assert Numeric(p) by {
      NumericAppend(j, [',']);
      NumericAppend(j + [','], f);
    }
    NumericTrimmed(p);
    TrimmedAppend(p, rest);
    TrimOfTrimmed(v);
  }

  /**
   * With a comma: "24.779,36" is 24779.36 and "1,234" is 1.234. The dots before the first comma are dropped,
   * the digits after it are the fraction, and whatever follows a second comma is ignored.
   */
  lemma {:induction false} EuropeanComma(gs: seq<string>, f: string, rest: string)
    requires DigitGroups(gs) && AllDigits(f) && Trimmed(rest)
    requires rest == [] || rest[0] == ','
    requires |Concat(gs)| + |f| > 0
    ensures AllDigits(Concat(gs))
    ensures ParseEuropeanNumber(Join(gs, '.') + [','] + f + rest) == DecimalValue(Concat(gs), f)
  {
    var j := Join(gs, '.');
    assert Numeric(j) && ',' !in j by { JoinDigits(gs, '.'); }
    CommaValue(j, f, rest);
    assert RemoveChar(j, '.') == Concat(gs) by {
      forall i | 0 <= i < |gs| ensures '.' !in gs[i] {
        NotIn(gs[i], '.');
      }
      RemoveCharJoin(gs, '.');
    }
    ConcatDigits(gs);
    ParseFloatDecimal(Concat(gs), f);
  }

  /** The comma rule on digits and dots, a comma, digits and anything from a second comma on. */
  lemma CommaValue(j: string, f: string, rest: string)
    requires Numeric(j) && ',' !in j && AllDigits(f) && Trimmed(rest)
    requires rest == [] || rest[0] == ','
    ensures ParseEuropeanNumber(j + [','] + f + rest) == ParseFloatOr0(RemoveChar(j, '.') + "." + f)
  {
    var v := j + [','] + f + rest;
    CommaAfter(j, f, rest);
    TrimmedComma(v);
    CommaPieces(j, f, rest);
  }

  lemma TrimmedComma(v: string)
    requires Trim(v) == v && ',' in v
    ensures ParseEuropeanNumber(v) == EuropeanWithComma(v)
  {
  }

  /** Before the first comma stands `j` and after it `f`, whatever comes from a second comma on. */
  lemma CommaPieces(j: string, f: string, rest: string)
    requires ',' !in j && ',' !in f
    requires rest == [] || rest[0] == ','
    ensures var v := j + [','] + f + rest; ',' in v && EuropeanWithComma(v) == ParseFloatOr0(RemoveChar(j, '.') + "." + f)
  {
    var v := j + [','] + f + rest;
    assert v[|j|] == ',';
    FirstTwoPieces(j, ',', f, rest);
  }

  /** Digit groups joined by dots are digits, dots and nothing else. */
  lemma DotShape(gs: seq<string>)
    requires DigitGroups(gs) && |gs| >= 2
    ensures var v := Join(gs, '.'); v != "" && Trim(v) == v && ',' !in v
  {
    var v := Join(gs, '.');
    assert Numeric(v) && ',' !in v && v != "" by {
      JoinDigits(gs, '.');
    }
    assert Trim(v) == v by {
      NumericTrimmed(v);
      TrimOfTrimmed(v);
    }
  }

  /** Digit groups joined by dots split back into the groups, and dropping the dots runs them together. */
  lemma DotPieces(gs: seq<string>)
    requires DigitGroups(gs) && |gs| >= 2
    ensures Split(Join(gs, '.'), '.') == gs
    ensures RemoveChar(Join(gs, '.'), '.') == Concat(gs)
  {
    forall i | 0 <= i < |gs| ensures '.' !in gs[i] {
      NotIn(gs[i], '.');
    }
    SplitJoin(gs, '.');
    RemoveCharJoin(gs, '.');
  }

  /**
   * Without a comma, a dot followed by three or more digits, or several dots, separate thousands:
   * "1.487" is 1487 and "1.234.567" is 1234567.
   */
  lemma EuropeanThousands(gs: seq<string>)
    requires DigitGroups(gs) && |gs| >= 2
    requires |gs| > 2 || |gs[1]| > 2
    ensures AllDigits(Concat(gs))
    ensures ParseEuropeanNumber(Join(gs, '.')) == DigitsValue(Concat(gs)) as real
  {
    var v := Join(gs, '.');
    DotShape(gs);
    assert ParseEuropeanNumber(v) == EuropeanWithoutComma(v);
    assert EuropeanWithoutComma(v) == ParseIntOr0(Concat(gs)) as real by {
      DotPieces(gs);
    }
    ConcatDigits(gs);
    if Concat(gs) != [] {
      ParseIntDigits(Concat(gs));
    } else {
      assert ParseInt("") == None by {
        assert TrimStart("") == "";
        assert LeadingDigits("") == 0;
      }
    }
  }

  /** Without a comma, one dot followed by at most two digits is a decimal point: "1.5" is 1.5. */
  lemma EuropeanDecimal(a: string, f: string)
    requires AllDigits(a) && AllDigits(f) && |a| > 0 && |f| <= 2
    ensures ParseEuropeanNumber(a + "." + f) == DecimalValue(a, f)
  {
    var gs := [a, f];
    assert Join(gs, '.') == a + "." + f by { assert gs[..1] == [a]; }
    assert DigitGroups(gs);
    DotShape(gs);
    DotPieces(gs);
    ParseFloatDecimal(a, f);
  }

  /** A run of digits is read as the whole number it spells. */
  lemma EuropeanDigits(d: string)
    requires AllDigits(d) && |d| > 0
    ensures ParseEuropeanNumber(d) == DigitsValue(d) as real
  {
    NotIn(d, ',');
    NotIn(d, '.');
    assert Numeric(d);
    NumericTrimmed(d);
    TrimOfTrimmed(d);
    SplitWithout(d, '.');
    ParseFloatDigits(d);
  }

  lemma ExampleGroups()
    ensures DigitGroups(["24", "779"]) && Join(["24", "779"], '.') == "24.779" && Concat(["24", "779"]) == "24779"
    ensures DigitGroups(["1", "487"]) && Join(["1", "487"], '.') == "1.487" && Concat(["1", "487"]) == "1487"
    ensures DigitGroups(["1"]) && Join(["1"], '.') == "1" && Concat(["1"]) == "1"
  {
    var a := ["24", "779"];
    assert a[..1] == ["24"];
    assert Concat(["24"]) == "" + "24";
    var b := ["1", "487"];
    assert b[..1] == ["1"];
    assert Concat(["1"]) == "" + "1";
  }

  lemma ExampleGroups3()
    ensures DigitGroups(["1", "234", "567"]) && Join(["1", "234", "567"], '.') == "1.234.567"
    ensures Concat(["1", "234", "567"]) == "1234567"
  {
    var c := ["1", "234", "567"];
    assert c[..2] == ["1", "234"];
    assert ["1", "234"][..1] == ["1"];
    assert Concat(["1"]) == "" + "1";
  }

  lemma DigitsOf24779()
    ensures AllDigits("24779") && DigitsValue("24779") == 24779
  {
    assert "24779"[..4] == "2477";
    assert "2477"[..3] == "247";
    assert "247"[..2] == "24";
    assert "24"[..1] == "2";
    assert "2"[..0] == "";
  }

  lemma DigitsOf1234567()
    ensures AllDigits("1234567") && DigitsValue("1234567") == 1234567
  {
    assert "1234567"[..6] == "123456";
    assert "123456"[..5] == "12345";
    assert "12345"[..4] == "1234";
    assert "1234"[..3] == "123";
    assert "123"[..2] == "12";
    assert "12"[..1] == "1";
    assert "1"[..0] == "";
  }

  lemma SmallDigits()
    ensures AllDigits("36") && DigitsValue("36") == 36
    ensures AllDigits("234") && DigitsValue("234") == 234
    ensures AllDigits("1487") && DigitsValue("1487") == 1487
    ensures AllDigits("1") && DigitsValue("1") == 1
    ensures AllDigits("5") && DigitsValue("5") == 5
  {
    assert "36"[..1] == "3";
    assert "234"[..2] == "23";
    assert "23"[..1] == "2";
    assert "1487"[..3] == "148";
    assert "148"[..2] == "14";
    assert "14"[..1] == "1";
    assert "1"[..0] == "";
    assert "3"[..0] == "";
    assert "2"[..0] == "";
    assert "5"[..0] == "";
  }

  /** An instance of the comma rule for concrete text. */
  lemma CommaInstance(gs: seq<string>, f: string, v: string, x: real)
    requires DigitGroups(gs) && AllDigits(f) && |Concat(gs)| > 0
    requires v == Join(gs, '.') + [','] + f
    requires AllDigits(Concat(gs)) && DecimalValue(Concat(gs), f) == x
    ensures ParseEuropeanNumber(v) == x
  {
    assert v == Join(gs, '.') + [','] + f + [];
    EuropeanComma(gs, f, []);
  }

  /** An instance of the thousands rule for concrete text. */
  lemma ThousandsInstance(gs: seq<string>, v: string, x: real)
    requires DigitGroups(gs) && |gs| >= 2 && (|gs| > 2 || |gs[1]| > 2)
    requires v == Join(gs, '.') && AllDigits(Concat(gs)) && DigitsValue(Concat(gs)) as real == x
    ensures ParseEuropeanNumber(v) == x
  {
    EuropeanThousands(gs);
  }

  /** An instance of the decimal rule for concrete text. */
  lemma DecimalInstance(a: string, f: string, v: string, x: real)
    requires AllDigits(a) && AllDigits(f) && |a| > 0 && |f| <= 2
    requires v == a + "." + f && DecimalValue(a, f) == x
    ensures ParseEuropeanNumber(v) == x
  {
    EuropeanDecimal(a, f);
  }

  lemma ExampleEuropeanDecimals()
    ensures ParseEuropeanNumber("24.779,36") == 24779.36
  {
    ExampleGroups();
    DigitsOf24779();
    SmallDigits();
    assert Pow10(2) == 100;
    CommaInstance(["24", "779"], "36", "24.779,36", 24779.36);
  }

  lemma ExampleSingleComma()
    ensures ParseEuropeanNumber("1,234") == 1.234
  {
    ExampleGroups();
    SmallDigits();
    assert Pow10(3) == 1000;
    CommaInstance(["1"], "234", "1,234", 1.234);
  }

  lemma ExampleOneDot()
    ensures ParseEuropeanNumber("1.487") == 1487.0
  {
    ExampleGroups();
    SmallDigits();
    ThousandsInstance(["1", "487"], "1.487", 1487.0);
  }

  lemma ExampleTwoDots()
    ensures ParseEuropeanNumber("1.234.567") == 1234567.0
  {
    ExampleGroups3();
    DigitsOf1234567();
    ThousandsInstance(["1", "234", "567"], "1.234.567", 1234567.0);
  }

  lemma ExamplePlainDecimal()
    ensures ParseEuropeanNumber("1.5") == 1.5
  {
    SmallDigits();
    assert Pow10(1) == 10;
    DecimalInstance("1", "5", "1.5", 1.5);
  }

  /** The readings the comments of the parser announce, and the "1,234" reading of the comma rule. */
  lemma EuropeanExamples()
    ensures ParseEuropeanNumber("24.779,36") == 24779.36
    ensures ParseEuropeanNumber("1,234") == 1.234
    ensures ParseEuropeanNumber("1.487") == 1487.0
    ensures ParseEuropeanNumber("1.234.567") == 1234567.0
    ensures ParseEuropeanNumber("1.5") == 1.5
    ensures ParseEuropeanNumber("") == 0.0
  {
    ExampleEuropeanDecimals();
    ExampleSingleComma();
    ExampleOneDot();
    ExampleTwoDots();
    ExamplePlainDecimal();
  }

  // ---------------------------------------------------------------------
  // Keyword rows

  /** A column whose header starts with "B0" (an ASIN) and whose cell is non-empty text `parseInt` reads. */
  predicate RankingCell(row: Record, key: string) {
    key in row && StartsWith(key, "B0") && row[key] != "" && ParseInt(row[key]).Some?
  }

  /** The rankings of a keyword row: ASIN column -> `parseInt` of its cell. */
  function RankingsOf(row: Record): map<string, int> {
    map key | key in row && RankingCell(row, key) :: ParseInt(row[key]).value
  }

  /** The entries of `m` whose keys are among `keys`. */
  function Restrict(m: map<string, int>, keys: set<string>): (r: map<string, int>)
    ensures forall k :: k in r <==> k in keys && k in m
  {
    map k | k in keys && k in m :: m[k]
  }

  /** The ranking dictionary, filled one column at a time. */
  method Rankings(row: Record) returns (rankings: map<string, int>)
    ensures rankings == RankingsOf(row)
  {
    ghost var all := RankingsOf(row);
    rankings := map[];
    var todo := row.Keys;
    while todo != {}
      invariant todo <= row.Keys
      invariant rankings == Restrict(all, row.Keys - todo)
      decreases |todo|
    {
      var key :| key in todo;
      ghost var seen := row.Keys - todo;
      RestrictAdd(all, seen, key);
      if StartsWith(key, "B0") && row[key] != "" && ParseInt(row[key]).Some? {
        rankings := rankings[key := ParseInt(row[key]).value];
      }
      todo := todo - {key};
      assert row.Keys - todo == seen + {key};
    }
    assert row.Keys - todo == row.Keys;
    RestrictAll(all, row.Keys);
  }

  /** Allowing one more key adds its entry when `m` has one. */
  lemma RestrictAdd(m: map<string, int>, seen: set<string>, key: string)
    requires key !in seen
    ensures Restrict(m, seen + {key}) == if key in m then Restrict(m, seen)[key := m[key]] else Restrict(m, seen)
  {
  }

  lemma RestrictAll(m: map<string, int>, keys: set<string>)
    requires m.Keys <= keys
    ensures Restrict(m, keys) == m
  {
  }

  /** A column is ranked exactly when its header starts with "B0" and its cell reads as an integer. */
  lemma RankingsDomain(row: Record, key: string)
    ensures key in RankingsOf(row) <==> key in row && StartsWith(key, "B0") && ParseInt(row[key]).Some?
  {
    if key in row && ParseInt(row[key]).Some? {
      assert row[key] != "" by {
        if row[key] == "" {
          assert TrimStart("") == "" && LeadingDigits("") == 0;
        }
      }
    }
  }

  /** A ranking of 0, or a negative one, is kept like any other. */
  lemma RankingsKeepZeroAndNegative(row: Record, key: string, d: string)
    requires key in row && StartsWith(key, "B0") && d != [] && AllDigits(d)
    requires row[key] == d || row[key] == ['-'] + d
    ensures key in RankingsOf(row)
    ensures RankingsOf(row)[key] == if row[key] == d then DigitsValue(d) else -1 * DigitsValue(d)
  {
    if row[key] == d {
      ParseIntDigits(d);
    } else {
      ParseIntNegative(d, row[key]);
    }
  }

  /** The first relevance column that is present and non-empty, read with `parseFloat(...) || 0`; 0 if none is. */
  function RelevanceOf(row: Record): real {
    if "Rilevanza" in row && row["Rilevanza"] != "" then ParseFloatOr0(row["Rilevanza"])
    else if "Relevance" in row && row["Relevance"] != "" then ParseFloatOr0(row["Relevance"])
    else if "relevance" in row && row["relevance"] != "" then ParseFloatOr0(row["relevance"])
    else 0.0
  }

  /** "Is_Brand" is "true" in any letter case or "1", or "Brand_Word" has more than white space. */
  predicate IsBrandRow(row: Record) {
    ToLower(Cell(row, "Is_Brand")) == "true" || Cell(row, "Is_Brand") == "1" || Trim(Cell(row, "Brand_Word")) != ""
  }

  /** The trimmed "Brand_Word", or nothing when it is blank. */
  function BrandWordOf(row: Record): Option<string> {
    var w := Trim(Cell(row, "Brand_Word"));
    if w == "" then None else Some(w)
  }

  function KeywordRowOf(row: Record): KeywordRow {
    KeywordRow(
      Cell(row, "Keyword Phrase"),
      ParseIntOr0(Cell(row, "Search Volume")),
      RelevanceOf(row),
      IsBrandRow(row),
      BrandWordOf(row),
      RankingsOf(row))
  }

  predicate KeepKeyword(k: KeywordRow) {
    k.phrase != "" && k.searchVolume > 0
  }

  /** A brand word makes the row a brand row, and it has no white space at either end. */
  lemma BrandWordMeansBrand(row: Record)
    ensures BrandWordOf(row).Some? ==> IsBrandRow(row)
    ensures BrandWordOf(row).Some? ==> BrandWordOf(row).value != "" && Trimmed(BrandWordOf(row).value)
    ensures BrandWordOf(row).None? ==> (IsBrandRow(row) <==> ToLower(Cell(row, "Is_Brand")) == "true" || Cell(row, "Is_Brand") == "1")
  {
    TrimIsTrimmed(Cell(row, "Brand_Word"));
  }

  lemma LowerTrue()
    ensures ToLower("TRUE") == "true" && ToLower("True") == "true" && ToLower("true") == "true"
  {
  }

  /** "TRUE", "True" and "true" in "Is_Brand" all mark a brand row. */
  lemma BrandFlagAnyCase(row: Record)
    requires "Is_Brand" in row && row["Is_Brand"] in {"TRUE", "True", "true"}
    ensures KeywordRowOf(row).isBrand
  {
    LowerTrue();
  }

  // ---------------------------------------------------------------------
  // Business and product rows

  function BusinessRowOf(row: Record): BusinessRow {
    BusinessRow(
      Cell(row, "ASIN"),
      Cell(row, "Brand"),
      Cell(row, "Image URL"),
      Cell(row, "Seller Country/Region"),
      ParseEuropeanNumber(Cell(row, "Ratings")),
      Cell(row, "Creation Date"),
      Cell(row, "Price €"),
      ParseEuropeanNumber(Cell(row, "ASIN Sales")),
      Cell(row, "ASIN Revenue"),
      Cell(row, "Category"),
      Cell(row, "Fulfillment"))
  }

  predicate KeepBusiness(b: BusinessRow) {
    b.asin != ""
  }

  /** `v.split(',').map(a => a.trim())`, or no ASIN at all for an empty text. */
  function VariationAsinsOf(v: string): seq<string> {
    if v == "" then [] else TrimAll(Split(v, ','))
  }

  /** There is one variation per comma plus one, each trimmed and without a comma; none for an empty text. */
  lemma VariationPieces(v: string)
    ensures v == "" ==> VariationAsinsOf(v) == []
    ensures v != "" ==> |VariationAsinsOf(v)| == Count(v, ',') + 1
    ensures forall i :: 0 <= i < |VariationAsinsOf(v)| ==>
      ',' !in VariationAsinsOf(v)[i] && Trimmed(VariationAsinsOf(v)[i]) && VariationAsinsOf(v)[i] == Trim(Split(v, ',')[i])
  {
    if v != "" {
      var p := Split(v, ',');
      var r := TrimAll(p);
      SplitPieces(v, ',');
      forall i | 0 <= i < |r| ensures ',' !in r[i] && Trimmed(r[i]) && r[i] == Trim(p[i]) {
        TrimIsTrimmed(p[i]);
      }
    }
  }

  /** Joining comma-free pieces with commas and reading them back gives the trimmed pieces. */
  lemma VariationsOfJoin(ws: seq<string>)
    requires |ws| >= 1 && forall i :: 0 <= i < |ws| ==> ',' !in ws[i]
    requires Join(ws, ',') != ""
    ensures VariationAsinsOf(Join(ws, ',')) == TrimAll(ws)
  {
    SplitJoin(ws, ',');
  }

  /** A list of trimmed, comma-free ASINs survives being written with commas and read back. */
  lemma VariationsRoundTrip(ws: seq<string>)
    requires |ws| >= 1 && forall i :: 0 <= i < |ws| ==> ',' !in ws[i] && Trimmed(ws[i])
    requires Join(ws, ',') != ""
    ensures VariationAsinsOf(Join(ws, ',')) == ws
  {
    VariationsOfJoin(ws);
    forall i | 0 <= i < |ws| ensures TrimAll(ws)[i] == ws[i] {
      TrimOfTrimmed(ws[i]);
    }
  }

  function ProductRowOf(row: Record): ProductRow {
    ProductRow(
      Cell(row, "ASIN"),
      Cell(row, "Marca"),
      Cell(row, "Immagine"),
      Cell(row, "Immagine campione"),
      ParseIntOr0(Cell(row, "Conteggio delle immagini")),
      Cell(row, "Titolo"),
      Cell(row, "Descrizione & Funzionalità: Funzione 1"),
      Cell(row, "Descrizione & Funzionalità: Funzione 2"),
      Cell(row, "Descrizione & Funzionalità: Funzione 3"),
      Cell(row, "Descrizione & Funzionalità: Funzione 4"),
      Cell(row, "Descrizione & Funzionalità: Funzione 5"),
      VariationAsinsOf(Cell(row, "ASIN di variazione")))
  }

  predicate KeepProduct(p: ProductRow) {
    p.asin != ""
  }

  // ---------------------------------------------------------------------
  // Map, then filter

  /** `rows.map(rowOf).filter(keep)` */
  function Parsed<T>(rows: seq<Record>, rowOf: Record -> T, keep: T -> bool): (r: seq<T>)
    ensures |r| <= |rows|
    ensures forall i :: 0 <= i < |r| ==> keep(r[i])
  {
    if rows == [] then []
    else
      var p := Parsed(rows[..|rows| - 1], rowOf, keep);
      var x := rowOf(rows[|rows| - 1]);
      if keep(x) then p + [x] else p
  }

  /** Parsing a concatenation parses each part in turn: the rows keep their order. */
  lemma {:induction false} ParsedAppend<T>(a: seq<Record>, b: seq<Record>, rowOf: Record -> T, keep: T -> bool)
    ensures Parsed(a + b, rowOf, keep) == Parsed(a, rowOf, keep) + Parsed(b, rowOf, keep)
  {
    if b == [] {
      assert a + b == a;
    } else {
      ParsedAppend(a, b[..|b| - 1], rowOf, keep);
      assert (a + b)[..|a + b| - 1] == a + b[..|b| - 1];
    }
  }

  /** The result holds exactly the converted rows that pass the filter. */
  lemma {:induction false} ParsedMembers<T>(rows: seq<Record>, rowOf: Record -> T, keep: T -> bool, x: T)
    ensures x in Parsed(rows, rowOf, keep) <==> keep(x) && exists i :: 0 <= i < |rows| && rowOf(rows[i]) == x
  {
    if rows != [] {
      var init := rows[..|rows| - 1];
      ParsedMembers(init, rowOf, keep, x);
      if keep(x) && exists i :: 0 <= i < |rows| && rowOf(rows[i]) == x {
        var i :| 0 <= i < |rows| && rowOf(rows[i]) == x;
        if i < |init| {
          assert init[i] == rows[i];
        }
      }
      if keep(x) && exists i :: 0 <= i < |init| && rowOf(init[i]) == x {
        var i :| 0 <= i < |init| && rowOf(init[i]) == x;
        assert rows[i] == init[i];
      }
    }
  }

  /** The keyword rows of a keyword-analysis file: every row with a phrase and a positive search volume. */
  function KeywordAnalysis(rows: seq<Record>): (r: seq<KeywordRow>)
    ensures forall i :: 0 <= i < |r| ==> r[i].phrase != "" && r[i].searchVolume > 0
  {
    Parsed(rows, KeywordRowOf, KeepKeyword)
  }

  /** The business rows of a business-data file: every row with an ASIN. */
  function BusinessData(rows: seq<Record>): (r: seq<BusinessRow>)
    ensures forall i :: 0 <= i < |r| ==> r[i].asin != ""
  {
    Parsed(rows, BusinessRowOf, KeepBusiness)
  }

  /** The product rows of a product-data file: every row with an ASIN. */
  function ProductData(rows: seq<Record>): (r: seq<ProductRow>)
    ensures forall i :: 0 <= i < |r| ==> r[i].asin != ""
  {
    Parsed(rows, ProductRowOf, KeepProduct)
  }

  /** A record yields a keyword row exactly when it has a phrase and its search volume reads as positive. */
  lemma KeywordRowKept(rows: seq<Record>, i: int)
    requires 0 <= i < |rows|
    ensures KeywordRowOf(rows[i]) in KeywordAnalysis(rows) <==>
      Cell(rows[i], "Keyword Phrase") != "" && ParseIntOr0(Cell(rows[i], "Search Volume")) > 0
  {
    ParsedMembers(rows, KeywordRowOf, KeepKeyword, KeywordRowOf(rows[i]));
  }

  /** Every business row comes from a record with a non-empty "ASIN" cell, and every such record yields one. */
  lemma BusinessRowKept(rows: seq<Record>, b: BusinessRow)
    ensures b in BusinessData(rows) <==> b.asin != "" && exists i :: 0 <= i < |rows| && BusinessRowOf(rows[i]) == b
  {
    ParsedMembers(rows, BusinessRowOf, KeepBusiness, b);
  }

  /** Every product row comes from a record with a non-empty "ASIN" cell, and every such record yields one. */
  lemma ProductRowKept(rows: seq<Record>, p: ProductRow)
    ensures p in ProductData(rows) <==> p.asin != "" && exists i :: 0 <= i < |rows| && ProductRowOf(rows[i]) == p
  {
    ParsedMembers(rows, ProductRowOf, KeepProduct, p);
  }
}
