/**
 * The revenue text of a competitor read as a number, as the analysis view
 * totals it: currency symbols and white space are dropped, the decimal
 * separator is guessed from the commas and dots present, and the result is
 * read with `parseFloat(...) || 0`.
 */
module Revenue {
  import opened Text
  import opened Numbers
  import opened Model

  /** The characters of the class `[€$£¥\s]`. */
  predicate IsCurrencyOrSpace(c: char) {
    c == '€' || c == '$' || c == '£' || c == '¥' || IsSpace(c)
  }

  function StripSymbols(s: string): string {
    RemoveAll(s, IsCurrencyOrSpace)
  }

  /** The revenue text in the form `parseFloat` reads: the symbols are dropped, then the separators resolved. */
  function NormalizeRevenue(s: string): string {
    Resolve(StripSymbols(s))
  }

  /**
   * With both separators the later one is the decimal separator; with commas only, a single comma followed by
   * at most two characters is a decimal comma and any other comma groups thousands; text without commas is left
   * alone.
   */
  function Resolve(t: string): string {
    if ',' in t && '.' in t then BothSeparators(t)
    else if ',' in t then CommasOnly(t)
    else t
  }

  function BothSeparators(t: string): string {
    if LastIndexOf(t, ',') > LastIndexOf(t, '.') then ReplaceFirst(RemoveChar(t, '.'), ',', '.')
    else RemoveChar(t, ',')
  }

  function CommasOnly(t: string): string {
    var parts := Split(t, ',');
    if |parts| == 2 && |parts[1]| <= 2 then ReplaceFirst(t, ',', '.') else RemoveChar(t, ',')
  }

  /** The amount one competitor adds to the total: nothing for an empty revenue text. */
  function RevenueOf(c: Competitor): real {
    if c.revenue == "" then 0.0 else ParseFloatOr0(NormalizeRevenue(c.revenue))
  }

  /** The revenues of `cs` added up in order. */
  function TotalRevenue(cs: seq<Competitor>): real {
    if cs == [] then 0.0 else TotalRevenue(cs[..|cs| - 1]) + RevenueOf(cs[|cs| - 1])
  }

  // ---------------------------------------------------------------------
  // Digits grouped by separators

  /** Text made of digits and separators carries no currency symbol or white space. */
  lemma NumericStripped(s: string)
    requires Numeric(s)
    ensures StripSymbols(s) == s
  {
    forall i | 0 <= i < |s| ensures !IsCurrencyOrSpace(s[i]) {
      if IsDigit(s[i]) { DigitNotSpace(s[i]); }
    }
    RemoveAllKeeps(s, IsCurrencyOrSpace);
  }

  /** The last occurrences in `j + [last] + f` when `j` holds no `last` and `f` holds neither separator. */
  lemma LastPositions(j: string, sep: char, last: char, f: string)
    requires AllDigits(f) && !IsDigit(sep) && !IsDigit(last) && sep != last
    ensures var t := j + [last] + f; LastIndexOf(t, last) >= |j| > LastIndexOf(t, sep)
  {
    var t := j + [last] + f;
    assert t[|j|] == last;
    forall i | |j| <= i < |t| ensures t[i] != sep {
      if i > |j| { assert t[i] == f[i - |j| - 1]; }
    }
  }

  /** Removing `sep` from the groups joined by `sep`, followed by `last` and `f`. */
  lemma RemoveGroupSeparator(gs: seq<string>, sep: char, last: char, f: string)
    requires DigitGroups(gs) && AllDigits(f) && !IsDigit(sep) && sep != last
    ensures RemoveChar(Join(gs, sep) + [last] + f, sep) == Concat(gs) + [last] + f
  {
    var j := Join(gs, sep);
    RemoveCharAppend(j + [last], f, sep);
    RemoveCharAppend(j, [last], sep);
    NotIn(f, sep);
    RemoveCharAbsent(f, sep);
    RemoveCharAbsent([last], sep);
    forall i | 0 <= i < |gs| ensures sep !in gs[i] {
      NotIn(gs[i], sep);
    }
    RemoveCharJoin(gs, sep);
  }

  /** The digit groups `gs` with `sep` between them, then `last` and the digits `f`. */
  lemma GroupedShape(gs: seq<string>, sep: char, last: char, f: string)
    requires DigitGroups(gs) && |gs| >= 2 && AllDigits(f)
    requires (sep == ',' && last == '.') || (sep == '.' && last == ',')
    ensures var t := Join(gs, sep) + [last] + f;
      StripSymbols(t) == t && sep in t && last in t &&
      LastIndexOf(t, last) > LastIndexOf(t, sep) &&
      RemoveChar(t, sep) == Concat(gs) + [last] + f
  {
    var j := Join(gs, sep);
    var t := j + [last] + f;
    JoinDigits(gs, sep);
    NumericAppend(j, [last]);
    NumericAppend(j + [last], f);
    NumericStripped(t);
    assert t[|j|] == last;
    assert sep in t by {
      var k :| 0 <= k < |j| && j[k] == sep;
      assert t[k] == sep;
    }
    LastPositions(j, sep, last, f);
    RemoveGroupSeparator(gs, sep, last, f);
  }

  // ---------------------------------------------------------------------
  // What the rewriting does

  /**
   * A European "1.234,56" and an American "1,234.56" with the same digit groups and decimals are rewritten
   * to the same decimal-point text "1234.56".
   */
  lemma GroupedDecimal(gs: seq<string>, f: string)
    requires DigitGroups(gs) && |gs| >= 2 && AllDigits(f)
    ensures NormalizeRevenue(Join(gs, '.') + [','] + f) == Concat(gs) + ['.'] + f
    ensures NormalizeRevenue(Join(gs, ',') + ['.'] + f) == Concat(gs) + ['.'] + f
  {
    EuropeanGrouped(gs, f);
    AmericanGrouped(gs, f);
  }

  /** "1.234,56": the dots are dropped and the comma becomes the decimal point. */
  lemma EuropeanGrouped(gs: seq<string>, f: string)
    requires DigitGroups(gs) && |gs| >= 2 && AllDigits(f)
    ensures NormalizeRevenue(Join(gs, '.') + [','] + f) == Concat(gs) + ['.'] + f
  {
    var t := Join(gs, '.') + [','] + f;
    GroupedShape(gs, '.', ',', f);
    assert NormalizeRevenue(t) == BothSeparators(t);
    assert BothSeparators(t) == ReplaceFirst(Concat(gs) + [','] + f, ',', '.');
    ConcatDigits(gs);
    NotIn(Concat(gs), ',');
    ReplaceFirstAfter(Concat(gs), ',', '.', f);
  }

  /** "1,234.56": the commas are dropped and the dot stays. */
  lemma AmericanGrouped(gs: seq<string>, f: string)
    requires DigitGroups(gs) && |gs| >= 2 && AllDigits(f)
    ensures NormalizeRevenue(Join(gs, ',') + ['.'] + f) == Concat(gs) + ['.'] + f
  {
    var t := Join(gs, ',') + ['.'] + f;
    GroupedShape(gs, ',', '.', f);
    assert NormalizeRevenue(t) == BothSeparators(t);
  }

  /** Both readings of a grouped amount with decimals give the value of its digits and decimals. */
  lemma GroupedDecimalValue(gs: seq<string>, f: string)
    requires DigitGroups(gs) && |gs| >= 2 && AllDigits(f) && |Concat(gs)| > 0
    ensures AllDigits(Concat(gs)) &&
      ParseFloatOr0(NormalizeRevenue(Join(gs, '.') + [','] + f)) == DecimalValue(Concat(gs), f) &&
      ParseFloatOr0(NormalizeRevenue(Join(gs, ',') + ['.'] + f)) == DecimalValue(Concat(gs), f)
  {
    GroupedDecimal(gs, f);
    ConcatDigits(gs);
    ParseFloatDecimal(Concat(gs), f);
  }

  lemma SingleCommaShape(a: string, f: string)
    requires AllDigits(a) && AllDigits(f)
    ensures var t := a + [','] + f;
      StripSymbols(t) == t && ',' in t && '.' !in t && ',' !in a && ',' !in f && Split(t, ',') == [a, f]
  {
    var gs := [a, f];
    var t := a + [','] + f;
    assert Join(gs, ',') == t by { assert gs[..1] == [a]; }
    assert DigitGroups(gs);
    JoinDigits(gs, ',');
    NumericStripped(t);
    assert t[|a|] == ',';
    NotIn(a, ',');
    NotIn(f, ',');
    SplitJoin(gs, ',');
  }

  /** With a single comma and no dot, at most two trailing digits are decimals and more are a thousands group. */
  lemma SingleComma(a: string, f: string)
    requires AllDigits(a) && AllDigits(f)
    ensures NormalizeRevenue(a + [','] + f) == if |f| <= 2 then a + ['.'] + f else a + f
  {
    var t := a + [','] + f;
    SingleCommaShape(a, f);
    assert NormalizeRevenue(t) == CommasOnly(t);
    var parts := Split(t, ',');
    assert |parts| == 2 && parts[1] == f;
    ReplaceFirstAfter(a, ',', '.', f);
    RemoveCharBetween(a, ',', f);
  }

  /** Three or more comma-separated groups, or two whose last has three or more digits, group thousands. */
  lemma CommaThousands(gs: seq<string>)
    requires DigitGroups(gs) && |gs| >= 2
    requires |gs| > 2 || |gs[1]| > 2
    ensures NormalizeRevenue(Join(gs, ',')) == Concat(gs)
  {
    var t := Join(gs, ',');
    JoinDigits(gs, ',');
    NumericStripped(t);
    forall i | 0 <= i < |gs| ensures ',' !in gs[i] {
      NotIn(gs[i], ',');
    }
    assert NormalizeRevenue(t) == CommasOnly(t);
    SplitJoin(gs, ',');
    RemoveCharJoin(gs, ',');
  }

  /** Text without a comma keeps its dots: "1.234" is read as one point two three four. */
  lemma DotsKept(s: string)
    requires ',' !in StripSymbols(s)
    ensures NormalizeRevenue(s) == StripSymbols(s)
  {
  }

  /** The rewritten text holds only characters of the stripped text, and a dot that replaced a comma. */
  lemma NormalizeMembers(s: string, x: char)
    requires x in NormalizeRevenue(s)
    ensures x in StripSymbols(s) || x == '.'
  {
    var t := StripSymbols(s);
    if ',' in t && '.' in t {
      assert NormalizeRevenue(s) == BothSeparators(t);
      if LastIndexOf(t, ',') > LastIndexOf(t, '.') {
        ReplaceFirstMembers(RemoveChar(t, '.'), ',', '.', x);
      }
    } else if ',' in t {
      assert NormalizeRevenue(s) == CommasOnly(t);
      var parts := Split(t, ',');
      if |parts| == 2 && |parts[1]| <= 2 {
        ReplaceFirstMembers(t, ',', '.', x);
      }
    }
  }

  /** No currency symbol or white space is left in the rewritten text. */
  lemma NoSymbolsLeft(s: string)
    ensures forall i :: 0 <= i < |NormalizeRevenue(s)| ==> !IsCurrencyOrSpace(NormalizeRevenue(s)[i])
  {
    var r := NormalizeRevenue(s);
    var t := StripSymbols(s);
    forall i | 0 <= i < |r| ensures !IsCurrencyOrSpace(r[i]) {
      NormalizeMembers(s, r[i]);
      if r[i] != '.' {
        var k :| 0 <= k < |t| && t[k] == r[i];
      }
    }
  }

  lemma {:induction false} SymbolsOnly(p: string)
    requires forall i :: 0 <= i < |p| ==> IsCurrencyOrSpace(p[i])
    ensures StripSymbols(p) == []
  {
    if p != [] {
      SymbolsOnly(p[..|p| - 1]);
    }
  }

  /** Currency symbols and white space before the amount make no difference. */
  lemma {:induction false} SymbolPrefixIgnored(p: string, s: string)
    requires forall i :: 0 <= i < |p| ==> IsCurrencyOrSpace(p[i])
    ensures NormalizeRevenue(p + s) == NormalizeRevenue(s)
  {
    RemoveAllAppend(p, s, IsCurrencyOrSpace);
    SymbolsOnly(p);
    assert StripSymbols(p + s) == StripSymbols(s);
  }

  /** The total is the sum of the amounts of the competitors, and appending one adds its amount. */
  lemma {:induction false} TotalRevenueAppend(a: seq<Competitor>, b: seq<Competitor>)
    ensures TotalRevenue(a + b) == TotalRevenue(a) + TotalRevenue(b)
  {
    if b == [] {
      assert a + b == a;
    } else {
      TotalRevenueAppend(a, b[..|b| - 1]);
      assert (a + b)[..|a + b| - 1] == a + b[..|b| - 1];
    }
  }

  /** A grouped amount with decimals behind currency symbols or white space. */
  lemma PrefixedGrouped(p: string, gs: seq<string>, f: string, s: string, sep: char, last: char)
    requires forall i :: 0 <= i < |p| ==> IsCurrencyOrSpace(p[i])
    requires DigitGroups(gs) && |gs| >= 2 && AllDigits(f)
    requires (sep == '.' && last == ',') || (sep == ',' && last == '.')
    requires s == p + (Join(gs, sep) + [last] + f)
    ensures NormalizeRevenue(s) == Concat(gs) + ['.'] + f
  {
    GroupedDecimal(gs, f);
    SymbolPrefixIgnored(p, Join(gs, sep) + [last] + f);
  }

  lemma ExampleGroups()
    ensures DigitGroups(["1", "234"]) && Join(["1", "234"], '.') == "1.234" && Join(["1", "234"], ',') == "1,234"
    ensures Concat(["1", "234"]) == "1234"
  {
    var gs := ["1", "234"];
    assert gs[..1] == ["1"];
    assert Concat(["1"]) == "" + "1";
  }

  /** One currency symbol before "1", a group separator, "234", the decimal separator and "56". */
  lemma SymbolExample(c: char, sep: char, last: char)
    requires IsCurrencyOrSpace(c)
    requires (sep == '.' && last == ',') || (sep == ',' && last == '.')
    ensures NormalizeRevenue([c] + "1" + [sep] + "234" + [last] + "56") == "1234.56"
  {
    ExampleGroups();
    var gs := ["1", "234"];
    assert Join(gs, sep) == "1" + [sep] + "234";
    assert [c] + "1" + [sep] + "234" + [last] + "56" == [c] + (Join(gs, sep) + [last] + "56");
    PrefixedGrouped([c], gs, "56", [c] + "1" + [sep] + "234" + [last] + "56", sep, last);
  }

  /** "€1.234,56" is rewritten to "1234.56". */
  lemma EuroExample()
    ensures NormalizeRevenue("€1.234,56") == "1234.56"
  {
    SymbolExample('€', '.', ',');
    assert "€1.234,56" == ['€'] + "1" + ['.'] + "234" + [','] + "56";
  }

  /** "$1,234.56" is rewritten to "1234.56". */
  lemma DollarExample()
    ensures NormalizeRevenue("$1,234.56") == "1234.56"
  {
    SymbolExample('$', ',', '.');
    assert "$1,234.56" == ['$'] + "1" + [','] + "234" + ['.'] + "56";
  }

  lemma ExampleDigits()
    ensures AllDigits("1234") && DigitsValue("1234") == 1234
    ensures AllDigits("56") && DigitsValue("56") == 56
  {
    assert "1234"[..3] == "123";
    assert "123"[..2] == "12";
    assert "12"[..1] == "1";
    assert "1"[..0] == "";
    assert "56"[..1] == "5";
    assert "5"[..0] == "";
  }

  lemma DecimalText(d1: string, d2: string, s: string)
    requires AllDigits(d1) && AllDigits(d2) && |d1| > 0 && s == d1 + "." + d2
    ensures ParseFloatOr0(s) == DecimalValue(d1, d2)
  {
    ParseFloatDecimal(d1, d2);
  }

  lemma ExampleDecimal()
    ensures DecimalValue("1234", "56") == 1234.56
  {
    ExampleDigits();
    assert Pow10(2) == 100;
  }

  /** "1234.56" is read as 1234.56. */
  lemma ExampleParse()
    ensures ParseFloatOr0("1234.56") == 1234.56
  {
    ExampleDigits();
    DecimalText("1234", "56", "1234.56");
    ExampleDecimal();
  }

  /** A competitor with revenue "€1.234,56" adds 1234.56 to the total, one without revenue text nothing. */
  lemma ExampleValue(c: Competitor)
    ensures c.revenue == "€1.234,56" ==> RevenueOf(c) == 1234.56
    ensures c.revenue == "" ==> RevenueOf(c) == 0.0
  {
    if c.revenue == "€1.234,56" {
      EuroExample();
      ExampleParse();
      assert RevenueOf(c) == ParseFloatOr0(NormalizeRevenue("€1.234,56"));
    }
  }
}
