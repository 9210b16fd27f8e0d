/**
 * The second, self-contained engine of the web front end
 * (`ServerDataProcessor`): its own CSV line splitter and row parsers, the
 * combination of the three files into an analysis, keyword deletion by
 * flag only, and the recalculation that follows it. Its tiers are 40 / 25 /
 * 10 and its competitors are the ASINs that appear as ranking columns.
 *
 * The analyses are kept in a map from analysis id to analysis data; the
 * in-place updates of the stored objects are modelled as replacing the
 * stored value.
 */
module ServerDataProcessor {
  import opened Wrappers
  import opened Text
  import opened Numbers
  import Model
  import Metrics
  import Initial

  // ---------------------------------------------------------------------
  // Splitting one CSV line

  /** What `parseCSVLine` holds after reading a prefix of the line. */
  datatype LineScan = LineScan(values: seq<string>, current: string, inQuotes: bool)

  /** Reading one character: a quote toggles quoting, a comma outside quotes ends a field, anything else is kept. */
  function ScanStep(st: LineScan, ch: char): LineScan {
    if ch == '"' then st.(inQuotes := !st.inQuotes)
    else if ch == ',' && !st.inQuotes then LineScan(st.values + [Trim(st.current)], "", st.inQuotes)
    else st.(current := st.current + [ch])
  }

  function Scan(line: string): LineScan {
    if line == [] then LineScan([], "", false) else ScanStep(Scan(line[..|line| - 1]), line[|line| - 1])
  }

  /** The fields of a line: the fields ended by a comma, then the last one. */
  function CsvFields(line: string): seq<string> {
    var st := Scan(line);
    st.values + [Trim(st.current)]
  }

  /** `parseCSVLine` */
  method ParseCsvLine(line: string) returns (values: seq<string>)
    ensures values == CsvFields(line)
  {
    values := [];
    var current := "";
    var inQuotes := false;
    for i := 0 to |line|
      invariant LineScan(values, current, inQuotes) == Scan(line[..i])
    {
      assert line[..i + 1][..i] == line[..i];
      var ch := line[i];
      if ch == '"' {
        inQuotes := !inQuotes;
      } else if ch == ',' && !inQuotes {
        values := values + [Trim(current)];
        current := "";
      } else {
        current := current + [ch];
      }
    }
    assert line[..|line|] == line;
    values := values + [Trim(current)];
  }

  /** The commas of `line` that stand outside quotes: those preceded by an even number of quote characters. */
  function FieldSeparators(line: string): nat {
    if line == [] then 0
    else
      var init := line[..|line| - 1];
      FieldSeparators(init) + (if line[|line| - 1] == ',' && Count(init, '"') % 2 == 0 then 1 else 0)
  }

  /** After a prefix, the splitter is inside quotes exactly when it has read an odd number of quote characters. */
  lemma {:induction false} ScanQuotes(line: string)
    ensures Scan(line).inQuotes <==> Count(line, '"') % 2 == 1
    ensures |Scan(line).values| == FieldSeparators(line)
  {
    if line != [] {
      var init := line[..|line| - 1];
      var c := line[|line| - 1];
      ScanQuotes(init);
      var st := Scan(init);
      var n := Count(init, '"');
      assert Scan(line) == ScanStep(st, c);
      if c == '"' {
        assert Count(line, '"') == n + 1;
        assert Scan(line) == st.(inQuotes := !st.inQuotes);
      } else if c == ',' {
        assert Count(line, '"') == n;
        assert FieldSeparators(line) == FieldSeparators(init) + (if n % 2 == 0 then 1 else 0);
      } else {
        assert Count(line, '"') == n;
        assert Scan(line) == st.(current := st.current + [c]);
      }
    }
  }

  /** A line has one field more than it has commas outside quotes. */
  lemma FieldCount(line: string)
    ensures |CsvFields(line)| == FieldSeparators(line) + 1
  {
    ScanQuotes(line);
  }

  /** A scan state whose fields, finished or not, hold no quote character, and whose finished fields are trimmed. */
  predicate CleanScan(st: LineScan) {
    '"' !in st.current && forall i :: 0 <= i < |st.values| ==> '"' !in st.values[i] && Trimmed(st.values[i])
  }

  /** Reading one character keeps a scan state clean. */
  lemma ScanStepClean(st: LineScan, c: char)
    requires CleanScan(st)
    ensures CleanScan(ScanStep(st, c))
  {
    if c == ',' && !st.inQuotes {
      TrimIsTrimmed(st.current);
      var vs := st.values + [Trim(st.current)];
      assert forall i :: 0 <= i < |vs| ==> '"' !in vs[i] && Trimmed(vs[i]);
    } else if c != '"' {
      assert '"' !in st.current + [c];
    }
  }

  /** No quote character reaches a field, and every field is trimmed. */
  lemma {:induction false} ScanFields(line: string)
    ensures '"' !in Scan(line).current
    ensures forall i :: 0 <= i < |Scan(line).values| ==> '"' !in Scan(line).values[i] && Trimmed(Scan(line).values[i])
  {
    if line != [] {
      var init := line[..|line| - 1];
      ScanFields(init);
      ScanStepClean(Scan(init), line[|line| - 1]);
    }
  }

  lemma FieldsClean(line: string)
    ensures forall i :: 0 <= i < |CsvFields(line)| ==> '"' !in CsvFields(line)[i] && Trimmed(CsvFields(line)[i])
  {
    var st := Scan(line);
    ScanFields(line);
    TrimIsTrimmed(st.current);
  }

  /** The splitter on a line without quotes: the pieces of `split(',')` before the last, trimmed, and the last as read so far. */
  predicate ScanIsSplit(line: string) {
    var p := Split(line, ',');
    !Scan(line).inQuotes && Scan(line).values == TrimAll(p[..|p| - 1]) && Scan(line).current == p[|p| - 1]
  }

  /** On a line without quotes the splitter follows `split(',')`. */
  lemma {:induction false} ScanPlain(line: string)
    requires '"' !in line
    ensures ScanIsSplit(line)
  {
    if line != [] {
      var init := line[..|line| - 1];
      var c := line[|line| - 1];
      NotInInit(line, '"');
      ScanPlain(init);
      ScanPlainStep(init, c);
    }
  }

  lemma ScanPlainStep(init: string, c: char)
    requires c != '"' && ScanIsSplit(init)
    ensures ScanIsSplit(init + [c])
  {
    ScanSnoc(init, c);
    SplitSnoc(init, c, ',');
    var q := Split(init, ',');
    if c == ',' {
      TrimAllSnoc(q);
    } else {
      ButLastOfLast(q, [c]);
    }
  }

  /** Trimming all pieces but the new empty last one is trimming all the old pieces. */
  lemma TrimAllSnoc(q: seq<string>)
    requires |q| >= 1
    ensures var p := q + [""]; p[..|p| - 1] == q && p[|p| - 1] == ""
    ensures TrimAll(q) == TrimAll(q[..|q| - 1]) + [Trim(q[|q| - 1])]
  {
    ButLast(q);
    TrimAllSnocAny(q[..|q| - 1], q[|q| - 1]);
  }

  /** Extending the last piece leaves the pieces before it alone. */
  lemma ButLastOfLast(q: seq<string>, w: string)
    requires |q| >= 1
    ensures var p := q[..|q| - 1] + [q[|q| - 1] + w]; p[..|p| - 1] == q[..|q| - 1] && p[|p| - 1] == q[|q| - 1] + w
  {
  }

  /** A line without quotes splits like `line.split(',').map(v => v.trim())`. */
  lemma PlainLine(line: string)
    requires '"' !in line
    ensures CsvFields(line) == TrimAll(Split(line, ','))
  {
    ScanPlain(line);
    FieldsOfSplit(line);
  }

  lemma FieldsOfSplit(line: string)
    requires ScanIsSplit(line)
    ensures CsvFields(line) == TrimAll(Split(line, ','))
  {
    TrimAllSnoc(Split(line, ','));
  }

  lemma TrimAllSnocAny(q: seq<string>, w: string)
    ensures TrimAll(q + [w]) == TrimAll(q) + [Trim(w)]
  {
    var a := TrimAll(q + [w]);
    var b := TrimAll(q) + [Trim(w)];
    forall i | 0 <= i < |a| ensures a[i] == b[i] {
      if i < |q| {
        assert (q + [w])[i] == q[i];
      }
    }
  }

  /** Inside quotes, commas and all other characters but the quote are kept in the current field. */
  lemma {:induction false} InsideQuotes(s: string, t: string)
    requires Scan(s).inQuotes && '"' !in t
    ensures Scan(s + t) == Scan(s).(current := Scan(s).current + t)
  {
    if t == [] {
      assert s + t == s;
    } else {
      var t' := t[..|t| - 1];
      assert '"' !in t' by {
        forall i | 0 <= i < |t'| ensures t'[i] != '"' { assert t'[i] == t[i]; }
      }
      InsideQuotes(s, t');
      assert (s + t)[..|s + t| - 1] == s + t';
      assert Scan(s).current + t' + [t[|t| - 1]] == Scan(s).current + t;
    }
  }

  /** Outside quotes, characters other than the quote and the comma are kept in the current field. */
  lemma {:induction false} OutsideQuotes(s: string, t: string)
    requires !Scan(s).inQuotes && '"' !in t && ',' !in t
    ensures Scan(s + t) == Scan(s).(current := Scan(s).current + t)
  {
    if t == [] {
      assert s + t == s;
    } else {
      var t' := t[..|t| - 1];
      assert '"' !in t' && ',' !in t' by {
        forall i | 0 <= i < |t'| ensures t'[i] != '"' && t'[i] != ',' { assert t'[i] == t[i]; }
      }
      OutsideQuotes(s, t');
      assert (s + t)[..|s + t| - 1] == s + t';
      assert Scan(s).current + t' + [t[|t| - 1]] == Scan(s).current + t;
    }
  }

  lemma ScanSnoc(s: string, c: char)
    ensures Scan(s + [c]) == ScanStep(Scan(s), c)
  {
    assert (s + [c])[..|s|] == s;
  }

  /** A plain first field followed by a comma. */
  lemma PlainFirst(a: string)
    requires '"' !in a && ',' !in a
    ensures Scan(a + [',']) == LineScan([Trim(a)], "", false)
  {
    var s0: string := [];
    OutsideQuotes(s0, a);
    assert s0 + a == a;
    var st := Scan(a);
    assert st == LineScan([], a, false);
    ScanSnoc(a, ',');
    assert Scan(a + [',']) == ScanStep(st, ',');
    assert [] + [Trim(a)] == [Trim(a)];
  }

  /** A quoted field followed by a comma, read after a field has just ended. */
  lemma QuotedNext(s: string, vs: seq<string>, q: string)
    requires Scan(s) == LineScan(vs, "", false) && '"' !in q
    ensures Scan(s + ['"'] + q + ['"'] + [',']) == LineScan(vs + [Trim(q)], "", false)
  {
    var s2 := s + ['"'];
    ScanSnoc(s, '"');
    InsideQuotes(s2, q);
    var s3 := s2 + q;
    assert Scan(s3) == LineScan(vs, q, true);
    var s4 := s3 + ['"'];
    ScanSnoc(s3, '"');
    ScanSnoc(s4, ',');
  }

  /** A plain last field, read after a field has just ended. */
  lemma PlainLast(s: string, vs: seq<string>, d: string)
    requires Scan(s) == LineScan(vs, "", false) && '"' !in d && ',' !in d
    ensures CsvFields(s + d) == vs + [Trim(d)]
  {
    assert Scan(s + d) == LineScan(vs, d, false) by {
      OutsideQuotes(s, d);
      NilAppend(d);
    }
  }

  lemma Three(x: string, y: string, z: string)
    ensures [x] + [y] + [z] == [x, y, z]
  {
  }

  /** A quoted middle field keeps its commas: `a,"q",d` has the three fields a, q and d, each trimmed. */
  lemma QuotedField(a: string, q: string, d: string)
    requires '"' !in a && ',' !in a && '"' !in q && '"' !in d && ',' !in d
    ensures CsvFields(a + [','] + ['"'] + q + ['"'] + [','] + d) == [Trim(a), Trim(q), Trim(d)]
  {
    var s1 := a + [','];
    PlainFirst(a);
    var s5 := s1 + ['"'] + q + ['"'] + [','];
    QuotedNext(s1, [Trim(a)], q);
    PlainLast(s5, [Trim(a)] + [Trim(q)], d);
    Three(Trim(a), Trim(q), Trim(d));
  }

  // ---------------------------------------------------------------------
  // Row parsers

  /** A business-data row of the front end; `|| undefined` becomes None. */
  datatype BusinessRow = BusinessRow(
    asin: string,
    brand: string,
    imageUrl: Option<string>,
    sellerCountry: Option<string>,
    ratings: Option<real>,
    creationDate: Option<string>,
    price: Option<string>,
    sales: Option<int>,
    revenue: Option<string>,
    category: Option<string>,
    fulfillment: Option<string>)

  /** A product-data row of the front end. */
  datatype ProductRow = ProductRow(asin: string, brand: string, imageUrl: Option<string>, asinVariation: Option<string>)

  const KeywordFileError := "Keyword file must have at least header and one data row"
  const BusinessFileError := "Business data file must have at least header and one data row"
  const ProductFileError := "Product data file must have at least header and one data row"

  /** The lines of `ls` that hold more than white space, in order. */
  function NonBlank(ls: seq<string>): (r: seq<string>)
    ensures forall i :: 0 <= i < |r| ==> Trim(r[i]) != ""
  {
    if ls == [] then []
    else
      var init := NonBlank(ls[..|ls| - 1]);
      if Trim(ls[|ls| - 1]) != "" then init + [ls[|ls| - 1]] else init
  }

  /** `content.split('\n').filter(line => line.trim())` */
  function NonBlankLines(content: string): seq<string> {
    NonBlank(Split(content, '\n'))
  }

  /** The header line's names: split on commas, trimmed, quote characters removed. */
  function HeaderNames(line: string): (r: seq<string>)
    ensures |r| == Count(line, ',') + 1
  {
    var p := Split(line, ',');
    seq(|p|, i requires 0 <= i < |p| => RemoveChar(Trim(p[i]), '"'))
  }

  /** `values[i]`, with a missing value read as the empty text. */
  function Field(values: seq<string>, i: nat): string {
    if i < |values| then values[i] else ""
  }

  /** `s || undefined` */
  function NonEmpty(s: string): Option<string> {
    if s == "" then None else Some(s)
  }

  /** `parseFloat(s) || undefined`: nothing for NaN and for 0. */
  function FloatOrNone(s: string): Option<real> {
    var x := ParseFloat(s);
    if x.None? || x.value == 0.0 then None else x
  }

  /** `parseInt(s) || undefined`: nothing for NaN and for 0. */
  function IntOrNone(s: string): Option<int> {
    var x := ParseInt(s);
    if x.None? || x.value == 0 then None else x
  }

  /** The ranking a header contributes: a header starting with "B0" over a non-empty value that reads as a positive integer. */
  function CellRanking(header: string, v: string): (r: Option<int>)
    ensures r.Some? ==> r.value > 0 && StartsWith(header, "B0")
  {
    if StartsWith(header, "B0") && v != "" && ParseInt(v).Some? && ParseInt(v).value > 0 then Some(ParseInt(v).value) else None
  }

  /** The ranking each header contributes, in header order. */
  function CellRankings(headers: seq<string>, values: seq<string>): (r: seq<Option<int>>)
    ensures |r| == |headers|
  {
    seq(|headers|, i requires 0 <= i < |headers| => CellRanking(headers[i], Field(values, i)))
  }

  /** The rankings of the first `n` headers, a later equal header overwriting an earlier one. */
  function HeaderRankings(headers: seq<string>, cells: seq<Option<int>>, n: nat): map<string, int>
    requires n <= |headers| && n <= |cells|
  {
    if n == 0 then map[]
    else
      var m := HeaderRankings(headers, cells, n - 1);
      if cells[n - 1].Some? then m[headers[n - 1] := cells[n - 1].value] else m
  }

  /** The rankings of a keyword row: ASIN header -> ranking. */
  function RowRankingsOf(headers: seq<string>, values: seq<string>): map<string, int> {
    HeaderRankings(headers, CellRankings(headers, values), |headers|)
  }

  /** The `headers.forEach` that fills the rankings of one row. */
  method RowRankings(headers: seq<string>, values: seq<string>) returns (rankings: map<string, int>)
    ensures rankings == RowRankingsOf(headers, values)
  {
    ghost var cells := CellRankings(headers, values);
    rankings := map[];
    for index := 0 to |headers|
      invariant rankings == HeaderRankings(headers, cells, index)
    {
      var header := headers[index];
      RankingsNext(headers, cells, index);
      assert cells[index] == CellRanking(header, Field(values, index));
      if StartsWith(header, "B0") && Field(values, index) != "" {
        var ranking := ParseInt(Field(values, index));
        if ranking.Some? && ranking.value > 0 {
          rankings := rankings[header := ranking.value];
        }
      }
    }
  }

  lemma RankingsNext(headers: seq<string>, cells: seq<Option<int>>, index: nat)
    requires index < |headers| && index < |cells|
    ensures HeaderRankings(headers, cells, index + 1) ==
      if cells[index].Some? then HeaderRankings(headers, cells, index)[headers[index] := cells[index].value]
      else HeaderRankings(headers, cells, index)
  {
  }

  /** Every ranking among the first `n` headers is the ranking of a header with that name. */
  predicate RankingsSound(headers: seq<string>, cells: seq<Option<int>>, n: nat)
    requires n <= |headers| && n <= |cells|
  {
    forall h :: h in HeaderRankings(headers, cells, n) ==>
      exists i :: 0 <= i < n && headers[i] == h && cells[i] == Some(HeaderRankings(headers, cells, n)[h])
  }

  lemma {:induction false} RankingsSoundUpTo(headers: seq<string>, cells: seq<Option<int>>, n: nat)
    requires n <= |headers| && n <= |cells|
    ensures RankingsSound(headers, cells, n)
  {
    if n > 0 {
      RankingsSoundUpTo(headers, cells, n - 1);
      RankingsSoundStep(headers, cells, n);
    }
  }

  lemma RankingsSoundStep(headers: seq<string>, cells: seq<Option<int>>, n: nat)
    requires 0 < n <= |headers| && n <= |cells| && RankingsSound(headers, cells, n - 1)
    ensures RankingsSound(headers, cells, n)
  {
    var m := HeaderRankings(headers, cells, n - 1);
    var r := HeaderRankings(headers, cells, n);
    forall h | h in r
      ensures exists i :: 0 <= i < n && headers[i] == h && cells[i] == Some(r[h])
    {
      if cells[n - 1].Some? && h == headers[n - 1] {
        assert cells[n - 1] == Some(r[h]);
      } else {
        assert h in m && r[h] == m[h];
        var i :| 0 <= i < n - 1 && headers[i] == h && cells[i] == Some(m[h]);
      }
    }
  }

  /** Every ranking is positive, sits under a "B0" header, and is the value read under a header with that name. */
  lemma RankingsPositive(headers: seq<string>, values: seq<string>)
    ensures var m := RowRankingsOf(headers, values);
      forall h :: h in m ==> (m[h] > 0 && StartsWith(h, "B0") &&
        exists i :: 0 <= i < |headers| && headers[i] == h && CellRanking(headers[i], Field(values, i)) == Some(m[h]))
  {
    var cells := CellRankings(headers, values);
    var m := RowRankingsOf(headers, values);
    RankingsSoundUpTo(headers, cells, |headers|);
    forall h | h in m
      ensures m[h] > 0 && StartsWith(h, "B0") &&
        exists i :: 0 <= i < |headers| && headers[i] == h && CellRanking(headers[i], Field(values, i)) == Some(m[h])
    {
      var i :| 0 <= i < |headers| && headers[i] == h && cells[i] == Some(m[h]);
      assert CellRanking(headers[i], Field(values, i)) == Some(m[h]);
    }
  }

  /** A "B0" header whose value reads as a positive integer, and that no later header repeats, gets that ranking. */
  lemma RankingKept(headers: seq<string>, values: seq<string>, i: nat)
    requires i < |headers| && CellRanking(headers[i], Field(values, i)).Some?
    requires forall j :: i < j < |headers| ==> headers[j] != headers[i]
    ensures headers[i] in RowRankingsOf(headers, values)
    ensures RowRankingsOf(headers, values)[headers[i]] == CellRanking(headers[i], Field(values, i)).value
  {
    var cells := CellRankings(headers, values);
    assert cells[i] == CellRanking(headers[i], Field(values, i));
    RankingSet(headers, cells, i);
    RankingUntouched(headers, cells, |headers|, i);
  }

  /** A ranking set at header `i` is not changed by later headers with other names. */
  lemma {:induction false} RankingUntouched(headers: seq<string>, cells: seq<Option<int>>, n: nat, i: nat)
    requires i < n <= |headers| && n <= |cells| && headers[i] in HeaderRankings(headers, cells, i + 1)
    requires forall j :: i < j < n ==> headers[j] != headers[i]
    ensures headers[i] in HeaderRankings(headers, cells, n)
    ensures HeaderRankings(headers, cells, n)[headers[i]] == HeaderRankings(headers, cells, i + 1)[headers[i]]
  {
    if n - 1 != i {
      RankingUntouched(headers, cells, n - 1, i);
      var c := cells[n - 1];
      UpdateElsewhere(HeaderRankings(headers, cells, n - 1), headers[n - 1], if c.Some? then c.value else 0, c.Some?, headers[i]);
    }
  }

  /** A header with a ranking puts it in the rankings read up to it. */
  lemma RankingSet(headers: seq<string>, cells: seq<Option<int>>, i: nat)
    requires i < |headers| && i < |cells| && cells[i].Some?
    ensures headers[i] in HeaderRankings(headers, cells, i + 1)
    ensures HeaderRankings(headers, cells, i + 1)[headers[i]] == cells[i].value
  {
  }

  /** An entry survives an optional update at another key. */
  lemma UpdateElsewhere(m: map<string, int>, key: string, x: int, update: bool, k: string)
    requires k in m && k != key
    ensures var r := if update then m[key := x] else m; k in r && r[k] == m[k]
  {
  }

  function KeywordRowOf(headers: seq<string>, values: seq<string>): Model.KeywordRow {
    Model.KeywordRow(
      Field(values, 0),
      ParseIntOr0(Field(values, 1)),
      ParseFloatOr0(Field(values, 2)),
      ToLower(Field(values, 3)) == "true" || Field(values, 3) == "1",
      NonEmpty(Field(values, 4)),
      RowRankingsOf(headers, values))
  }

  /** Only the fourth value decides whether a row is a brand row; the brand word in the fifth does not. */
  lemma BrandFlagOnly(headers: seq<string>, values: seq<string>, w: string)
    requires |values| > 4
    ensures KeywordRowOf(headers, values[4 := w]).isBrand == KeywordRowOf(headers, values).isBrand
    ensures KeywordRowOf(headers, values).isBrand <==> ToLower(values[3]) == "true" || values[3] == "1"
  {
    assert Field(values[4 := w], 3) == Field(values, 3);
  }

  function BusinessRowOf(values: seq<string>): BusinessRow {
    BusinessRow(
      Field(values, 0),
      Field(values, 1),
      NonEmpty(Field(values, 2)),
      NonEmpty(Field(values, 3)),
      FloatOrNone(Field(values, 4)),
      NonEmpty(Field(values, 5)),
      NonEmpty(Field(values, 6)),
      IntOrNone(Field(values, 7)),
      NonEmpty(Field(values, 8)),
      NonEmpty(Field(values, 9)),
      NonEmpty(Field(values, 10)))
  }

  function ProductRowOf(values: seq<string>): ProductRow {
    ProductRow(Field(values, 0), Field(values, 1), NonEmpty(Field(values, 2)), NonEmpty(Field(values, 3)))
  }

  /** The rows of the data lines that have at least `minFields` values, in order. */
  function RowsOf<T>(lines: seq<string>, minFields: nat, rowOf: seq<string> -> T): (r: seq<T>)
    ensures |r| <= |lines|
  {
    if lines == [] then []
    else
      var init := RowsOf(lines[..|lines| - 1], minFields, rowOf);
      var values := CsvFields(lines[|lines| - 1]);
      if |values| < minFields then init else init + [rowOf(values)]
  }

  /** A line gives a row exactly when it has enough values; the rows keep the order of the lines. */
  lemma {:induction false} RowsOfAppend<T>(a: seq<string>, b: seq<string>, minFields: nat, rowOf: seq<string> -> T)
    ensures RowsOf(a + b, minFields, rowOf) == RowsOf(a, minFields, rowOf) + RowsOf(b, minFields, rowOf)
  {
    if b == [] {
      AppendNil(a);
      AppendNil(RowsOf(a, minFields, rowOf));
    } else {
      var b' := b[..|b| - 1];
      var values := CsvFields(b[|b| - 1]);
      RowsOfAppend(a, b', minFields, rowOf);
      DropLast(a, b);
      Assoc(RowsOf(a, minFields, rowOf), RowsOf(b', minFields, rowOf), if |values| < minFields then [] else [rowOf(values)]);
    }
  }

  /** One line gives one row when it has enough values and none otherwise. */
  lemma RowsOfOne<T>(line: string, minFields: nat, rowOf: seq<string> -> T)
    ensures RowsOf([line], minFields, rowOf) ==
      if |CsvFields(line)| < minFields then [] else [rowOf(CsvFields(line))]
  {
    assert [line][..0] == [];
  }

  /** A line with at most one field per header fewer than needed is skipped. */
  lemma {:induction false} RowsOfAllShort<T>(lines: seq<string>, minFields: nat, rowOf: seq<string> -> T)
    requires forall i :: 0 <= i < |lines| ==> |CsvFields(lines[i])| < minFields
    ensures RowsOf(lines, minFields, rowOf) == []
  {
    if lines != [] {
      RowsOfAllShort(lines[..|lines| - 1], minFields, rowOf);
    }
  }

  /** The rows of the data lines up to `i`, one line further. */
  lemma RowsOfStep<T>(lines: seq<string>, i: nat, minFields: nat, rowOf: seq<string> -> T)
    requires 1 <= i < |lines|
    ensures RowsOf(lines[1..i + 1], minFields, rowOf) ==
      RowsOf(lines[1..i], minFields, rowOf) +
      (if |CsvFields(lines[i])| < minFields then [] else [rowOf(CsvFields(lines[i]))])
  {
    assert lines[1..i + 1] == lines[1..i] + [lines[i]];
    RowsOfAppend(lines[1..i], [lines[i]], minFields, rowOf);
    RowsOfOne(lines[i], minFields, rowOf);
  }

  /** `parseKeywordAnalysis`: one row per data line with at least as many values as the header has names. */
  function KeywordAnalysis(content: string): Result<seq<Model.KeywordRow>, string> {
    var lines := NonBlankLines(content);
    if |lines| < 2 then Failure(KeywordFileError)
    else
      var headers := HeaderNames(lines[0]);
      Success(RowsOf(lines[1..], |headers|, values => KeywordRowOf(headers, values)))
  }

  /** `parseBusinessData`: one row per data line with at least as many values as the header has names. */
  function BusinessData(content: string): Result<seq<BusinessRow>, string> {
    var lines := NonBlankLines(content);
    if |lines| < 2 then Failure(BusinessFileError)
    else Success(RowsOf(lines[1..], |HeaderNames(lines[0])|, BusinessRowOf))
  }

  /** `parseProductData`: one row per data line with at least two values; the header line is not read. */
  function ProductData(content: string): Result<seq<ProductRow>, string> {
    var lines := NonBlankLines(content);
    if |lines| < 2 then Failure(ProductFileError)
    else Success(RowsOf(lines[1..], 2, ProductRowOf))
  }

  method ParseKeywordAnalysis(content: string) returns (r: Result<seq<Model.KeywordRow>, string>)
    ensures r == KeywordAnalysis(content)
  {
    var lines := NonBlankLines(content);
    if |lines| < 2 {
      return Failure(KeywordFileError);
    }
    var headers := HeaderNames(lines[0]);
    var data := KeywordRows(lines, headers);
    return Success(data);
  }

  /** The loop of `parseKeywordAnalysis` over the data lines. */
  method KeywordRows(lines: seq<string>, headers: seq<string>) returns (data: seq<Model.KeywordRow>)
    requires |lines| >= 1
    ensures data == RowsOf(lines[1..], |headers|, values => KeywordRowOf(headers, values))
  {
    data := [];
    for i := 1 to |lines|
      invariant data == RowsOf(lines[1..i], |headers|, values => KeywordRowOf(headers, values))
    {
      RowsOfStep(lines, i, |headers|, values => KeywordRowOf(headers, values));
      var values := ParseCsvLine(lines[i]);
      if |values| < |headers| {
        continue;
      }
      var rankings := RowRankings(headers, values);
      var row := Model.KeywordRow(
        Field(values, 0),
        ParseIntOr0(Field(values, 1)),
        ParseFloatOr0(Field(values, 2)),
        ToLower(Field(values, 3)) == "true" || Field(values, 3) == "1",
        NonEmpty(Field(values, 4)),
        rankings);
      data := data + [row];
    }
    assert lines[1..|lines|] == lines[1..];
  }

  method ParseBusinessData(content: string) returns (r: Result<seq<BusinessRow>, string>)
    ensures r == BusinessData(content)
  {
    var lines := NonBlankLines(content);
    if |lines| < 2 {
      return Failure(BusinessFileError);
    }
    var headers := HeaderNames(lines[0]);
    var data := BusinessRows(lines, |headers|);
    return Success(data);
  }

  /** The loop of `parseBusinessData` over the data lines. */
  method BusinessRows(lines: seq<string>, headerCount: nat) returns (data: seq<BusinessRow>)
    requires |lines| >= 1
    ensures data == RowsOf(lines[1..], headerCount, BusinessRowOf)
  {
    data := [];
    for i := 1 to |lines|
      invariant data == RowsOf(lines[1..i], headerCount, BusinessRowOf)
    {
      RowsOfStep(lines, i, headerCount, BusinessRowOf);
      var values := ParseCsvLine(lines[i]);
      if |values| < headerCount {
        continue;
      }
      data := data + [BusinessRowOf(values)];
    }
    assert lines[1..|lines|] == lines[1..];
  }

  method ParseProductData(content: string) returns (r: Result<seq<ProductRow>, string>)
    ensures r == ProductData(content)
  {
    var lines := NonBlankLines(content);
    if |lines| < 2 {
      return Failure(ProductFileError);
    }
    var data := ProductRows(lines);
    return Success(data);
  }

  /** The loop of `parseProductData` over the data lines. */
  method ProductRows(lines: seq<string>) returns (data: seq<ProductRow>)
    requires |lines| >= 1
    ensures data == RowsOf(lines[1..], 2, ProductRowOf)
  {
    data := [];
    for i := 1 to |lines|
      invariant data == RowsOf(lines[1..i], 2, ProductRowOf)
    {
      RowsOfStep(lines, i, 2, ProductRowOf);
      var values := ParseCsvLine(lines[i]);
      if |values| < 2 {
        continue;
      }
      data := data + [ProductRowOf(values)];
    }
    assert lines[1..|lines|] == lines[1..];
  }

  /** Each parser fails, with its own message, exactly when the file has fewer than two non-blank lines. */
  lemma TooFewLines(content: string)
    ensures KeywordAnalysis(content).Failure? <==> |NonBlankLines(content)| < 2
    ensures BusinessData(content).Failure? <==> |NonBlankLines(content)| < 2
    ensures ProductData(content).Failure? <==> |NonBlankLines(content)| < 2
    ensures KeywordAnalysis(content).Failure? ==> KeywordAnalysis(content).error == KeywordFileError
  {
  }

  /** Blank lines are dropped: a file of white space alone has no line at all. */
  lemma {:induction false} BlankLinesDropped(ls: seq<string>)
    requires forall i :: 0 <= i < |ls| ==> Trim(ls[i]) == ""
    ensures NonBlank(ls) == []
  {
    if ls != [] {
      BlankLinesDropped(ls[..|ls| - 1]);
    }
  }

  // ---------------------------------------------------------------------
  // Combining the three files

  /** The tier of a strength percentage on this engine's scale: 40, 25 and 10 are the inclusive lower bounds. */
  function ClientLevel(p: real): (l: Model.StrengthLevel)
    ensures l == Model.MoltoForte <==> p >= 40.0
    ensures l == Model.Forte <==> 25.0 <= p < 40.0
    ensures l == Model.Medio <==> 10.0 <= p < 25.0
    ensures l == Model.Debole <==> p < 10.0
  {
    if p >= 40.0 then Model.MoltoForte
    else if p >= 25.0 then Model.Forte
    else if p >= 10.0 then Model.Medio
    else Model.Debole
  }

  /** A competitor scored against `keywords`: its share, in percent of `total`, of the volume of the keywords it ranks in the top 30 for. */
  function Score(c: Model.Competitor, keywords: seq<Model.Keyword>, total: int): Model.Competitor {
    var p := Metrics.Percent(Metrics.Top30SV(keywords, c.asin), total);
    c.(strengthPercentage := p, strengthLevel := ClientLevel(p))
  }

  function Scored(cs: seq<Model.Competitor>, keywords: seq<Model.Keyword>, total: int): (r: seq<Model.Competitor>)
    ensures |r| == |cs|
  {
    seq(|cs|, i requires 0 <= i < |cs| => Score(cs[i], keywords, total))
  }

  /** The `forEach` that scores every competitor in place. */
  method ScoreCompetitors(cs: seq<Model.Competitor>, keywords: seq<Model.Keyword>, total: int) returns (r: seq<Model.Competitor>)
    ensures r == Scored(cs, keywords, total)
  {
    r := cs;
    for i := 0 to |cs|
      invariant |r| == |cs|
      invariant forall j :: 0 <= j < i ==> r[j] == Score(cs[j], keywords, total)
      invariant forall j :: i <= j < |cs| ==> r[j] == cs[j]
    {
      var p := Metrics.Percent(Metrics.Top30SV(keywords, cs[i].asin), total);
      var level := Model.Debole;
      if p >= 40.0 {
        level := Model.MoltoForte;
      } else if p >= 25.0 {
        level := Model.Forte;
      } else if p >= 10.0 {
        level := Model.Medio;
      }
      r := r[i := cs[i].(strengthPercentage := p, strengthLevel := level)];
    }
  }

  /** Scoring keeps every competitor's identity and sets its tier from its percentage; with non-negative volumes the percentage lies in [0, 100]. */
  lemma ScoredCompetitor(cs: seq<Model.Competitor>, keywords: seq<Model.Keyword>, i: int)
    requires 0 <= i < |cs|
    ensures var c := Scored(cs, keywords, Metrics.SumSV(keywords))[i];
      c == cs[i].(strengthPercentage := c.strengthPercentage, strengthLevel := c.strengthLevel) &&
      c.strengthLevel == ClientLevel(c.strengthPercentage) &&
      c.strengthPercentage == Metrics.Percent(Metrics.Top30SV(keywords, cs[i].asin), Metrics.SumSV(keywords)) &&
      (Metrics.NonNegativeSV(keywords) ==> 0.0 <= c.strengthPercentage <= 100.0)
  {
    if Metrics.NonNegativeSV(keywords) {
      Metrics.Top30WithinTotal(keywords, cs[i].asin);
      Metrics.PercentBounds(Metrics.Top30SV(keywords, cs[i].asin), Metrics.SumSV(keywords));
    }
  }

  /** A keyword row as a processed keyword, not deleted. */
  function ProcessKeyword(kw: Model.KeywordRow): Model.Keyword {
    Model.Keyword(kw.phrase, kw.searchVolume, kw.isBrand, kw.brandWord, kw.relevance, false, kw.rankings)
  }

  function ProcessKeywords(rows: seq<Model.KeywordRow>): (ks: seq<Model.Keyword>)
    ensures |ks| == |rows|
  {
    seq(|rows|, i requires 0 <= i < |rows| => ProcessKeyword(rows[i]))
  }

  /** The ASINs that are a ranking key of some keyword row (`asinSet`). */
  function RankedAsins(rows: seq<Model.KeywordRow>): set<string> {
    if rows == [] then {} else RankedAsins(rows[..|rows| - 1]) + rows[|rows| - 1].rankings.Keys
  }

  /** An ASIN is collected exactly when some keyword row ranks it. */
  lemma {:induction false} RankedAsinsMembers(rows: seq<Model.KeywordRow>)
    ensures forall a :: a in RankedAsins(rows) <==> exists i :: 0 <= i < |rows| && a in rows[i].rankings
  {
    if rows != [] {
      var init := rows[..|rows| - 1];
      RankedAsinsMembers(init);
      forall a | a in RankedAsins(rows) ensures exists i :: 0 <= i < |rows| && a in rows[i].rankings {
        if a in RankedAsins(init) {
          var i :| 0 <= i < |init| && a in init[i].rankings;
          assert rows[i] == init[i];
        } else {
          assert a in rows[|rows| - 1].rankings;
        }
      }
      forall a | exists i :: 0 <= i < |rows| && a in rows[i].rankings ensures a in RankedAsins(rows) {
        var i :| 0 <= i < |rows| && a in rows[i].rankings;
        if i < |rows| - 1 {
          assert init[i] == rows[i];
        }
      }
    }
  }

  /** The loop that adds every ranking key of every row to `asinSet`. */
  method CollectAsins(rows: seq<Model.KeywordRow>) returns (asins: set<string>)
    ensures asins == RankedAsins(rows)
  {
    asins := {};
    for i := 0 to |rows|
      invariant asins == RankedAsins(rows[..i])
    {
      assert rows[..i + 1][..i] == rows[..i];
      asins := asins + rows[i].rankings.Keys;
    }
    assert rows[..|rows|] == rows;
  }

  /** `order` lists the elements of `s`, each once. */
  predicate Enumerates(order: seq<string>, s: set<string>) {
    (forall i, j :: 0 <= i < j < |order| ==> order[i] != order[j]) &&
    (forall a :: a in order ==> a in s) && (forall a :: a in s ==> a in order)
  }

  /** `Array.from(asinSet)`: the elements of the set in some order; the insertion order of the set is not modelled. */
  method AsinList(asins: set<string>) returns (order: seq<string>)
    ensures Enumerates(order, asins)
  {
    order := [];
    var todo := asins;
    while todo != {}
      invariant todo <= asins
      invariant forall i, j :: 0 <= i < j < |order| ==> order[i] != order[j]
      invariant forall a :: a in order <==> a in asins - todo
      decreases |todo|
    {
      var a :| a in todo;
      forall k | 0 <= k < |order| ensures order[k] != a {
        assert order[k] in order;
      }
      order := order + [a];
      todo := todo - {a};
    }
  }

  /** A list without repetitions has as many elements as its set. */
  lemma {:induction false} EnumerationSize(order: seq<string>, s: set<string>)
    requires Enumerates(order, s)
    ensures |order| == |s|
  {
    if order != [] {
      var last := order[|order| - 1];
      var init := order[..|order| - 1];
      assert Enumerates(init, s - {last}) by {
        forall a ensures a in init <==> a in s - {last} {
          if a in init {
            var k :| 0 <= k < |init| && init[k] == a;
            assert order[k] == a;
          }
          if a in order && a != last {
            var k :| 0 <= k < |order| && order[k] == a;
            assert init[k] == a;
          }
        }
      }
      EnumerationSize(init, s - {last});
    } else {
      assert forall a :: a !in s;
      assert s == {};
    }
  }

  function Find<T>(xs: seq<T>, key: T -> string, a: string): Option<T> {
    var i := Model.FirstWith(xs, key, a);
    if i < 0 then None else Some(xs[i])
  }

  /** `undefined || ''` */
  function TextOf(o: Option<string>): string {
    if o.Some? then o.value else ""
  }

  /** The competitor built for `asin` from its business and product rows, before scoring. */
  function NewCompetitor(asin: string, b: Option<BusinessRow>, p: Option<ProductRow>, listingAge: string -> int): Model.Competitor {
    Model.Competitor(
      asin,
      Initial.OrElse(Initial.OrElse(if b.Some? then b.value.brand else "", if p.Some? then p.value.brand else ""), "Unknown"),
      Initial.OrElse(if b.Some? then TextOf(b.value.imageUrl) else "", if p.Some? then TextOf(p.value.imageUrl) else ""),
      0.0,
      Model.Medio,
      if b.Some? then TextOf(b.value.sellerCountry) else "",
      1,
      if b.Some? && b.value.ratings.Some? then b.value.ratings.value else 0.0,
      if b.Some? && b.value.creationDate.Some? then listingAge(b.value.creationDate.value) else 0,
      if b.Some? then TextOf(b.value.price) else "",
      if b.Some? && b.value.sales.Some? then b.value.sales.value as real else 0.0,
      if b.Some? then TextOf(b.value.revenue) else "",
      if b.Some? then TextOf(b.value.category) else "",
      if b.Some? then TextOf(b.value.fulfillment) else "",
      false)
  }

  function BusinessFor(bs: seq<BusinessRow>, asin: string): Option<BusinessRow> {
    Find(bs, (b: BusinessRow) => b.asin, asin)
  }

  function ProductFor(ps: seq<ProductRow>, asin: string): Option<ProductRow> {
    Find(ps, (p: ProductRow) => p.asin, asin)
  }

  /** The unscored competitors, one per ASIN of `order`. */
  function NewCompetitors(order: seq<string>, bs: seq<BusinessRow>, ps: seq<ProductRow>, listingAge: string -> int): (cs: seq<Model.Competitor>)
    ensures |cs| == |order|
  {
    seq(|order|, i requires 0 <= i < |order| => NewCompetitor(order[i], BusinessFor(bs, order[i]), ProductFor(ps, order[i]), listingAge))
  }

  /** A product row as a processed product: a default title from the brand, its one variation ASIN if any. */
  function ProcessProduct(p: ProductRow): Model.Product {
    Model.Product(
      p.asin, p.brand, TextOf(p.imageUrl), TextOf(p.imageUrl), 1, p.brand + " Product",
      "", "", "", "", "",
      if p.asinVariation.Some? then [p.asinVariation.value] else [],
      0, [], 0.0, Model.Debole, false)
  }

  function ProcessProducts(ps: seq<ProductRow>): (r: seq<Model.Product>)
    ensures |r| == |ps|
  {
    seq(|ps|, i requires 0 <= i < |ps| => ProcessProduct(ps[i]))
  }

  /** The characters the revenue total strips before `parseFloat`. */
  predicate IsEuroOrComma(c: char) {
    c == '€' || c == ','
  }

  /**
   * The amount a revenue text adds to a total: euro signs and commas dropped, a missing or empty text read as 0.
   * Text that `parseFloat` cannot read (a "$" left in front, "N/A") also adds 0 here, where in JavaScript it
   * makes the whole total `NaN`.
   */
  function RevenueAmount(revenue: string): real {
    var t := RemoveAll(revenue, IsEuroOrComma);
    ParseFloatOr0(if t == "" then "0" else t)
  }

  function BusinessRevenue(bs: seq<BusinessRow>): real {
    if bs == [] then 0.0 else BusinessRevenue(bs[..|bs| - 1]) + RevenueAmount(TextOf(bs[|bs| - 1].revenue))
  }

  function CompetitorRevenue(cs: seq<Model.Competitor>): real {
    if cs == [] then 0.0 else CompetitorRevenue(cs[..|cs| - 1]) + RevenueAmount(cs[|cs| - 1].revenue)
  }

  /** The distinct brands of `cs`. */
  function Brands(cs: seq<Model.Competitor>): set<string> {
    set i | 0 <= i < |cs| :: cs[i].brand
  }

  /** The keywords whose flag is clear, in order. */
  function Unflagged(ks: seq<Model.Keyword>): (r: seq<Model.Keyword>)
    ensures |r| <= |ks|
  {
    if ks == [] then []
    else Unflagged(ks[..|ks| - 1]) + (if ks[|ks| - 1].isDeleted then [] else [ks[|ks| - 1]])
  }

  /** The keywords whose flag is set, in order. */
  function Flagged(ks: seq<Model.Keyword>): seq<Model.Keyword> {
    if ks == [] then []
    else Flagged(ks[..|ks| - 1]) + (if ks[|ks| - 1].isDeleted then [ks[|ks| - 1]] else [])
  }

  /** `combineData`, given the order in which the ASIN set lists its elements. */
  function CombinedData(
    rows: seq<Model.KeywordRow>, bs: seq<BusinessRow>, ps: seq<ProductRow>,
    order: seq<string>, listingAge: string -> int): Model.AnalysisData
  {
    var keywords := ProcessKeywords(rows);
    var cs := Scored(NewCompetitors(order, bs, ps, listingAge), keywords, Metrics.SumSV(keywords));
    var active := Unflagged(keywords);
    Model.AnalysisData(
      "",
      Model.MarketSummary(
        Metrics.SumSV(active), Metrics.SumSV(Metrics.BrandKeywords(active)), |Brands(cs)|,
        |active|, 0, BusinessRevenue(bs)),
      cs, keywords, [], ProcessProducts(ps), Metrics.Summarize(cs, {}))
  }

  /** `combineData`: collects the ranked ASINs, lists them, and builds the analysis. */
  method CombineData(
    rows: seq<Model.KeywordRow>, bs: seq<BusinessRow>, ps: seq<ProductRow>, listingAge: string -> int)
    returns (data: Model.AnalysisData, order: seq<string>)
    ensures Enumerates(order, RankedAsins(rows))
    ensures data == CombinedData(rows, bs, ps, order, listingAge)
  {
    var asins := CollectAsins(rows);
    order := AsinList(asins);
    var keywords := ProcessKeywords(rows);
    var competitors := ScoreCompetitors(NewCompetitors(order, bs, ps, listingAge), keywords, Metrics.SumSV(keywords));
    var active := Unflagged(keywords);
    data := Model.AnalysisData(
      "",
      Model.MarketSummary(
        Metrics.SumSV(active), Metrics.SumSV(Metrics.BrandKeywords(active)), |Brands(competitors)|,
        |active|, 0, BusinessRevenue(bs)),
      competitors, keywords, [], ProcessProducts(ps), Metrics.Summarize(competitors, {}));
  }

  /** A competitor takes its brand from the business row, else the product row, else "Unknown"; without a business row its business fields are empty. */
  lemma NewCompetitorDefaults(asin: string, b: Option<BusinessRow>, p: Option<ProductRow>, listingAge: string -> int)
    ensures var c := NewCompetitor(asin, b, p, listingAge);
      c.asin == asin && !c.isDeleted && c.variations == 1 && c.brand != "" &&
      c.brand == (if b.Some? && b.value.brand != "" then b.value.brand
                  else if p.Some? && p.value.brand != "" then p.value.brand
                  else "Unknown") &&
      (b.None? ==> c.rating == 0.0 && c.listingAgeMonths == 0 && c.sales == 0.0 &&
                   c.price == "" && c.revenue == "" && c.sellerCountry == "")
  {
  }

  /** `find` gives the first row with the ASIN, and nothing only when no row has it. */
  lemma FindFirst<T>(xs: seq<T>, key: T -> string, a: string)
    ensures Find(xs, key, a).None? <==> forall k :: 0 <= k < |xs| ==> key(xs[k]) != a
    ensures Find(xs, key, a).Some? ==>
      exists i :: (0 <= i < |xs| && xs[i] == Find(xs, key, a).value &&
        key(xs[i]) == a && forall k :: 0 <= k < i ==> key(xs[k]) != a)
  {
    var i := Model.FirstWith(xs, key, a);
    if i >= 0 {
      assert xs[i] == Find(xs, key, a).value;
    }
  }

  /** The competitors of a fresh analysis follow `order`, one per listed ASIN. */
  lemma CombinedAsins(
    rows: seq<Model.KeywordRow>, bs: seq<BusinessRow>, ps: seq<ProductRow>,
    order: seq<string>, listingAge: string -> int)
    ensures var cs := CombinedData(rows, bs, ps, order, listingAge).competitorAnalysis;
      |cs| == |order| && forall i :: 0 <= i < |cs| ==> cs[i].asin == order[i]
  {
  }

  /** `combineData` makes exactly one competitor per ASIN ranked by some keyword row. */
  lemma CombinedCompetitors(
    rows: seq<Model.KeywordRow>, bs: seq<BusinessRow>, ps: seq<ProductRow>,
    order: seq<string>, listingAge: string -> int)
    requires Enumerates(order, RankedAsins(rows))
    ensures var cs := CombinedData(rows, bs, ps, order, listingAge).competitorAnalysis;
      |cs| == |RankedAsins(rows)| &&
      (forall i, j :: 0 <= i < j < |cs| ==> cs[i].asin != cs[j].asin) &&
      (forall a :: a in RankedAsins(rows) <==> exists i :: 0 <= i < |rows| && a in rows[i].rankings) &&
      (forall a :: a in RankedAsins(rows) <==> exists i :: 0 <= i < |cs| && cs[i].asin == a)
  {
    var cs := CombinedData(rows, bs, ps, order, listingAge).competitorAnalysis;
    CombinedAsins(rows, bs, ps, order, listingAge);
    EnumerationDistinct(cs, order, RankedAsins(rows));
    RankedAsinsMembers(rows);
  }

  /** A list whose ASINs follow an enumeration of a set has one entry per element of the set. */
  lemma EnumerationDistinct(cs: seq<Model.Competitor>, order: seq<string>, s: set<string>)
    requires Enumerates(order, s)
    requires |cs| == |order| && forall i :: 0 <= i < |cs| ==> cs[i].asin == order[i]
    ensures |cs| == |s|
    ensures forall i, j :: 0 <= i < j < |cs| ==> cs[i].asin != cs[j].asin
    ensures forall a :: a in s <==> exists i :: 0 <= i < |cs| && cs[i].asin == a
  {
    EnumerationSize(order, s);
    forall a | a in s ensures exists i :: 0 <= i < |cs| && cs[i].asin == a {
      var i :| 0 <= i < |order| && order[i] == a;
      assert cs[i].asin == a;
    }
    forall a | exists i :: 0 <= i < |cs| && cs[i].asin == a ensures a in s {
      var i :| 0 <= i < |cs| && cs[i].asin == a;
      assert order[i] in order;
    }
  }

  lemma {:induction false} CountAll(cs: seq<Model.Competitor>)
    ensures Metrics.CountActive(cs, {}) == |cs|
  {
    if cs != [] {
      CountAll(cs[..|cs| - 1]);
    }
  }

  /** The tier counts of a fresh analysis add up to the number of competitors. */
  lemma CombinedStrengthSummary(
    rows: seq<Model.KeywordRow>, bs: seq<BusinessRow>, ps: seq<ProductRow>,
    order: seq<string>, listingAge: string -> int)
    ensures var d := CombinedData(rows, bs, ps, order, listingAge);
      Metrics.SummaryTotal(d.strengthSummary) == |d.competitorAnalysis|
  {
    var cs := CombinedData(rows, bs, ps, order, listingAge).competitorAnalysis;
    Metrics.SummaryCountsActive(cs, {});
    CountAll(cs);
  }

  lemma {:induction false} UnflaggedAll(ks: seq<Model.Keyword>)
    requires forall i :: 0 <= i < |ks| ==> !ks[i].isDeleted
    ensures Unflagged(ks) == ks && Flagged(ks) == []
  {
    if ks != [] {
      UnflaggedAll(ks[..|ks| - 1]);
    }
  }

  /** A fresh analysis deletes nothing: every keyword counts towards the market volume and the keyword total. */
  lemma CombinedMarket(
    rows: seq<Model.KeywordRow>, bs: seq<BusinessRow>, ps: seq<ProductRow>,
    order: seq<string>, listingAge: string -> int)
    ensures var d := CombinedData(rows, bs, ps, order, listingAge);
      var m := d.marketSummary;
      |d.keywordList| == |rows| && |d.productList| == |ps| && d.rootKeywords == [] &&
      (forall i :: 0 <= i < |rows| ==> !d.keywordList[i].isDeleted && d.keywordList[i].phrase == rows[i].phrase) &&
      m.totalMarketSV == Metrics.SumSV(d.keywordList) && m.totalKeywords == |rows| && m.deletedKeywords == 0 &&
      m.brandSV == Metrics.SumSV(Metrics.BrandKeywords(d.keywordList)) &&
      m.totalRevenue == BusinessRevenue(bs) &&
      (Metrics.NonNegativeSV(d.keywordList) ==> 0 <= m.brandSV <= m.totalMarketSV)
  {
    var keywords := ProcessKeywords(rows);
    var cs := Scored(NewCompetitors(order, bs, ps, listingAge), keywords, Metrics.SumSV(keywords));
    FreshKeywords(rows);
    UnflaggedAll(keywords);
    var m := Model.MarketSummary(
      Metrics.SumSV(keywords), Metrics.SumSV(Metrics.BrandKeywords(keywords)), |Brands(cs)|,
      |keywords|, 0, BusinessRevenue(bs));
    assert CombinedData(rows, bs, ps, order, listingAge) ==
      Model.AnalysisData("", m, cs, keywords, [], ProcessProducts(ps), Metrics.Summarize(cs, {}));
    if Metrics.NonNegativeSV(keywords) {
      Metrics.BrandWithinTotal(keywords);
    }
  }

  /** The keywords of a fresh analysis follow the rows, each with its flag clear. */
  lemma FreshKeywords(rows: seq<Model.KeywordRow>)
    ensures var ks := ProcessKeywords(rows);
      forall i :: 0 <= i < |rows| ==> !ks[i].isDeleted && ks[i].phrase == rows[i].phrase
  {
  }

  /** Every competitor of a fresh analysis is scored against all keywords; with non-negative volumes its strength lies in [0, 100]. */
  lemma CombinedCompetitor(
    rows: seq<Model.KeywordRow>, bs: seq<BusinessRow>, ps: seq<ProductRow>,
    order: seq<string>, listingAge: string -> int, i: int)
    requires 0 <= i < |order|
    ensures var d := CombinedData(rows, bs, ps, order, listingAge);
      var c := d.competitorAnalysis[i];
      var base := NewCompetitor(order[i], BusinessFor(bs, order[i]), ProductFor(ps, order[i]), listingAge);
      c == base.(strengthPercentage := c.strengthPercentage, strengthLevel := c.strengthLevel) &&
      c.strengthPercentage == Metrics.Percent(Metrics.Top30SV(d.keywordList, order[i]), Metrics.SumSV(d.keywordList)) &&
      c.strengthLevel == ClientLevel(c.strengthPercentage) &&
      (Metrics.NonNegativeSV(d.keywordList) ==> 0.0 <= c.strengthPercentage <= 100.0)
  {
    var keywords := ProcessKeywords(rows);
    ScoredCompetitor(NewCompetitors(order, bs, ps, listingAge), keywords, i);
  }

  /** A processed product is titled after its brand and lists its one variation ASIN, if it has one. */
  lemma ProductDefaults(p: ProductRow)
    ensures var q := ProcessProduct(p);
      q.asin == p.asin && q.brand == p.brand && q.title == p.brand + " Product" && !q.isDeleted &&
      q.imageUrl == q.imageUrlSample && q.imageCount == 1 &&
      |q.variationAsins| <= 1 && (q.variationAsins == [] <==> p.asinVariation.None?) &&
      (p.asinVariation.Some? ==> q.variationAsins[0] == p.asinVariation.value)
  {
  }

  // ---------------------------------------------------------------------
  // Recalculation after a change of keyword flags

  /** `recalculateMetrics`: rescores every competitor against the unflagged keywords and rebuilds the market summary; the tier counts are left as they were. */
  function Recalculated(data: Model.AnalysisData): Model.AnalysisData {
    var active := Unflagged(data.keywordList);
    var total := Metrics.SumSV(active);
    var cs := Scored(data.competitorAnalysis, active, total);
    data.(
      competitorAnalysis := cs,
      marketSummary := Model.MarketSummary(
        total, Metrics.SumSV(Metrics.BrandKeywords(active)), |Brands(cs)|,
        |active|, |Flagged(data.keywordList)|, CompetitorRevenue(cs)))
  }

  method RecalculateMetrics(data: Model.AnalysisData) returns (r: Model.AnalysisData)
    ensures r == Recalculated(data)
  {
    var active := Unflagged(data.keywordList);
    var total := Metrics.SumSV(active);
    var cs := ScoreCompetitors(data.competitorAnalysis, active, total);
    r := data.(
      competitorAnalysis := cs,
      marketSummary := Model.MarketSummary(
        total, Metrics.SumSV(Metrics.BrandKeywords(active)), |Brands(cs)|,
        |active|, |Flagged(data.keywordList)|, CompetitorRevenue(cs)));
  }

  /** The unflagged keywords are exactly the keywords whose flag is clear. */
  lemma {:induction false} UnflaggedMembers(ks: seq<Model.Keyword>)
    ensures forall k :: k in Unflagged(ks) <==> k in ks && !k.isDeleted
  {
    if ks != [] {
      UnflaggedMembers(ks[..|ks| - 1]);
      assert ks == ks[..|ks| - 1] + [ks[|ks| - 1]];
    }
  }

  /** Flagged and unflagged keywords split the list and its search volume. */
  lemma {:induction false} FlagConservation(ks: seq<Model.Keyword>)
    ensures |Unflagged(ks)| + |Flagged(ks)| == |ks|
    ensures Metrics.SumSV(Unflagged(ks)) + Metrics.SumSV(Flagged(ks)) == Metrics.SumSV(ks)
  {
    if ks != [] {
      var init := ks[..|ks| - 1];
      var k := ks[|ks| - 1];
      FlagConservation(init);
      var u := Unflagged(init);
      var f := Flagged(init);
      assert Metrics.SumSV(ks) == Metrics.SumSV(init) + k.searchVolume;
      if k.isDeleted {
        assert Unflagged(ks) == u;
        assert Flagged(ks) == f + [k];
        assert (f + [k])[..|f + [k]| - 1] == f;
        assert Metrics.SumSV(f + [k]) == Metrics.SumSV(f) + k.searchVolume;
      } else {
        assert Flagged(ks) == f;
        assert Unflagged(ks) == u + [k];
        assert (u + [k])[..|u + [k]| - 1] == u;
        assert Metrics.SumSV(u + [k]) == Metrics.SumSV(u) + k.searchVolume;
      }
    }
  }

  lemma {:induction false} UnflaggedNonNegative(ks: seq<Model.Keyword>)
    requires Metrics.NonNegativeSV(ks)
    ensures Metrics.NonNegativeSV(Unflagged(ks))
  {
    if ks != [] {
      UnflaggedNonNegative(ks[..|ks| - 1]);
    }
  }

  /** After a recalculation the counts of kept and deleted keywords add up to the list, the market volume is the volume of the kept ones, and the lists other than the competitors, with the tier counts, are unchanged. */
  lemma RecalculatedMarket(data: Model.AnalysisData)
    ensures var r := Recalculated(data);
      var m := r.marketSummary;
      var ks := data.keywordList;
      m.totalKeywords + m.deletedKeywords == |ks| &&
      m.totalMarketSV + Metrics.SumSV(Flagged(ks)) == Metrics.SumSV(ks) &&
      (forall k :: k in Unflagged(ks) <==> k in ks && !k.isDeleted) &&
      (Metrics.NonNegativeSV(ks) ==> 0 <= m.brandSV <= m.totalMarketSV) &&
      r.keywordList == ks && r.productList == data.productList && r.rootKeywords == data.rootKeywords &&
      r.analysisId == data.analysisId && r.strengthSummary == data.strengthSummary
  {
    var ks := data.keywordList;
    FlagConservation(ks);
    UnflaggedMembers(ks);
    if Metrics.NonNegativeSV(ks) {
      UnflaggedNonNegative(ks);
      Metrics.BrandWithinTotal(Unflagged(ks));
    }
  }

  /** A recalculation rescores every competitor against the unflagged keywords only; with non-negative volumes each strength lies in [0, 100]. */
  lemma RecalculatedCompetitor(data: Model.AnalysisData, i: int)
    requires 0 <= i < |data.competitorAnalysis|
    ensures var r := Recalculated(data);
      var active := Unflagged(data.keywordList);
      var c := r.competitorAnalysis[i];
      |r.competitorAnalysis| == |data.competitorAnalysis| &&
      c == data.competitorAnalysis[i].(strengthPercentage := c.strengthPercentage, strengthLevel := c.strengthLevel) &&
      c.strengthPercentage == Metrics.Percent(Metrics.Top30SV(active, c.asin), Metrics.SumSV(active)) &&
      c.strengthLevel == ClientLevel(c.strengthPercentage) &&
      (Metrics.NonNegativeSV(data.keywordList) ==> 0.0 <= c.strengthPercentage <= 100.0)
  {
    var active := Unflagged(data.keywordList);
    if Metrics.NonNegativeSV(data.keywordList) {
      UnflaggedNonNegative(data.keywordList);
    }
    ScoredCompetitor(data.competitorAnalysis, active, i);
  }

  lemma {:induction false} RevenueOfScored(cs: seq<Model.Competitor>, keywords: seq<Model.Keyword>, total: int)
    ensures CompetitorRevenue(Scored(cs, keywords, total)) == CompetitorRevenue(cs)
  {
    if cs != [] {
      var r := Scored(cs, keywords, total);
      RevenueOfScored(cs[..|cs| - 1], keywords, total);
      assert r[..|r| - 1] == Scored(cs[..|cs| - 1], keywords, total);
      assert r[|r| - 1].revenue == cs[|cs| - 1].revenue;
    }
  }

  lemma BrandsOfScored(cs: seq<Model.Competitor>, keywords: seq<Model.Keyword>, total: int)
    ensures Brands(Scored(cs, keywords, total)) == Brands(cs)
  {
    var r := Scored(cs, keywords, total);
    assert forall i :: 0 <= i < |cs| ==> r[i].brand == cs[i].brand;
  }

  /** Recalculating twice gives the same analysis as recalculating once. */
  lemma RecalculateIdempotent(data: Model.AnalysisData)
    ensures Recalculated(Recalculated(data)) == Recalculated(data)
  {
    var r := Recalculated(data);
    var active := Unflagged(data.keywordList);
    var total := Metrics.SumSV(active);
    var cs := Scored(data.competitorAnalysis, active, total);
    assert Scored(cs, active, total) == cs;
  }

  /** Recalculating a fresh analysis changes only its revenue total, which it then takes from the competitors instead of from every business row. */
  lemma RecalculateAfterCombine(
    rows: seq<Model.KeywordRow>, bs: seq<BusinessRow>, ps: seq<ProductRow>,
    order: seq<string>, listingAge: string -> int)
    ensures var d := CombinedData(rows, bs, ps, order, listingAge);
      Recalculated(d) == d.(marketSummary := d.marketSummary.(totalRevenue := CompetitorRevenue(d.competitorAnalysis)))
  {
    var d := CombinedData(rows, bs, ps, order, listingAge);
    UnflaggedAll(d.keywordList);
    var total := Metrics.SumSV(d.keywordList);
    assert Scored(d.competitorAnalysis, d.keywordList, total) == d.competitorAnalysis;
  }

  // ---------------------------------------------------------------------
  // Keyword flags and the analysis store

  /** A keyword after `updateKeywords`: a restored phrase is cleared, otherwise a deleted phrase is set, otherwise the flag stays. */
  function Reflag(k: Model.Keyword, deleted: seq<string>, restored: seq<string>): Model.Keyword {
    if k.phrase in restored then k.(isDeleted := false)
    else if k.phrase in deleted then k.(isDeleted := true)
    else k
  }

  function Reflagged(data: Model.AnalysisData, deleted: seq<string>, restored: seq<string>): Model.AnalysisData {
    var ks := data.keywordList;
    data.(keywordList := seq(|ks|, i requires 0 <= i < |ks| => Reflag(ks[i], deleted, restored)))
  }

  /** Only the flags change; a phrase in both lists ends up restored. */
  lemma ReflagRules(data: Model.AnalysisData, deleted: seq<string>, restored: seq<string>)
    ensures var r := Reflagged(data, deleted, restored);
      |r.keywordList| == |data.keywordList| &&
      r == data.(keywordList := r.keywordList) &&
      forall i :: 0 <= i < |r.keywordList| ==>
        var k := data.keywordList[i];
        r.keywordList[i] == k.(isDeleted := r.keywordList[i].isDeleted) &&
        (r.keywordList[i].isDeleted <==> k.phrase !in restored && (k.phrase in deleted || k.isDeleted))
  {
  }

  /** The analyses held in memory, by analysis id. */
  class SessionStore {
    var sessions: map<string, Model.AnalysisData>

    constructor ()
      ensures sessions == map[]
    {
      sessions := map[];
    }

    /** `getAnalysisData`: the stored analysis, or nothing for an unknown id. */
    method GetAnalysisData(analysisId: string) returns (r: Option<Model.AnalysisData>)
      ensures analysisId in sessions <==> r.Some?
      ensures r.Some? ==> r.value == sessions[analysisId]
    {
      if analysisId in sessions {
        return Some(sessions[analysisId]);
      }
      return None;
    }

    /** `updateKeywords`: sets and clears the keyword flags, recalculates, and stores the result under the same id. */
    method UpdateKeywords(analysisId: string, deleted: seq<string>, restored: seq<string>) returns (r: Option<Model.AnalysisData>)
      modifies this
      ensures analysisId !in old(sessions) ==> r == None && sessions == old(sessions)
      ensures analysisId in old(sessions) ==>
        r == Some(Recalculated(Reflagged(old(sessions)[analysisId], deleted, restored))) &&
        sessions == old(sessions)[analysisId := r.value]
    {
      if analysisId !in sessions {
        return None;
      }
      var data := sessions[analysisId];
      var ks := data.keywordList;
      for i := 0 to |ks|
        invariant |ks| == |data.keywordList|
        invariant forall j :: 0 <= j < i ==> ks[j] == Reflag(data.keywordList[j], deleted, restored)
        invariant forall j :: i <= j < |ks| ==> ks[j] == data.keywordList[j]
      {
        var k := ks[i];
        if k.phrase in deleted {
          k := k.(isDeleted := true);
        }
        if k.phrase in restored {
          k := k.(isDeleted := false);
        }
        ks := ks[i := k];
      }
      assert data.(keywordList := ks) == Reflagged(data, deleted, restored);
      var updated := RecalculateMetrics(data.(keywordList := ks));
      sessions := sessions[analysisId := updated];
      return Some(updated);
    }
  }

  /** An update with empty lists only recalculates. */
  lemma EmptyUpdate(data: Model.AnalysisData)
    ensures Reflagged(data, [], []) == data
  {
    var r := Reflagged(data, [], []);
    assert r.keywordList == data.keywordList;
  }
}
