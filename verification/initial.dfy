/**
 * `CalculationEngine.processInitialData` as a function of the uploaded rows:
 * one competitor per distinct non-empty business ASIN (enriched from the
 * first product row with that ASIN), one processed keyword per keyword row
 * with its relevance derived from the rankings, one processed product per
 * product row with defaults for missing fields, no soft-deletes, and the
 * root index of all keywords. The metrics are then recalculated (module
 * Metrics).
 *
 * `calculateListingAge` reads the clock, so the listing age is a parameter.
 */
module Initial {
  import opened Wrappers
  import opened Numbers
  import opened Model
  import opened Metrics
  import opened RootIndex

  /** JavaScript's `a || b` on strings: `a` unless it is empty. */
  function OrElse(a: string, b: string): (r: string)
    ensures r == a || r == b
    ensures r == "" ==> a == "" && b == ""
  {
    if a != "" then a else b
  }

  function RowAt(ps: seq<ProductRow>, i: int): Option<ProductRow> {
    if 0 <= i < |ps| then Some(ps[i]) else None
  }

  /**
   * The competitor built from a business row and the matching product row, if any: the brand falls back from the
   * business row to the product row to "Unknown", the image URL from the business row to the product row, the
   * variation count comes from the product row, and the strength starts at 0 / Debole.
   */
  function NewCompetitor(b: BusinessRow, p: Option<ProductRow>, listingAge: string -> int): (c: Competitor)
    ensures c.asin == b.asin && !c.isDeleted
    ensures c.brand != ""
    ensures c.brand == (if b.brand != "" then b.brand else if p.Some? && p.value.brand != "" then p.value.brand else "Unknown")
    ensures c.variations >= 1
    ensures c.strengthPercentage == 0.0 && c.strengthLevel == Debole
  {
    var pBrand := if p.Some? then p.value.brand else "";
    var pImage := if p.Some? then p.value.imageUrl else "";
    var variations := if p.Some? then p.value.variationAsins else [];
    Competitor(
      b.asin, OrElse(b.brand, OrElse(pBrand, "Unknown")), OrElse(b.imageUrl, pImage),
      0.0, Debole, b.sellerCountry, VariationCount(variations), b.rating, listingAge(b.creationDate),
      b.price, b.sales, b.revenue, b.category, b.fulfillment, false)
  }

  /** The source's `competitorsMap`: a map keyed by ASIN together with its insertion order. */
  datatype CompetitorTable = CompetitorTable(order: seq<string>, entries: map<string, Competitor>)

  ghost predicate TableShape(t: CompetitorTable) {
    Distinct(t.order) &&
    (forall a :: a in t.entries <==> a in t.order) &&
    (forall a :: a in t.entries ==> t.entries[a].asin == a)
  }

  /** One `competitorsMap.set` per business row with a non-empty ASIN; a later row replaces an earlier one. */
  function CompetitorTableOf(bs: seq<BusinessRow>, ps: seq<ProductRow>, listingAge: string -> int): (t: CompetitorTable)
    ensures TableShape(t) && "" !in t.entries
  {
    if bs == [] then CompetitorTable([], map[])
    else
      var t := CompetitorTableOf(bs[..|bs| - 1], ps, listingAge);
      var b := bs[|bs| - 1];
      if b.asin == "" then t
      else
        var c := NewCompetitor(b, RowAt(ps, FirstWith(ps, ProductRowAsin, b.asin)), listingAge);
        var order := if b.asin in t.entries then t.order else t.order + [b.asin];
        assert Distinct(order);
        CompetitorTable(order, t.entries[b.asin := c])
  }

  /** `Array.from(competitorsMap.values())` */
  function InitialCompetitors(bs: seq<BusinessRow>, ps: seq<ProductRow>, listingAge: string -> int): (cs: seq<Competitor>) {
    var t := CompetitorTableOf(bs, ps, listingAge);
    seq(|t.order|, i requires 0 <= i < |t.order| => t.entries[t.order[i]])
  }

  /** Number of ranked ASINs whose position is in 1..30. */
  function Top30Count(rankings: map<string, int>): nat {
    |set a | a in rankings && 0 < rankings[a] <= 30|
  }

  /** Relevance of a keyword row: 0 for a brand keyword, else the rounded share of its ranked ASINs in the top 30. */
  function InitialRelevance(kw: KeywordRow): real {
    if kw.isBrand then 0.0
    else
      var total := |kw.rankings|;
      if total > 0 then Round((Top30Count(kw.rankings) as real / total as real) * 100.0) as real else 0.0
  }

  function ProcessKeyword(kw: KeywordRow): Keyword {
    Keyword(kw.phrase, kw.searchVolume, kw.isBrand, kw.brandWord, InitialRelevance(kw), false, kw.rankings)
  }

  function ProcessKeywords(rows: seq<KeywordRow>): (ks: seq<Keyword>)
    ensures |ks| == |rows|
  {
    seq(|rows|, i requires 0 <= i < |rows| => ProcessKeyword(rows[i]))
  }

  /** A processed product: brand "Unknown" and title "Product <asin>" when missing, the scores not yet computed. */
  function ProcessProduct(p: ProductRow): Product {
    Product(
      p.asin, OrElse(p.brand, "Unknown"), p.imageUrl, p.imageUrlSample, p.imageCount,
      OrElse(p.title, "Product " + p.asin),
      p.feature1, p.feature2, p.feature3, p.feature4, p.feature5, p.variationAsins,
      0, [], 0.0, Debole, false)
  }

  function ProcessProducts(rows: seq<ProductRow>): (ps: seq<Product>)
    ensures |ps| == |rows|
  {
    seq(|rows|, i requires 0 <= i < |rows| => ProcessProduct(rows[i]))
  }

  /** The processed data `processInitialData` sets before recalculating. */
  function InitialData(od: OriginalData, listingAge: string -> int): ProcessedData {
    var keywords := ProcessKeywords(od.keywordData);
    ProcessedData(
      InitialCompetitors(od.businessData, od.productData, listingAge),
      keywords,
      RootKeywordsOf(keywords, {}),
      ProcessProducts(od.productData),
      {}, {}, {}, {})
  }

  const EmptyCalculations := Calculations(0, 0, EmptySummary, map[])

  // ---------------------------------------------------------------------
  // Properties

  /** No two initial competitors share an ASIN, and none has an empty ASIN. */
  lemma InitialCompetitorsDistinct(bs: seq<BusinessRow>, ps: seq<ProductRow>, listingAge: string -> int)
    ensures var cs := InitialCompetitors(bs, ps, listingAge);
      forall i, j :: 0 <= i < j < |cs| ==> cs[i].asin != cs[j].asin
  {
    var t := CompetitorTableOf(bs, ps, listingAge);
    var cs := InitialCompetitors(bs, ps, listingAge);
    forall i, j | 0 <= i < j < |cs| ensures cs[i].asin != cs[j].asin {
      assert t.order[i] in t.entries && t.order[j] in t.entries;
    }
  }

  /** Some business row has ASIN `a`. */
  predicate HasBusinessAsin(bs: seq<BusinessRow>, a: string) {
    exists j :: 0 <= j < |bs| && bs[j].asin == a
  }

  /** Some competitor has ASIN `a`. */
  predicate HasCompetitor(cs: seq<Competitor>, a: string) {
    exists i :: 0 <= i < |cs| && cs[i].asin == a
  }

  /** Row `j` is the last business row with ASIN `a`. */
  predicate LastRowFor(bs: seq<BusinessRow>, j: int, a: string) {
    0 <= j < |bs| && bs[j].asin == a && forall k :: j < k < |bs| ==> bs[k].asin != a
  }

  /** The competitor built from business row `j` and the first product row with its ASIN. */
  function BuiltFrom(bs: seq<BusinessRow>, ps: seq<ProductRow>, listingAge: string -> int, j: int): Competitor
    requires 0 <= j < |bs|
  {
    NewCompetitor(bs[j], RowAt(ps, FirstWith(ps, ProductRowAsin, bs[j].asin)), listingAge)
  }

  /** `c` is the competitor built from the last business row with its ASIN. */
  predicate FromLastRow(bs: seq<BusinessRow>, ps: seq<ProductRow>, listingAge: string -> int, c: Competitor) {
    exists j :: 0 <= j < |bs| && LastRowFor(bs, j, c.asin) && c == BuiltFrom(bs, ps, listingAge, j)
  }

  /** The table has an entry for exactly the non-empty ASINs of the business rows. */
  lemma {:induction false} TableKeysAreBusinessAsins(bs: seq<BusinessRow>, ps: seq<ProductRow>, listingAge: string -> int)
    ensures forall a :: a in CompetitorTableOf(bs, ps, listingAge).entries <==> a != "" && HasBusinessAsin(bs, a)
  {
    if bs != [] {
      var n := |bs| - 1;
      TableKeysAreBusinessAsins(bs[..n], ps, listingAge);
      TableStep(bs, ps, listingAge);
      forall a ensures a in CompetitorTableOf(bs, ps, listingAge).entries <==> a != "" && HasBusinessAsin(bs, a) {
        HasBusinessAsinSnoc(bs, a);
      }
    }
  }

  /** One more business row adds its non-empty ASIN, built from that row, and leaves the other entries alone. */
  lemma TableStep(bs: seq<BusinessRow>, ps: seq<ProductRow>, listingAge: string -> int)
    requires bs != []
    ensures var n := |bs| - 1;
      var t := CompetitorTableOf(bs, ps, listingAge).entries;
      var t0 := CompetitorTableOf(bs[..n], ps, listingAge).entries;
      t.Keys == (if bs[n].asin == "" then t0.Keys else t0.Keys + {bs[n].asin}) &&
      (forall a :: a in t0 && a != bs[n].asin ==> t[a] == t0[a]) &&
      (bs[n].asin != "" ==> t[bs[n].asin] == BuiltFrom(bs, ps, listingAge, n))
  {
    var n := |bs| - 1;
    var t := CompetitorTableOf(bs, ps, listingAge).entries;
    var t0 := CompetitorTableOf(bs[..n], ps, listingAge).entries;
    if bs[n].asin == "" {
      assert t == t0;
    } else {
      assert t == t0[bs[n].asin := BuiltFrom(bs, ps, listingAge, n)];
    }
  }

  lemma HasBusinessAsinSnoc(bs: seq<BusinessRow>, a: string)
    requires bs != []
    ensures HasBusinessAsin(bs, a) <==> HasBusinessAsin(bs[..|bs| - 1], a) || bs[|bs| - 1].asin == a
  {
    var n := |bs| - 1;
    if HasBusinessAsin(bs, a) {
      var j :| 0 <= j < |bs| && bs[j].asin == a;
      if j < n { assert bs[..n][j].asin == a; }
    }
    if HasBusinessAsin(bs[..n], a) {
      var j :| 0 <= j < n && bs[..n][j].asin == a;
      assert bs[j].asin == a;
    }
  }

  /**
   * Every table entry is built from the LAST business row with its ASIN (a later `set` replaces an earlier one),
   * enriched from the first product row with that ASIN; `j` is that row.
   */
  lemma {:induction false} TableEntryFromLastRow(bs: seq<BusinessRow>, ps: seq<ProductRow>, listingAge: string -> int, a: string)
    returns (j: int)
    requires a in CompetitorTableOf(bs, ps, listingAge).entries
    ensures 0 <= j < |bs| && LastRowFor(bs, j, a)
    ensures CompetitorTableOf(bs, ps, listingAge).entries[a] == BuiltFrom(bs, ps, listingAge, j)
  {
    var n := |bs| - 1;
    TableStep(bs, ps, listingAge);
    if bs[n].asin == a {
      j := n;
    } else {
      j := TableEntryFromLastRow(bs[..n], ps, listingAge, a);
      BuiltFromPrefix(bs, ps, listingAge, n, j);
      LastRowExtends(bs, j, a);
    }
  }

  lemma BuiltFromPrefix(bs: seq<BusinessRow>, ps: seq<ProductRow>, listingAge: string -> int, m: int, j: int)
    requires 0 <= j < m <= |bs|
    ensures BuiltFrom(bs[..m], ps, listingAge, j) == BuiltFrom(bs, ps, listingAge, j)
  {
    assert bs[..m][j] == bs[j];
  }

  /** The last row for `a` among all but the last row stays the last when the last row has another ASIN. */
  lemma LastRowExtends(bs: seq<BusinessRow>, j: int, a: string)
    requires bs != [] && LastRowFor(bs[..|bs| - 1], j, a) && bs[|bs| - 1].asin != a
    ensures LastRowFor(bs, j, a)
  {
    var n := |bs| - 1;
    assert bs[j] == bs[..n][j];
    forall k | j < k < |bs| ensures bs[k].asin != a {
      if k < n { assert bs[k] == bs[..n][k]; }
    }
  }

  /**
   * The initial competitors: one per distinct non-empty business ASIN, each built from the last business row with
   * that ASIN.
   */
  lemma InitialCompetitorsFromRows(bs: seq<BusinessRow>, ps: seq<ProductRow>, listingAge: string -> int)
    ensures var cs := InitialCompetitors(bs, ps, listingAge);
      (forall a :: HasCompetitor(cs, a) <==> a != "" && HasBusinessAsin(bs, a)) &&
      (forall i :: 0 <= i < |cs| ==> FromLastRow(bs, ps, listingAge, cs[i]))
  {
    var t := CompetitorTableOf(bs, ps, listingAge);
    var cs := InitialCompetitors(bs, ps, listingAge);
    TableKeysAreBusinessAsins(bs, ps, listingAge);
    forall a ensures HasCompetitor(cs, a) <==> a in t.entries {
      if a in t.entries {
        var i :| 0 <= i < |t.order| && t.order[i] == a;
        assert cs[i].asin == a;
      }
      if HasCompetitor(cs, a) {
        var i :| 0 <= i < |cs| && cs[i].asin == a;
        assert t.order[i] in t.entries;
      }
    }
    forall i | 0 <= i < |cs| ensures FromLastRow(bs, ps, listingAge, cs[i]) {
      assert t.order[i] in t.entries;
      var j := TableEntryFromLastRow(bs, ps, listingAge, t.order[i]);
      assert cs[i].asin == t.order[i];
    }
  }

  lemma Top30CountAtMost(rankings: map<string, int>)
    ensures Top30Count(rankings) <= |rankings|
  {
    var s := set a | a in rankings && 0 < rankings[a] <= 30;
    assert s <= rankings.Keys;
    SubsetCardinality(s, rankings.Keys);
  }

  lemma SubsetCardinality(a: set<string>, b: set<string>)
    requires a <= b
    ensures |a| <= |b|
  {
    assert b == a + (b - a);
  }

  /** Every initial relevance is a whole number between 0 and 100, and `calculateRelevance` leaves it unchanged. */
  lemma InitialRelevanceBounds(kw: KeywordRow)
    ensures 0.0 <= InitialRelevance(kw) <= 100.0
    ensures InitialRelevance(kw) == InitialRelevance(kw).Floor as real
    ensures CalculateRelevance(ProcessKeyword(kw)) == InitialRelevance(kw)
  {
    var total := |kw.rankings|;
    if !kw.isBrand && total > 0 {
      var part := Top30Count(kw.rankings);
      Top30CountAtMost(kw.rankings);
      assert (part as real / total as real) * 100.0 == 100.0 * part as real / total as real;
      RoundPercentBounds(part, total);
    }
  }

  /** Every ranked ASIN in 1..30 makes a non-brand keyword's relevance 100; none makes it 0. */
  lemma InitialRelevanceExtremes(kw: KeywordRow)
    requires !kw.isBrand && |kw.rankings| > 0
    ensures (forall a :: a in kw.rankings ==> 0 < kw.rankings[a] <= 30) ==> InitialRelevance(kw) == 100.0
    ensures (forall a :: a in kw.rankings ==> !(0 < kw.rankings[a] <= 30)) ==> InitialRelevance(kw) == 0.0
  {
    var s := set a | a in kw.rankings && 0 < kw.rankings[a] <= 30;
    if forall a :: a in kw.rankings ==> 0 < kw.rankings[a] <= 30 {
      assert s == kw.rankings.Keys;
      var n := |kw.rankings| as real;
      assert Top30Count(kw.rankings) as real == n;
      assert (n / n) * 100.0 == 100.0;
    }
    if forall a :: a in kw.rankings ==> !(0 < kw.rankings[a] <= 30) {
      assert s == {};
    }
  }

  /** A processed product always has a brand and a title. */
  lemma ProcessProductDefaults(p: ProductRow)
    ensures ProcessProduct(p).brand != "" && ProcessProduct(p).title != ""
    ensures p.brand == "" ==> ProcessProduct(p).brand == "Unknown"
    ensures p.title == "" ==> ProcessProduct(p).title == "Product " + p.asin
    ensures ProcessProduct(p).asin == p.asin && !ProcessProduct(p).isDeleted
  {
  }

  /**
   * Right after the initial processing nothing is soft-deleted: every keyword counts towards the market total, no
   * root record is marked deleted, every competitor is active and has a metrics entry.
   */
  lemma InitialMetrics(od: OriginalData, listingAge: string -> int)
    ensures var pd := InitialData(od, listingAge);
      var c := RecalculatedCalculations(pd, EmptyCalculations);
      c.totalMarketSV == SumSV(pd.keywords) &&
      (forall i :: 0 <= i < |pd.rootKeywords| ==> !pd.rootKeywords[i].isDeleted) &&
      (forall i :: 0 <= i < |pd.competitors| ==> pd.competitors[i].asin in c.competitorMetrics) &&
      c.competitorMetrics.Keys == ActiveAsins(pd.competitors, {})
  {
    FreshRecalculation(InitialData(od, listingAge));
  }

  /** The recalculation of data with nothing soft-deleted and a root index built from all keywords. */
  lemma FreshRecalculation(pd: ProcessedData)
    requires pd.deletedKeywords == {} && pd.deletedCompetitors == {}
    requires pd.rootKeywords == RootKeywordsOf(pd.keywords, {})
    ensures var c := RecalculatedCalculations(pd, EmptyCalculations);
      c.totalMarketSV == SumSV(pd.keywords) &&
      (forall i :: 0 <= i < |pd.rootKeywords| ==> !pd.rootKeywords[i].isDeleted) &&
      (forall i :: 0 <= i < |pd.competitors| ==> pd.competitors[i].asin in c.competitorMetrics) &&
      c.competitorMetrics.Keys == ActiveAsins(pd.competitors, {})
  {
    RecalculatedMarket(pd, EmptyCalculations);
    NoneDeleted(pd.keywords);
    forall i | 0 <= i < |pd.rootKeywords| ensures !pd.rootKeywords[i].isDeleted {
      RootKeywordsRecords(pd.keywords, {}, i);
    }
    forall i | 0 <= i < |pd.competitors| ensures pd.competitors[i].asin in ActiveAsins(pd.competitors, {}) {
    }
  }

  lemma {:induction false} NoneDeleted(ks: seq<Keyword>)
    ensures Deleted(ks, {}) == []
  {
    if ks != [] {
      NoneDeleted(ks[..|ks| - 1]);
    }
  }
}
