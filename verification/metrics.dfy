/**
 * The quantities `CalculationEngine.recalculateMetrics` derives from a
 * session: the strength tier of a percentage, the active keywords, search
 * volume sums, top-30 strength of an ASIN, the tier histogram and the
 * product scores. Everything here is a value-level specification; the
 * in-place updates that compute it are in module Engine.
 */
module Metrics {
  import opened Model

  /** `calculateStrengthLevel`: tiers with inclusive lower bounds 80, 65 and 30. */
  function StrengthLevelOf(p: real): (l: StrengthLevel)
    ensures l == MoltoForte <==> p >= 80.0
    ensures l == Forte <==> 65.0 <= p < 80.0
    ensures l == Medio <==> 30.0 <= p < 65.0
    ensures l == Debole <==> p < 30.0
  {
    if p >= 80.0 then MoltoForte
    else if p >= 65.0 then Forte
    else if p >= 30.0 then Medio
    else Debole
  }

  /** Tiers ordered from weakest (0) to strongest (3). */
  function Rank(l: StrengthLevel): nat {
    match l
    case Debole => 0
    case Medio => 1
    case Forte => 2
    case MoltoForte => 3
  }

  /** A larger percentage never gets a weaker tier. */
  lemma StrengthLevelMonotone(p: real, q: real)
    requires p <= q
    ensures Rank(StrengthLevelOf(p)) <= Rank(StrengthLevelOf(q))
  {
  }

  /** `getVariationCount`: the number of variation ASINs, and 1 when there are none. */
  function VariationCount(variationAsins: seq<string>): (n: int)
    ensures n >= 1
    ensures variationAsins == [] ==> n == 1
    ensures variationAsins != [] ==> n == |variationAsins|
  {
    if |variationAsins| == 0 then 1 else |variationAsins|
  }

  /** `calculateRelevance`: brand keywords have relevance 0, the others keep theirs. */
  function CalculateRelevance(k: Keyword): (r: real)
    ensures k.isBrand ==> r == 0.0
    ensures !k.isBrand ==> r == k.relevance
  {
    if k.isBrand then 0.0 else k.relevance
  }

  /** The keywords whose phrase is not soft-deleted, in list order. */
  function Active(ks: seq<Keyword>, deleted: set<string>): (r: seq<Keyword>)
    ensures |r| <= |ks|
  {
    if ks == [] then []
    else
      var init := Active(ks[..|ks| - 1], deleted);
      var k := ks[|ks| - 1];
      if k.phrase in deleted then init else init + [k]
  }

  /** The keywords whose phrase is soft-deleted. */
  function Deleted(ks: seq<Keyword>, deleted: set<string>): seq<Keyword> {
    if ks == [] then []
    else
      var init := Deleted(ks[..|ks| - 1], deleted);
      var k := ks[|ks| - 1];
      if k.phrase in deleted then init + [k] else init
  }

  function BrandKeywords(ks: seq<Keyword>): seq<Keyword> {
    if ks == [] then []
    else
      var init := BrandKeywords(ks[..|ks| - 1]);
      var k := ks[|ks| - 1];
      if k.isBrand then init + [k] else init
  }

  /** The top-30 test `ranking && ranking <= 30`: a ranking that exists, is not 0 and is at most 30 (a negative one passes). */
  predicate InTop30(k: Keyword, asin: string) {
    asin in k.rankings && k.rankings[asin] != 0 && k.rankings[asin] <= 30
  }

  function Top30Keywords(ks: seq<Keyword>, asin: string): seq<Keyword> {
    if ks == [] then []
    else
      var init := Top30Keywords(ks[..|ks| - 1], asin);
      var k := ks[|ks| - 1];
      if InTop30(k, asin) then init + [k] else init
  }

  function SumSV(ks: seq<Keyword>): int {
    if ks == [] then 0 else SumSV(ks[..|ks| - 1]) + ks[|ks| - 1].searchVolume
  }

  function Phrases(ks: seq<Keyword>): (r: seq<string>)
    ensures |r| == |ks|
    ensures forall i :: 0 <= i < |ks| ==> r[i] == ks[i].phrase
  {
    seq(|ks|, i requires 0 <= i < |ks| => ks[i].phrase)
  }

  /** `total > 0 ? (part / total) * 100 : 0` */
  function Percent(part: int, total: int): real {
    if total > 0 then (part as real / total as real) * 100.0 else 0.0
  }

  predicate NonNegativeSV(ks: seq<Keyword>) {
    forall i :: 0 <= i < |ks| ==> ks[i].searchVolume >= 0
  }

  // ---------------------------------------------------------------------
  // Facts about the filters and sums

  /** Membership in `Active`: exactly the keywords whose phrase is not deleted, in order. */
  lemma {:induction false} ActiveMembers(ks: seq<Keyword>, deleted: set<string>)
    ensures forall k :: k in Active(ks, deleted) <==> k in ks && k.phrase !in deleted
  {
    if ks != [] {
      ActiveMembers(ks[..|ks| - 1], deleted);
      assert ks == ks[..|ks| - 1] + [ks[|ks| - 1]];
    }
  }

  /** The active and deleted keywords partition the search volume: nothing is lost or counted twice. */
  lemma {:induction false} VolumeConservation(ks: seq<Keyword>, deleted: set<string>)
    ensures SumSV(Active(ks, deleted)) + SumSV(Deleted(ks, deleted)) == SumSV(ks)
    ensures |Active(ks, deleted)| + |Deleted(ks, deleted)| == |ks|
  {
    if ks != [] {
      var init := ks[..|ks| - 1];
      var k := ks[|ks| - 1];
      VolumeConservation(init, deleted);
      var a := Active(init, deleted);
      var d := Deleted(init, deleted);
      if k.phrase in deleted {
        assert (d + [k])[..|d + [k]| - 1] == d;
      } else {
        assert (a + [k])[..|a + [k]| - 1] == a;
      }
    }
  }

  /** The top-30 keywords of an ASIN carry between 0 and all of a non-negative search volume. */
  lemma {:induction false} Top30WithinTotal(ks: seq<Keyword>, asin: string)
    requires NonNegativeSV(ks)
    ensures 0 <= SumSV(Top30Keywords(ks, asin)) <= SumSV(ks)
  {
    if ks != [] {
      var init := ks[..|ks| - 1];
      var k := ks[|ks| - 1];
      Top30WithinTotal(init, asin);
      var t := Top30Keywords(init, asin);
      if InTop30(k, asin) {
        assert (t + [k])[..|t|] == t;
      }
    }
  }

  /** The brand keywords carry between 0 and all of a non-negative search volume. */
  lemma {:induction false} BrandWithinTotal(ks: seq<Keyword>)
    requires NonNegativeSV(ks)
    ensures 0 <= SumSV(BrandKeywords(ks)) <= SumSV(ks)
  {
    if ks != [] {
      var init := ks[..|ks| - 1];
      var k := ks[|ks| - 1];
      BrandWithinTotal(init);
      var b := BrandKeywords(init);
      if k.isBrand {
        assert (b + [k])[..|b|] == b;
      }
    }
  }

  lemma {:induction false} ActiveNonNegative(ks: seq<Keyword>, deleted: set<string>)
    requires NonNegativeSV(ks)
    ensures NonNegativeSV(Active(ks, deleted))
  {
    if ks != [] {
      ActiveNonNegative(ks[..|ks| - 1], deleted);
    }
  }

  /** With non-negative volumes, brand search volume never exceeds the market total. */
  lemma BrandWithinMarket(ks: seq<Keyword>, deleted: set<string>)
    requires NonNegativeSV(ks)
    ensures 0 <= SumSV(BrandKeywords(Active(ks, deleted))) <= SumSV(Active(ks, deleted))
  {
    ActiveNonNegative(ks, deleted);
    BrandWithinTotal(Active(ks, deleted));
  }

  /** A part of a non-negative whole is between 0 and 100 percent of it. */
  lemma PercentBounds(part: int, total: int)
    requires 0 <= part <= total
    ensures 0.0 <= Percent(part, total) <= 100.0
  {
    if total > 0 {
      var q := part as real / total as real;
      assert q * total as real == part as real;
      assert 0.0 <= q <= 1.0;
    }
  }

  /** The top-30 keywords of an ASIN are exactly the keywords that rank it non-zero and at most 30. */
  lemma {:induction false} Top30Members(ks: seq<Keyword>, asin: string)
    ensures forall k :: k in Top30Keywords(ks, asin) <==> k in ks && InTop30(k, asin)
  {
    if ks != [] {
      Top30Members(ks[..|ks| - 1], asin);
      assert ks == ks[..|ks| - 1] + [ks[|ks| - 1]];
    }
  }

  // ---------------------------------------------------------------------
  // Competitors

  function Top30SV(active: seq<Keyword>, asin: string): int {
    SumSV(Top30Keywords(active, asin))
  }

  /** A competitor after a recalculation: its flag mirrors `deletedCompetitors`; an active one is re-scored. */
  function RescoreCompetitor(c: Competitor, deleted: set<string>, active: seq<Keyword>, total: int): Competitor {
    var c' := c.(isDeleted := c.asin in deleted);
    if c.asin in deleted then c'
    else
      var p := Percent(Top30SV(active, c.asin), total);
      c'.(strengthPercentage := p, strengthLevel := StrengthLevelOf(p))
  }

  function RescoreCompetitors(cs: seq<Competitor>, deleted: set<string>, active: seq<Keyword>, total: int): (r: seq<Competitor>)
    ensures |r| == |cs|
  {
    seq(|cs|, i requires 0 <= i < |cs| => RescoreCompetitor(cs[i], deleted, active, total))
  }

  function MetricsFor(asin: string, active: seq<Keyword>, total: int): CompetitorMetrics {
    var sv := Top30SV(active, asin);
    var p := Percent(sv, total);
    CompetitorMetrics(asin, p, StrengthLevelOf(p), sv)
  }

  /** The ASINs of the competitors not in `deleted`. */
  function ActiveAsins(cs: seq<Competitor>, deleted: set<string>): set<string> {
    set i | 0 <= i < |cs| && cs[i].asin !in deleted :: cs[i].asin
  }

  /** `competitorMetrics` after a recalculation: active ASINs get fresh entries, all other entries stay. */
  function UpdatedMetrics(m: map<string, CompetitorMetrics>, cs: seq<Competitor>, deleted: set<string>, active: seq<Keyword>, total: int): map<string, CompetitorMetrics> {
    var live := ActiveAsins(cs, deleted);
    map a | a in m.Keys + live :: if a in live then MetricsFor(a, active, total) else m[a]
  }

  /** Number of competitors not in `deleted` whose tier is `l`. */
  function CountLevel(cs: seq<Competitor>, deleted: set<string>, l: StrengthLevel): nat {
    if cs == [] then 0
    else
      var c := cs[|cs| - 1];
      CountLevel(cs[..|cs| - 1], deleted, l) + (if c.asin !in deleted && c.strengthLevel == l then 1 else 0)
  }

  /** Number of competitors not in `deleted`. */
  function CountActive(cs: seq<Competitor>, deleted: set<string>): nat {
    if cs == [] then 0
    else CountActive(cs[..|cs| - 1], deleted) + (if cs[|cs| - 1].asin !in deleted then 1 else 0)
  }

  /** `updateStrengthSummary`: the tier histogram of the competitors not in `deleted`. */
  function Summarize(cs: seq<Competitor>, deleted: set<string>): StrengthSummary {
    StrengthSummary(
      CountLevel(cs, deleted, MoltoForte), CountLevel(cs, deleted, Forte),
      CountLevel(cs, deleted, Medio), CountLevel(cs, deleted, Debole))
  }

  function SummaryTotal(s: StrengthSummary): nat {
    s.moltoForte + s.forte + s.medio + s.debole
  }

  /** Every active competitor falls in exactly one tier: the histogram counts sum to the active competitors. */
  lemma {:induction false} SummaryCountsActive(cs: seq<Competitor>, deleted: set<string>)
    ensures SummaryTotal(Summarize(cs, deleted)) == CountActive(cs, deleted)
  {
    if cs != [] {
      SummaryCountsActive(cs[..|cs| - 1], deleted);
    }
  }

  /** `CountActive` is the number of list positions holding an active competitor. */
  lemma {:induction false} CountActiveIsCardinality(cs: seq<Competitor>, deleted: set<string>)
    ensures CountActive(cs, deleted) == |set i | 0 <= i < |cs| && cs[i].asin !in deleted|
  {
    if cs != [] {
      var n := |cs| - 1;
      var init := cs[..n];
      CountActiveIsCardinality(init, deleted);
      var a := set i | 0 <= i < n && init[i].asin !in deleted;
      var b := set i | 0 <= i < |cs| && cs[i].asin !in deleted;
      if cs[n].asin !in deleted {
        assert b == a + {n};
      } else {
        assert b == a;
      }
    }
  }

  // ---------------------------------------------------------------------
  // Products

  /** `recalculateProductMetrics` on one product: its top-30 matches among `active`, their count and its strength. */
  function ScoreProduct(p: Product, active: seq<Keyword>, total: int): Product {
    var m := Top30Keywords(active, p.asin);
    var pct := Percent(SumSV(m), total);
    p.(keywordCount := |m|, matchingKeywords := Phrases(m),
       strengthPercentage := pct, strengthLevel := StrengthLevelOf(pct))
  }

  /** A product after a recalculation: flag mirrors `deletedProducts`; every product, deleted or not, is re-scored. */
  function RescoreProduct(p: Product, deleted: set<string>, active: seq<Keyword>, total: int): Product {
    ScoreProduct(p.(isDeleted := p.asin in deleted), active, total)
  }

  function RescoreProducts(ps: seq<Product>, deleted: set<string>, active: seq<Keyword>, total: int): (r: seq<Product>)
    ensures |r| == |ps|
  {
    seq(|ps|, i requires 0 <= i < |ps| => RescoreProduct(ps[i], deleted, active, total))
  }

  function SyncKeywords(ks: seq<Keyword>, deleted: set<string>): (r: seq<Keyword>)
    ensures |r| == |ks|
  {
    seq(|ks|, i requires 0 <= i < |ks| => ks[i].(isDeleted := ks[i].phrase in deleted))
  }

  // ---------------------------------------------------------------------
  // The whole recalculation

  /** The keywords with their flags resynchronised, then those not soft-deleted. */
  function ActiveAfterSync(pd: ProcessedData): seq<Keyword> {
    Active(SyncKeywords(pd.keywords, pd.deletedKeywords), pd.deletedKeywords)
  }

  /** `recalculateMetrics`, effect on the processed lists. */
  function RecalculatedData(pd: ProcessedData): ProcessedData {
    var active := ActiveAfterSync(pd);
    var total := SumSV(active);
    pd.(keywords := SyncKeywords(pd.keywords, pd.deletedKeywords),
        competitors := RescoreCompetitors(pd.competitors, pd.deletedCompetitors, active, total),
        products := RescoreProducts(pd.products, pd.deletedProducts, active, total))
  }

  /** `recalculateMetrics`, effect on the calculations. */
  function RecalculatedCalculations(pd: ProcessedData, calcs: Calculations): Calculations {
    var active := ActiveAfterSync(pd);
    var total := SumSV(active);
    Calculations(
      total,
      SumSV(BrandKeywords(active)),
      Summarize(RescoreCompetitors(pd.competitors, pd.deletedCompetitors, active, total), pd.deletedCompetitors),
      UpdatedMetrics(calcs.competitorMetrics, pd.competitors, pd.deletedCompetitors, active, total))
  }

  // ---------------------------------------------------------------------
  // The recalculation as the source performs it: first the flags, then the scores

  function SyncCompetitors(cs: seq<Competitor>, deleted: set<string>): (r: seq<Competitor>)
    ensures |r| == |cs|
  {
    seq(|cs|, i requires 0 <= i < |cs| => cs[i].(isDeleted := cs[i].asin in deleted))
  }

  function SyncProducts(ps: seq<Product>, deleted: set<string>): (r: seq<Product>)
    ensures |r| == |ps|
  {
    seq(|ps|, i requires 0 <= i < |ps| => ps[i].(isDeleted := ps[i].asin in deleted))
  }

  /** The competitor loop of `recalculateMetrics`: competitors not in `deleted` get a fresh strength. */
  function ScoreCompetitors(cs: seq<Competitor>, deleted: set<string>, active: seq<Keyword>, total: int): (r: seq<Competitor>)
    ensures |r| == |cs|
  {
    seq(|cs|, i requires 0 <= i < |cs| =>
      if cs[i].asin in deleted then cs[i]
      else
        var p := Percent(Top30SV(active, cs[i].asin), total);
        cs[i].(strengthPercentage := p, strengthLevel := StrengthLevelOf(p)))
  }

  /** `recalculateProductMetrics`: every product is scored. */
  function ScoreProducts(ps: seq<Product>, active: seq<Keyword>, total: int): (r: seq<Product>)
    ensures |r| == |ps|
  {
    seq(|ps|, i requires 0 <= i < |ps| => ScoreProduct(ps[i], active, total))
  }

  /**
   * Syncing the flags and then scoring is the one-step re-score; syncing changes neither the active ASINs nor
   * the number of active competitors.
   */
  lemma SyncThenScore(pd: ProcessedData, active: seq<Keyword>, total: int)
    ensures ScoreCompetitors(SyncCompetitors(pd.competitors, pd.deletedCompetitors), pd.deletedCompetitors, active, total) ==
            RescoreCompetitors(pd.competitors, pd.deletedCompetitors, active, total)
    ensures ScoreProducts(SyncProducts(pd.products, pd.deletedProducts), active, total) ==
            RescoreProducts(pd.products, pd.deletedProducts, active, total)
    ensures ActiveAsins(SyncCompetitors(pd.competitors, pd.deletedCompetitors), pd.deletedCompetitors) ==
            ActiveAsins(pd.competitors, pd.deletedCompetitors)
  {
    var sc := SyncCompetitors(pd.competitors, pd.deletedCompetitors);
    assert SameAsins(sc, pd.competitors);
    ActiveAsinsSame(sc, pd.competitors, pd.deletedCompetitors);
  }

  /** `ActiveAsins` grows by the last competitor when it is active. */
  lemma ActiveAsinsSnoc(cs: seq<Competitor>, deleted: set<string>)
    requires cs != []
    ensures var c := cs[|cs| - 1];
      ActiveAsins(cs, deleted) == ActiveAsins(cs[..|cs| - 1], deleted) + (if c.asin !in deleted then {c.asin} else {})
  {
    var init := cs[..|cs| - 1];
    forall a | a in ActiveAsins(cs, deleted)
      ensures a in ActiveAsins(init, deleted) + (if cs[|cs| - 1].asin !in deleted then {cs[|cs| - 1].asin} else {})
    {
      var i :| 0 <= i < |cs| && cs[i].asin !in deleted && cs[i].asin == a;
      if i < |init| { assert init[i] == cs[i]; }
    }
    forall a | a in ActiveAsins(init, deleted) ensures a in ActiveAsins(cs, deleted) {
      var i :| 0 <= i < |init| && init[i].asin !in deleted && init[i].asin == a;
      assert cs[i] == init[i];
    }
  }

  /** One more competitor in the metrics loop: an active one (re)sets its entry, a deleted one changes nothing. */
  lemma UpdatedMetricsSnoc(m: map<string, CompetitorMetrics>, cs: seq<Competitor>, deleted: set<string>, active: seq<Keyword>, total: int)
    requires cs != []
    ensures var c := cs[|cs| - 1];
      var prev := UpdatedMetrics(m, cs[..|cs| - 1], deleted, active, total);
      UpdatedMetrics(m, cs, deleted, active, total) ==
        if c.asin !in deleted then prev[c.asin := MetricsFor(c.asin, active, total)] else prev
  {
    ActiveAsinsSnoc(cs, deleted);
  }

  /** Resynchronising flags changes neither which keywords are active nor their volumes. */
  lemma {:induction false} SyncKeepsVolume(ks: seq<Keyword>, deleted: set<string>)
    ensures SumSV(Active(SyncKeywords(ks, deleted), deleted)) == SumSV(Active(ks, deleted))
    ensures |Active(SyncKeywords(ks, deleted), deleted)| == |Active(ks, deleted)|
  {
    if ks != [] {
      var n := |ks| - 1;
      SyncKeepsVolume(ks[..n], deleted);
      var s := SyncKeywords(ks, deleted);
      assert s[..n] == SyncKeywords(ks[..n], deleted);
      var a := Active(s[..n], deleted);
      if ks[n].phrase !in deleted {
        assert (a + [s[n]])[..|a|] == a;
        var b := Active(ks[..n], deleted);
        assert (b + [ks[n]])[..|b|] == b;
      }
    }
  }

  /** After a recalculation every flag equals membership in its soft-delete set. */
  lemma RecalculatedFlags(pd: ProcessedData)
    ensures var r := RecalculatedData(pd);
      (forall i :: 0 <= i < |r.keywords| ==> r.keywords[i].isDeleted == (r.keywords[i].phrase in r.deletedKeywords)) &&
      (forall i :: 0 <= i < |r.competitors| ==> r.competitors[i].isDeleted == (r.competitors[i].asin in r.deletedCompetitors)) &&
      (forall i :: 0 <= i < |r.products| ==> r.products[i].isDeleted == (r.products[i].asin in r.deletedProducts))
  {
  }

  /** The market total is the search volume of the keywords that are not soft-deleted: everything minus the deleted ones. */
  lemma RecalculatedMarket(pd: ProcessedData, calcs: Calculations)
    ensures var c := RecalculatedCalculations(pd, calcs);
      c.totalMarketSV == SumSV(Active(pd.keywords, pd.deletedKeywords)) &&
      c.totalMarketSV == SumSV(pd.keywords) - SumSV(Deleted(pd.keywords, pd.deletedKeywords))
    ensures NonNegativeSV(pd.keywords) ==>
      var c := RecalculatedCalculations(pd, calcs); 0 <= c.brandSV <= c.totalMarketSV
  {
    SyncKeepsVolume(pd.keywords, pd.deletedKeywords);
    VolumeConservation(pd.keywords, pd.deletedKeywords);
    if NonNegativeSV(pd.keywords) {
      var s := SyncKeywords(pd.keywords, pd.deletedKeywords);
      assert NonNegativeSV(s);
      BrandWithinMarket(s, pd.deletedKeywords);
    }
  }

  /**
   * An active competitor gets `100 * top30SV / totalMarketSV` (0 for an empty market), between 0 and 100 when no
   * search volume is negative, the
   * tier of that value, and a metrics entry that mirrors it; a soft-deleted one keeps its strength fields.
   */
  lemma RecalculatedCompetitor(pd: ProcessedData, calcs: Calculations, i: int)
    requires 0 <= i < |pd.competitors|
    ensures var r := RecalculatedData(pd);
      var c := RecalculatedCalculations(pd, calcs);
      var old_c := pd.competitors[i];
      var new_c := r.competitors[i];
      var active := ActiveAfterSync(pd);
      if old_c.asin in pd.deletedCompetitors then
        new_c == old_c.(isDeleted := true)
      else
        new_c == old_c.(isDeleted := false, strengthPercentage := new_c.strengthPercentage,
                        strengthLevel := new_c.strengthLevel) &&
        new_c.strengthPercentage == Percent(Top30SV(active, old_c.asin), c.totalMarketSV) &&
        (NonNegativeSV(pd.keywords) ==> 0.0 <= new_c.strengthPercentage <= 100.0) &&
        new_c.strengthLevel == StrengthLevelOf(new_c.strengthPercentage) &&
        old_c.asin in c.competitorMetrics &&
        c.competitorMetrics[old_c.asin] ==
          CompetitorMetrics(old_c.asin, new_c.strengthPercentage, new_c.strengthLevel, Top30SV(active, old_c.asin))
  {
    var s := SyncKeywords(pd.keywords, pd.deletedKeywords);
    var active := Active(s, pd.deletedKeywords);
    var asin := pd.competitors[i].asin;
    if NonNegativeSV(pd.keywords) {
      assert NonNegativeSV(s);
      ActiveNonNegative(s, pd.deletedKeywords);
      Top30WithinTotal(active, asin);
      PercentBounds(Top30SV(active, asin), SumSV(active));
    }
    if asin !in pd.deletedCompetitors {
      assert asin in ActiveAsins(pd.competitors, pd.deletedCompetitors);
    }
  }

  /** `competitorMetrics` entries of ASINs that are not active competitors are kept as they were. */
  lemma RecalculatedKeepsStaleMetrics(pd: ProcessedData, calcs: Calculations, asin: string)
    requires asin in calcs.competitorMetrics
    requires asin !in ActiveAsins(pd.competitors, pd.deletedCompetitors)
    ensures var c := RecalculatedCalculations(pd, calcs);
      asin in c.competitorMetrics && c.competitorMetrics[asin] == calcs.competitorMetrics[asin]
  {
  }

  predicate SameAsins(a: seq<Competitor>, b: seq<Competitor>) {
    |a| == |b| && forall i :: 0 <= i < |a| ==> a[i].asin == b[i].asin
  }

  lemma {:induction false} CountActiveSameAsins(a: seq<Competitor>, b: seq<Competitor>, deleted: set<string>)
    requires SameAsins(a, b)
    ensures CountActive(a, deleted) == CountActive(b, deleted)
  {
    if a != [] {
      CountActiveSameAsins(a[..|a| - 1], b[..|b| - 1], deleted);
    }
  }

  lemma ActiveAsinsSame(a: seq<Competitor>, b: seq<Competitor>, deleted: set<string>)
    requires SameAsins(a, b)
    ensures ActiveAsins(a, deleted) == ActiveAsins(b, deleted)
  {
    forall x | x in ActiveAsins(a, deleted) ensures x in ActiveAsins(b, deleted) {
      var i :| 0 <= i < |a| && a[i].asin !in deleted && a[i].asin == x;
      assert b[i].asin == x;
    }
    forall x | x in ActiveAsins(b, deleted) ensures x in ActiveAsins(a, deleted) {
      var i :| 0 <= i < |b| && b[i].asin !in deleted && b[i].asin == x;
      assert a[i].asin == x;
    }
  }

  /** The histogram counts the active competitors by their new tier, and its counts sum to their number. */
  lemma RecalculatedSummary(pd: ProcessedData, calcs: Calculations)
    ensures var r := RecalculatedData(pd);
      var c := RecalculatedCalculations(pd, calcs);
      c.strengthSummary == Summarize(r.competitors, r.deletedCompetitors) &&
      SummaryTotal(c.strengthSummary) == |set i | 0 <= i < |pd.competitors| && pd.competitors[i].asin !in pd.deletedCompetitors|
  {
    var r := RecalculatedData(pd);
    SummaryCountsActive(r.competitors, r.deletedCompetitors);
    CountActiveSameAsins(r.competitors, pd.competitors, pd.deletedCompetitors);
    CountActiveIsCardinality(pd.competitors, pd.deletedCompetitors);
  }

  /**
   * Every product, deleted or not, lists as matching exactly the active phrases that rank its ASIN non-zero and at
   * most 30, in keyword order, counts them, and is scored like a competitor; its other fields are kept.
   */
  lemma RecalculatedProduct(pd: ProcessedData, i: int)
    requires 0 <= i < |pd.products|
    ensures var r := RecalculatedData(pd);
      var p := r.products[i];
      var active := ActiveAfterSync(pd);
      p == pd.products[i].(isDeleted := pd.products[i].asin in pd.deletedProducts,
                           keywordCount := p.keywordCount, matchingKeywords := p.matchingKeywords,
                           strengthPercentage := p.strengthPercentage, strengthLevel := p.strengthLevel) &&
      p.keywordCount == |p.matchingKeywords| &&
      IsSubsequence(p.matchingKeywords, Phrases(pd.keywords)) &&
      (forall ph :: ph in p.matchingKeywords <==>
        exists k :: k in pd.keywords && k.phrase == ph && k.phrase !in pd.deletedKeywords && InTop30(k, pd.products[i].asin)) &&
      p.strengthPercentage == Percent(SumSV(Top30Keywords(active, p.asin)), SumSV(active)) &&
      p.strengthLevel == StrengthLevelOf(p.strengthPercentage)
  {
    var asin := pd.products[i].asin;
    forall ph ensures ph in Phrases(Top30Keywords(ActiveAfterSync(pd), asin)) <==>
      exists k :: k in pd.keywords && k.phrase == ph && k.phrase !in pd.deletedKeywords && InTop30(k, asin)
    {
      MatchingPhrase(pd.keywords, pd.deletedKeywords, asin, ph);
    }
    MatchingInKeywordOrder(pd.keywords, pd.deletedKeywords, asin);
  }

  /** `a` is `b` with some elements left out and the others kept in their order. */
  predicate IsSubsequence<T(==)>(a: seq<T>, b: seq<T>)
    decreases |b|
  {
    if b == [] then a == []
    else
      (a != [] && a[|a| - 1] == b[|b| - 1] && IsSubsequence(a[..|a| - 1], b[..|b| - 1])) ||
      IsSubsequence(a, b[..|b| - 1])
  }

  /** The phrases matching an ASIN appear in the order of their keywords. */
  lemma {:induction false} MatchingInKeywordOrder(ks: seq<Keyword>, deleted: set<string>, asin: string)
    ensures IsSubsequence(Phrases(Top30Keywords(Active(SyncKeywords(ks, deleted), deleted), asin)), Phrases(ks))
  {
    if ks != [] {
      var init := ks[..|ks| - 1];
      var k := ks[|ks| - 1];
      MatchingInKeywordOrder(init, deleted, asin);
      var s := SyncKeywords(ks, deleted);
      assert s[..|s| - 1] == SyncKeywords(init, deleted);
      var prev := Top30Keywords(Active(SyncKeywords(init, deleted), deleted), asin);
      var m := Top30Keywords(Active(s, deleted), asin);
      assert Phrases(ks)[..|ks| - 1] == Phrases(init);
      assert m == prev || m == prev + [s[|s| - 1]];
      if m != prev {
        assert Phrases(m)[..|m| - 1] == Phrases(prev);
      }
    }
  }

  /** A phrase matches a product exactly when an active keyword with that phrase ranks the product in the top 30. */
  lemma MatchingPhrase(ks: seq<Keyword>, deleted: set<string>, asin: string, ph: string)
    ensures ph in Phrases(Top30Keywords(Active(SyncKeywords(ks, deleted), deleted), asin)) <==>
      exists k :: k in ks && k.phrase == ph && k.phrase !in deleted && InTop30(k, asin)
  {
    if ph in Phrases(Top30Keywords(Active(SyncKeywords(ks, deleted), deleted), asin)) {
      MatchedHasKeyword(ks, deleted, asin, ph);
    }
    if exists k :: k in ks && k.phrase == ph && k.phrase !in deleted && InTop30(k, asin) {
      var k :| k in ks && k.phrase == ph && k.phrase !in deleted && InTop30(k, asin);
      KeywordMatched(ks, deleted, asin, k);
    }
  }

  lemma MatchedHasKeyword(ks: seq<Keyword>, deleted: set<string>, asin: string, ph: string)
    requires ph in Phrases(Top30Keywords(Active(SyncKeywords(ks, deleted), deleted), asin))
    ensures exists k :: k in ks && k.phrase == ph && k.phrase !in deleted && InTop30(k, asin)
  {
    var s := SyncKeywords(ks, deleted);
    var m := Top30Keywords(Active(s, deleted), asin);
    var j :| 0 <= j < |m| && Phrases(m)[j] == ph;
    var k' := m[j];
    Top30Members(Active(s, deleted), asin);
    ActiveMembers(s, deleted);
    assert k' in s;
    var t :| 0 <= t < |s| && s[t] == k';
    assert ks[t] in ks && ks[t].phrase == ph;
  }

  lemma KeywordMatched(ks: seq<Keyword>, deleted: set<string>, asin: string, k: Keyword)
    requires k in ks && k.phrase !in deleted && InTop30(k, asin)
    ensures k.phrase in Phrases(Top30Keywords(Active(SyncKeywords(ks, deleted), deleted), asin))
  {
    var s := SyncKeywords(ks, deleted);
    var m := Top30Keywords(Active(s, deleted), asin);
    var t :| 0 <= t < |ks| && ks[t] == k;
    Top30Members(Active(s, deleted), asin);
    ActiveMembers(s, deleted);
    assert s[t] in m;
    var j :| 0 <= j < |m| && m[j] == s[t];
    assert Phrases(m)[j] == k.phrase;
  }

  /** Recalculating twice is the same as recalculating once. */
  lemma RecalculateIdempotent(pd: ProcessedData, calcs: Calculations)
    ensures RecalculatedData(RecalculatedData(pd)) == RecalculatedData(pd)
    ensures RecalculatedCalculations(RecalculatedData(pd), RecalculatedCalculations(pd, calcs)) ==
            RecalculatedCalculations(pd, calcs)
  {
    DataTwice(pd);
    CalculationsTwice(pd, calcs);
  }

  lemma DataTwice(pd: ProcessedData)
    ensures RecalculatedData(RecalculatedData(pd)) == RecalculatedData(pd)
  {
    var r := RecalculatedData(pd);
    assert ActiveAfterSync(r) == ActiveAfterSync(pd) by {
      SyncTwice(pd.keywords, pd.deletedKeywords);
    }
    var active := ActiveAfterSync(pd);
    var total := SumSV(active);
    SyncTwice(pd.keywords, pd.deletedKeywords);
    RescoreCompetitorsTwice(pd.competitors, pd.deletedCompetitors, active, total);
    RescoreProductsTwice(pd.products, pd.deletedProducts, active, total);
  }

  lemma CalculationsTwice(pd: ProcessedData, calcs: Calculations)
    ensures RecalculatedCalculations(RecalculatedData(pd), RecalculatedCalculations(pd, calcs)) ==
            RecalculatedCalculations(pd, calcs)
  {
    var r := RecalculatedData(pd);
    assert ActiveAfterSync(r) == ActiveAfterSync(pd) by {
      SyncTwice(pd.keywords, pd.deletedKeywords);
    }
    var active := ActiveAfterSync(pd);
    var total := SumSV(active);
    RescoreCompetitorsTwice(pd.competitors, pd.deletedCompetitors, active, total);
    ActiveAsinsSame(r.competitors, pd.competitors, pd.deletedCompetitors);
    UpdatedMetricsTwice(calcs.competitorMetrics, pd.competitors, r.competitors, pd.deletedCompetitors, active, total);
  }

  lemma UpdatedMetricsTwice(m: map<string, CompetitorMetrics>, cs: seq<Competitor>, cs': seq<Competitor>,
                            deleted: set<string>, active: seq<Keyword>, total: int)
    requires ActiveAsins(cs', deleted) == ActiveAsins(cs, deleted)
    ensures var m' := UpdatedMetrics(m, cs, deleted, active, total);
      UpdatedMetrics(m', cs', deleted, active, total) == m'
  {
  }

  lemma SyncTwice(ks: seq<Keyword>, deleted: set<string>)
    ensures SyncKeywords(SyncKeywords(ks, deleted), deleted) == SyncKeywords(ks, deleted)
  {
  }

  lemma RescoreCompetitorsTwice(cs: seq<Competitor>, deleted: set<string>, active: seq<Keyword>, total: int)
    ensures var r := RescoreCompetitors(cs, deleted, active, total);
      RescoreCompetitors(r, deleted, active, total) == r && SameAsins(r, cs)
  {
  }

  lemma RescoreProductsTwice(ps: seq<Product>, deleted: set<string>, active: seq<Keyword>, total: int)
    ensures var r := RescoreProducts(ps, deleted, active, total);
      RescoreProducts(r, deleted, active, total) == r
  {
  }
}
