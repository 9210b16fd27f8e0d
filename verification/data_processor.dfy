/**
 * The session store of the backend: the in-memory map from session id to
 * analysis session, the four update operations that soft-delete and restore
 * keywords, root words, competitors and products of one session, and the
 * read-only analysis view with its market summary.
 */
module DataProcessor {
  import opened Wrappers
  import opened Numbers
  import opened Model
  import opened Metrics
  import opened Cascade
  import opened Revenue
  import opened Engine
  import Initial

  const SessionNotFound := "Session not found"

  // ---------------------------------------------------------------------
  // What each update does to the processed data, before any recalculation

  /** `updateKeywords`: the deleted phrases are added to the set, then the restored ones removed. */
  function KeywordsUpdated(pd: ProcessedData, deleted: seq<string>, restored: seq<string>): ProcessedData {
    pd.(deletedKeywords := (pd.deletedKeywords + Elements(deleted)) - Elements(restored))
  }

  /** `updateRootKeywords`: the root cascade for the deleted words, then for the restored ones; an empty list is skipped. */
  function RootsUpdated(pd: ProcessedData, deleted: seq<string>, restored: seq<string>): ProcessedData {
    var d := if |deleted| > 0 then Cascade.DeleteRootKeywords(pd, deleted) else pd;
    if |restored| > 0 then Cascade.RestoreRootKeywords(d, restored) else d
  }

  /** `updateCompetitors`: the deleted ASINs are soft-deleted one by one, then the restored ones un-deleted. */
  function CompetitorsUpdated(pd: ProcessedData, deleted: seq<string>, restored: seq<string>): ProcessedData {
    ApplyAll(ApplyAll(pd, DeleteCompetitor, deleted), RestoreCompetitor, restored)
  }

  /** `updateProducts`: the product cascade for the deleted ASINs, then for the restored ones. */
  function ProductsUpdated(pd: ProcessedData, deleted: seq<string>, restored: seq<string>): ProcessedData {
    ApplyAll(ApplyAll(pd, DeleteProduct, deleted), RestoreProduct, restored)
  }

  // ---------------------------------------------------------------------
  // The analysis view

  /** The competitors whose ASIN is not soft-deleted, in order. */
  function ActiveCompetitors(cs: seq<Competitor>, deleted: set<string>): seq<Competitor> {
    if cs == [] then []
    else ActiveCompetitors(cs[..|cs| - 1], deleted) + (if cs[|cs| - 1].asin !in deleted then [cs[|cs| - 1]] else [])
  }

  /** The distinct brands of `cs`. */
  function Brands(cs: seq<Competitor>): set<string> {
    set i | 0 <= i < |cs| :: cs[i].brand
  }

  /** The market summary of a session. */
  function SummaryOf(pd: ProcessedData, calcs: Calculations): MarketSummary {
    var active := ActiveCompetitors(pd.competitors, pd.deletedCompetitors);
    MarketSummary(
      calcs.totalMarketSV, calcs.brandSV, |Brands(active)|,
      |Active(pd.keywords, pd.deletedKeywords)|, |pd.deletedKeywords|, TotalRevenue(active))
  }

  /** `getAnalysisData` for a session that exists: the summary and the session's own lists. */
  function AnalysisOf(id: string, pd: ProcessedData, calcs: Calculations): AnalysisData {
    AnalysisData(id, SummaryOf(pd, calcs), pd.competitors, pd.keywords, pd.rootKeywords, pd.products,
      calcs.strengthSummary)
  }

  // ---------------------------------------------------------------------
  // The store

  /** The sessions held in memory, by id; reloading a session from disk is not modelled. */
  class Store {
    var sessions: map<string, Session>

    constructor (sessions: map<string, Session>)
      ensures this.sessions == sessions
    {
      this.sessions := sessions;
    }

    /** `updateKeywords`: adds the deleted phrases, removes the restored ones, then recalculates. */
    method UpdateKeywords(sessionId: string, deleted: seq<string>, restored: seq<string>) returns (r: Result<bool, string>)
      modifies if sessionId in sessions then {sessions[sessionId]} else {}
      ensures sessionId !in sessions ==> r == Failure(SessionNotFound)
      ensures sessionId in sessions ==>
        r == Success(true) &&
        var s := sessions[sessionId];
        var pd := KeywordsUpdated(old(s.processedData), deleted, restored);
        s.processedData == RecalculatedData(pd) &&
        s.calculations == RecalculatedCalculations(pd, old(s.calculations)) &&
        s.originalData == old(s.originalData)
    {
      if sessionId !in sessions {
        return Failure(SessionNotFound);
      }
      var s := sessions[sessionId];
      ghost var pd := s.processedData;
      var i := 0;
      while i < |deleted|
        invariant 0 <= i <= |deleted|
        invariant s.processedData == pd.(deletedKeywords := pd.deletedKeywords + Elements(deleted[..i]))
        invariant s.calculations == old(s.calculations) && s.originalData == old(s.originalData)
      {
        s.processedData := s.processedData.(deletedKeywords := s.processedData.deletedKeywords + {deleted[i]});
        ElementsSnoc(deleted[..i + 1]);
        assert deleted[..i + 1][..i] == deleted[..i];
        i := i + 1;
      }
      assert deleted[..i] == deleted;
      i := 0;
      while i < |restored|
        invariant 0 <= i <= |restored|
        invariant s.processedData ==
          pd.(deletedKeywords := (pd.deletedKeywords + Elements(deleted)) - Elements(restored[..i]))
        invariant s.calculations == old(s.calculations) && s.originalData == old(s.originalData)
      {
        s.processedData := s.processedData.(deletedKeywords := s.processedData.deletedKeywords - {restored[i]});
        ElementsSnoc(restored[..i + 1]);
        assert restored[..i + 1][..i] == restored[..i];
        i := i + 1;
      }
      assert restored[..i] == restored;
      RecalculateMetrics(s);
      r := Success(true);
    }

    /** `updateRootKeywords`: the root cascades, deletions first, then a recalculation. */
    method UpdateRootKeywords(sessionId: string, deleted: seq<string>, restored: seq<string>) returns (r: Result<bool, string>)
      modifies if sessionId in sessions then {sessions[sessionId]} else {}
      ensures sessionId !in sessions ==> r == Failure(SessionNotFound)
      ensures sessionId in sessions ==>
        r == Success(true) &&
        var s := sessions[sessionId];
        var pd := RootsUpdated(old(s.processedData), deleted, restored);
        s.processedData == RecalculatedData(pd) &&
        s.calculations == RecalculatedCalculations(pd, old(s.calculations)) &&
        s.originalData == old(s.originalData)
    {
      if sessionId !in sessions {
        return Failure(SessionNotFound);
      }
      var s := sessions[sessionId];
      if |deleted| > 0 {
        Engine.DeleteRootKeywords(s, deleted);
      }
      if |restored| > 0 {
        Engine.RestoreRootKeywords(s, restored);
      }
      RecalculateMetrics(s);
      r := Success(true);
    }

    /** `updateCompetitors`: the competitor soft-deletes, deletions first, then a recalculation. */
    method UpdateCompetitors(sessionId: string, deleted: seq<string>, restored: seq<string>) returns (r: Result<bool, string>)
      modifies if sessionId in sessions then {sessions[sessionId]} else {}
      ensures sessionId !in sessions ==> r == Failure(SessionNotFound)
      ensures sessionId in sessions ==>
        r == Success(true) &&
        var s := sessions[sessionId];
        var pd := CompetitorsUpdated(old(s.processedData), deleted, restored);
        s.processedData == RecalculatedData(pd) &&
        s.calculations == RecalculatedCalculations(pd, old(s.calculations)) &&
        s.originalData == old(s.originalData)
    {
      if sessionId !in sessions {
        return Failure(SessionNotFound);
      }
      var s := sessions[sessionId];
      if |deleted| > 0 {
        Engine.DeleteCompetitors(s, deleted);
      }
      if |restored| > 0 {
        Engine.RestoreCompetitors(s, restored);
      }
      RecalculateMetrics(s);
      r := Success(true);
    }

    /** `updateProducts`: the product cascades, deletions first, and no recalculation. */
    method UpdateProducts(sessionId: string, deleted: seq<string>, restored: seq<string>) returns (r: Result<bool, string>)
      modifies if sessionId in sessions then {sessions[sessionId]} else {}
      ensures sessionId !in sessions ==> r == Failure(SessionNotFound)
      ensures sessionId in sessions ==>
        r == Success(true) &&
        var s := sessions[sessionId];
        s.processedData == ProductsUpdated(old(s.processedData), deleted, restored) &&
        s.calculations == old(s.calculations) &&
        s.originalData == old(s.originalData)
    {
      if sessionId !in sessions {
        return Failure(SessionNotFound);
      }
      var s := sessions[sessionId];
      if |deleted| > 0 {
        Engine.DeleteProducts(s, deleted);
      }
      if |restored| > 0 {
        Engine.RestoreProducts(s, restored);
      }
      r := Success(true);
    }

    /** `getAnalysisData`: nothing for an unknown session, otherwise its summary and lists. */
    method GetAnalysisData(sessionId: string) returns (r: Option<AnalysisData>)
      ensures sessionId !in sessions ==> r == None
      ensures sessionId in sessions ==>
        var s := sessions[sessionId];
        r == Some(AnalysisOf(s.id, s.processedData, s.calculations))
    {
      if sessionId !in sessions {
        return None;
      }
      var s := sessions[sessionId];
      var pd := s.processedData;
      var activeKeywords := FilterActive(pd.keywords, pd.deletedKeywords);
      var activeCompetitors := FilterActiveCompetitors(pd.competitors, pd.deletedCompetitors);
      var totalRevenue := SumRevenue(activeCompetitors);
      var brands := set i | 0 <= i < |activeCompetitors| :: activeCompetitors[i].brand;
      var summary := MarketSummary(
        s.calculations.totalMarketSV, s.calculations.brandSV, |brands|,
        |activeKeywords|, |pd.deletedKeywords|, totalRevenue);
      r := Some(AnalysisData(s.id, summary, pd.competitors, pd.keywords, pd.rootKeywords, pd.products,
        s.calculations.strengthSummary));
    }
  }

  /** `competitors.filter(c => !deleted.has(c.asin))` */
  method FilterActiveCompetitors(cs: seq<Competitor>, deleted: set<string>) returns (active: seq<Competitor>)
    ensures active == ActiveCompetitors(cs, deleted)
  {
    active := [];
    var i := 0;
    while i < |cs|
      invariant 0 <= i <= |cs|
      invariant active == ActiveCompetitors(cs[..i], deleted)
    {
      assert cs[..i + 1][..i] == cs[..i];
      if cs[i].asin !in deleted {
        active := active + [cs[i]];
      }
      i := i + 1;
    }
    assert cs[..i] == cs;
  }

  /** The `reduce` over the active competitors that adds up their revenue amounts. */
  method SumRevenue(cs: seq<Competitor>) returns (total: real)
    ensures total == TotalRevenue(cs)
  {
    total := 0.0;
    var i := 0;
    while i < |cs|
      invariant 0 <= i <= |cs|
      invariant total == TotalRevenue(cs[..i])
    {
      assert cs[..i + 1][..i] == cs[..i];
      if cs[i].revenue != "" {
        total := total + ParseFloatOr0(NormalizeRevenue(cs[i].revenue));
      }
      i := i + 1;
    }
    assert cs[..i] == cs;
  }

  // ---------------------------------------------------------------------
  // What the updates promise

  /**
   * After `updateKeywords` a listed keyword's flag says deleted iff its phrase was restored by neither list and
   * was deleted before or is named for deletion: restoration wins. The root index and the deleted roots are
   * left as they were, so the index is not refreshed.
   */
  lemma UpdatedKeywordFlag(pd: ProcessedData, deleted: seq<string>, restored: seq<string>, i: int)
    requires 0 <= i < |pd.keywords|
    ensures var r := RecalculatedData(KeywordsUpdated(pd, deleted, restored));
      var p := pd.keywords[i].phrase;
      |r.keywords| == |pd.keywords| && r.keywords[i].phrase == p &&
      r.keywords[i].isDeleted == (p !in restored && (p in pd.deletedKeywords || p in deleted)) &&
      r.rootKeywords == pd.rootKeywords && r.deletedRootKeywords == pd.deletedRootKeywords
  {
    var k := KeywordsUpdated(pd, deleted, restored);
    RecalculatedFlags(k);
    var p := pd.keywords[i].phrase;
    assert p in Elements(deleted) <==> p in deleted by {
      if p in deleted { var j :| 0 <= j < |deleted| && deleted[j] == p; }
    }
    assert p in Elements(restored) <==> p in restored by {
      if p in restored { var j :| 0 <= j < |restored| && restored[j] == p; }
    }
  }

  /** Restoring exactly the phrases just deleted gives the set back, when none of them was deleted before. */
  lemma KeywordsRoundTrip(pd: ProcessedData, xs: seq<string>)
    requires Elements(xs) !! pd.deletedKeywords
    ensures KeywordsUpdated(KeywordsUpdated(pd, xs, []), [], xs) == pd
  {
    var k := KeywordsUpdated(KeywordsUpdated(pd, xs, []), [], xs);
    assert Elements([]) == {};
    assert k.deletedKeywords == pd.deletedKeywords;
  }

  /**
   * `updateRootKeywords` adds the deleted words to the deleted-root set and then removes the restored ones;
   * competitors and products are untouched. With both lists empty nothing changes, the index included.
   */
  lemma RootsUpdatedSets(pd: ProcessedData, deleted: seq<string>, restored: seq<string>)
    ensures var r := RootsUpdated(pd, deleted, restored);
      r.deletedRootKeywords == (pd.deletedRootKeywords + Elements(deleted)) - Elements(restored) &&
      r.deletedCompetitors == pd.deletedCompetitors && r.deletedProducts == pd.deletedProducts &&
      r.competitors == pd.competitors && r.products == pd.products
    ensures RootsUpdated(pd, [], []) == pd
  {
    assert Elements([]) == {};
    RootSets(pd, deleted);
    var d := if |deleted| > 0 then Cascade.DeleteRootKeywords(pd, deleted) else pd;
    RootSets(d, restored);
  }

  /**
   * `updateCompetitors` adds the deleted ASINs to the deleted-competitor set and then removes the restored
   * ones, touching no other set and no keyword or product; after its recalculation the tier histogram counts
   * the competitors left active.
   */
  lemma CompetitorsUpdatedSets(pd: ProcessedData, deleted: seq<string>, restored: seq<string>, calcs: Calculations)
    ensures var c := CompetitorsUpdated(pd, deleted, restored);
      c.deletedCompetitors == (pd.deletedCompetitors + Elements(deleted)) - Elements(restored) &&
      c.deletedKeywords == pd.deletedKeywords && c.deletedRootKeywords == pd.deletedRootKeywords &&
      c.deletedProducts == pd.deletedProducts && c.keywords == pd.keywords && c.products == pd.products
    ensures var c := CompetitorsUpdated(pd, deleted, restored);
      SummaryTotal(RecalculatedCalculations(c, calcs).strengthSummary) ==
        |set i | 0 <= i < |pd.competitors| && pd.competitors[i].asin !in c.deletedCompetitors|
  {
    var d := ApplyAll(pd, DeleteCompetitor, deleted);
    var c := ApplyAll(d, RestoreCompetitor, restored);
    CompetitorSets(pd, deleted);
    CompetitorSets(d, restored);
    RecalculatedSummary(c, calcs);
    ApplyAllSameEntries(pd, DeleteCompetitor, deleted);
    ApplyAllSameEntries(d, RestoreCompetitor, restored);
    assert forall i :: 0 <= i < |pd.competitors| ==> c.competitors[i].asin == pd.competitors[i].asin;
    assert (set i | 0 <= i < |c.competitors| && c.competitors[i].asin !in c.deletedCompetitors) ==
      (set i | 0 <= i < |pd.competitors| && pd.competitors[i].asin !in c.deletedCompetitors);
  }

  /**
   * `updateProducts` adds the deleted ASINs to both the deleted-product and the deleted-competitor set and
   * then removes the restored ones from both; keywords and roots are untouched.
   */
  lemma ProductsUpdatedSets(pd: ProcessedData, deleted: seq<string>, restored: seq<string>)
    ensures var u := ProductsUpdated(pd, deleted, restored);
      u.deletedProducts == (pd.deletedProducts + Elements(deleted)) - Elements(restored) &&
      u.deletedCompetitors == (pd.deletedCompetitors + Elements(deleted)) - Elements(restored) &&
      u.deletedKeywords == pd.deletedKeywords && u.deletedRootKeywords == pd.deletedRootKeywords &&
      u.keywords == pd.keywords && u.rootKeywords == pd.rootKeywords
  {
    var d := ApplyAll(pd, DeleteProduct, deleted);
    ProductSets(pd, deleted);
    ProductSets(d, restored);
    ApplyAllSameEntries(pd, DeleteProduct, deleted);
    ApplyAllSameEntries(d, RestoreProduct, restored);
  }

  // ---------------------------------------------------------------------
  // What the analysis view promises

  predicate ActiveBrand(cs: seq<Competitor>, deleted: set<string>, b: string) {
    exists i :: 0 <= i < |cs| && cs[i].asin !in deleted && cs[i].brand == b
  }

  lemma {:induction false} ActiveCompetitorsMembers(cs: seq<Competitor>, deleted: set<string>)
    ensures |ActiveCompetitors(cs, deleted)| == CountActive(cs, deleted)
    ensures forall b :: b in Brands(ActiveCompetitors(cs, deleted)) <==> ActiveBrand(cs, deleted, b)
  {
    if cs != [] {
      var init := cs[..|cs| - 1];
      var c := cs[|cs| - 1];
      ActiveCompetitorsMembers(init, deleted);
      var a := ActiveCompetitors(init, deleted);
      var t := if c.asin !in deleted then [c] else [];
      assert Brands(a + t) == Brands(a) + Brands(t) by {
        forall b | b in Brands(a + t) ensures b in Brands(a) + Brands(t) {
          var k :| 0 <= k < |a + t| && (a + t)[k].brand == b;
          if k < |a| { assert a[k].brand == b; } else { assert t[k - |a|].brand == b; }
        }
        forall b | b in Brands(a) ensures b in Brands(a + t) {
          var k :| 0 <= k < |a| && a[k].brand == b;
          assert (a + t)[k].brand == b;
        }
        forall b | b in Brands(t) ensures b in Brands(a + t) {
          assert (a + t)[|a|].brand == b;
        }
      }
      assert ActiveCompetitors(cs, deleted) == a + t;
      assert forall b :: b in Brands(t) <==> c.asin !in deleted && c.brand == b by {
        if c.asin !in deleted { assert t[0] == c; }
      }
      forall b ensures ActiveBrand(cs, deleted, b) <==> ActiveBrand(init, deleted, b) || (c.asin !in deleted && c.brand == b) {
        if ActiveBrand(cs, deleted, b) {
          var k :| 0 <= k < |cs| && cs[k].asin !in deleted && cs[k].brand == b;
          if k < |init| { assert init[k] == cs[k]; }
        }
        if ActiveBrand(init, deleted, b) {
          var k :| 0 <= k < |init| && init[k].asin !in deleted && init[k].brand == b;
          assert cs[k] == init[k];
        }
      }
    }
  }

  lemma {:induction false} BrandsAtMost(cs: seq<Competitor>)
    ensures |Brands(cs)| <= |cs|
  {
    if cs != [] {
      var init := cs[..|cs| - 1];
      BrandsAtMost(init);
      assert Brands(cs) <= Brands(init) + {cs[|cs| - 1].brand} by {
        forall b | b in Brands(cs) ensures b in Brands(init) + {cs[|cs| - 1].brand} {
          var k :| 0 <= k < |cs| && cs[k].brand == b;
          if k < |init| { assert init[k].brand == b; }
        }
      }
      assert |Brands(init) + {cs[|cs| - 1].brand}| <= |Brands(init)| + 1;
      Initial.SubsetCardinality(Brands(cs), Brands(init) + {cs[|cs| - 1].brand});
    }
  }

  /**
   * The market summary: the active and deleted keyword entries make up the keyword list, the distinct brands
   * are exactly those of the active competitors and there are no more of them than active competitors.
   */
  lemma SummaryCounts(pd: ProcessedData, calcs: Calculations)
    ensures var m := SummaryOf(pd, calcs);
      m.totalKeywords + |Deleted(pd.keywords, pd.deletedKeywords)| == |pd.keywords| &&
      m.uniqueBrands <= CountActive(pd.competitors, pd.deletedCompetitors) &&
      m.totalMarketSV == calcs.totalMarketSV && m.deletedKeywords == |pd.deletedKeywords|
    ensures forall b :: b in Brands(ActiveCompetitors(pd.competitors, pd.deletedCompetitors)) <==>
      ActiveBrand(pd.competitors, pd.deletedCompetitors, b)
  {
    VolumeConservation(pd.keywords, pd.deletedKeywords);
    ActiveCompetitorsMembers(pd.competitors, pd.deletedCompetitors);
    BrandsAtMost(ActiveCompetitors(pd.competitors, pd.deletedCompetitors));
  }

  /** The deleted-keyword count is the size of the set, which can name phrases no keyword has. */
  lemma StaleDeletedCount(calcs: Calculations)
    ensures var m := SummaryOf(ProcessedData([], [], [], [], {"gone"}, {}, {}, {}), calcs);
      m.deletedKeywords == 1 && m.totalKeywords == 0
  {
  }
}
