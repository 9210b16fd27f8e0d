/**
 * `CalculationEngine`: the operations that update an analysis session in
 * place. Each method is proved against the value-level specification of
 * modules Metrics, RootIndex, Cascade and Initial: its new session state is
 * the specification function applied to the old one.
 */
module Engine {
  import opened Wrappers
  import opened Text
  import opened Numbers
  import opened Model
  import opened Metrics
  import opened RootIndex
  import opened Cascade
  import opened Initial

  /** `AnalysisSession`; its creation timestamp is not modelled. */
  class Session {
    const id: string
    var originalData: OriginalData
    var processedData: ProcessedData
    var calculations: Calculations

    /** A session as `processFiles` creates it: the uploaded rows, empty processed data and zero calculations. */
    constructor (id: string, originalData: OriginalData)
      ensures this.id == id && this.originalData == originalData
      ensures processedData == ProcessedData([], [], [], [], {}, {}, {}, {})
      ensures calculations == EmptyCalculations
    {
      this.id := id;
      this.originalData := originalData;
      processedData := ProcessedData([], [], [], [], {}, {}, {}, {});
      calculations := EmptyCalculations;
    }
  }

  // ---------------------------------------------------------------------
  // Filters and sums over the keyword list

  /** `keywords.filter(kw => !deleted.has(kw.keywordPhrase))` */
  method FilterActive(keywords: seq<Keyword>, deleted: set<string>) returns (active: seq<Keyword>)
    ensures active == Active(keywords, deleted)
  {
    active := [];
    var i := 0;
    while i < |keywords|
      invariant 0 <= i <= |keywords|
      invariant active == Active(keywords[..i], deleted)
    {
      assert keywords[..i + 1][..i] == keywords[..i];
      if keywords[i].phrase !in deleted {
        active := active + [keywords[i]];
      }
      i := i + 1;
    }
    assert keywords[..i] == keywords;
  }

  /** `keywords.filter(kw => kw.isBrand)` */
  method FilterBrand(keywords: seq<Keyword>) returns (brand: seq<Keyword>)
    ensures brand == BrandKeywords(keywords)
  {
    brand := [];
    var i := 0;
    while i < |keywords|
      invariant 0 <= i <= |keywords|
      invariant brand == BrandKeywords(keywords[..i])
    {
      assert keywords[..i + 1][..i] == keywords[..i];
      if keywords[i].isBrand {
        brand := brand + [keywords[i]];
      }
      i := i + 1;
    }
    assert keywords[..i] == keywords;
  }

  /** The keywords ranking `asin` in the top 30 (`ranking && ranking <= 30`). */
  method FilterTop30(keywords: seq<Keyword>, asin: string) returns (matching: seq<Keyword>)
    ensures matching == Top30Keywords(keywords, asin)
  {
    matching := [];
    var i := 0;
    while i < |keywords|
      invariant 0 <= i <= |keywords|
      invariant matching == Top30Keywords(keywords[..i], asin)
    {
      assert keywords[..i + 1][..i] == keywords[..i];
      var k := keywords[i];
      if asin in k.rankings && k.rankings[asin] != 0 && k.rankings[asin] <= 30 {
        matching := matching + [k];
      }
      i := i + 1;
    }
    assert keywords[..i] == keywords;
  }

  /** `keywords.reduce((sum, kw) => sum + kw.searchVolume, 0)` */
  method SumVolumes(keywords: seq<Keyword>) returns (sum: int)
    ensures sum == SumSV(keywords)
  {
    sum := 0;
    var i := 0;
    while i < |keywords|
      invariant 0 <= i <= |keywords|
      invariant sum == SumSV(keywords[..i])
    {
      assert keywords[..i + 1][..i] == keywords[..i];
      sum := sum + keywords[i].searchVolume;
      i := i + 1;
    }
    assert keywords[..i] == keywords;
  }

  // ---------------------------------------------------------------------
  // Root keywords

  /** The `rootWords.forEach` of one keyword: one occurrence of `k` per root word, in order. */
  method AddRoots(order0: seq<string>, entries0: map<string, RootAcc>, k: Keyword, words: seq<string>)
    returns (order: seq<string>, entries: map<string, RootAcc>)
    ensures RootTable(order, entries) == AddKeyword(RootTable(order0, entries0), k, words)
  {
    order, entries := order0, entries0;
    var j := 0;
    while j < |words|
      invariant 0 <= j <= |words|
      invariant RootTable(order, entries) == AddKeyword(RootTable(order0, entries0), k, words[..j])
    {
      order, entries := AddRoot(order, entries, k, words[j]);
      assert words[..j + 1][..j] == words[..j];
      j := j + 1;
    }
    assert words[..j] == words;
  }

  /** The body of that `forEach` for one root word `w`: its entry is created if new, then updated. */
  method AddRoot(order0: seq<string>, entries0: map<string, RootAcc>, k: Keyword, w: string)
    returns (order: seq<string>, entries: map<string, RootAcc>)
    ensures RootTable(order, entries) == AddOccurrence(RootTable(order0, entries0), w, k)
  {
    order, entries := order0, entries0;
    if w !in entries {
      entries := entries[w := EmptyAcc];
      order := order + [w];
    }
    var data := entries[w];
    data := data.(totalSV := data.totalSV + k.searchVolume, relevances := data.relevances + [k.relevance]);
    if k.isBrand {
      data := data.(brandCount := data.brandCount + 1);
    } else {
      data := data.(nonBrandCount := data.nonBrandCount + 1);
    }
    if k.phrase !in data.relatedPhrases {
      data := data.(relatedPhrases := data.relatedPhrases + [k.phrase]);
    }
    entries := entries[w := data];
  }

  /** The source's `rootMap` built from the active keywords. */
  method BuildRootTable(active: seq<Keyword>) returns (order: seq<string>, entries: map<string, RootAcc>)
    ensures RootTable(order, entries) == TableOf(active)
  {
    order, entries := [], map[];
    var i := 0;
    while i < |active|
      invariant 0 <= i <= |active|
      invariant RootTable(order, entries) == TableOf(active[..i])
    {
      var k := active[i];
      order, entries := AddRoots(order, entries, k, ExtractRootWords(k.phrase));
      assert active[..i + 1][..i] == active[..i];
      i := i + 1;
    }
    assert active[..i] == active;
  }

  /** The conversion loop: one finished record per table entry, in insertion order. */
  method FinishRecords(order: seq<string>, entries: map<string, RootAcc>) returns (records: seq<RootKeyword>)
    requires WellFormed(RootTable(order, entries))
    ensures records == Records(RootTable(order, entries))
  {
    ghost var t := RootTable(order, entries);
    records := [];
    var a := 0;
    while a < |order|
      invariant 0 <= a <= |order|
      invariant records == Records(t)[..a]
    {
      var root := order[a];
      var data := entries[root];
      var n := |data.relevances|;
      var averageRelevance := if n > 0 then Round(SumReals(data.relevances) / n as real) else 0;
      var totalCount := data.brandCount + data.nonBrandCount;
      var brandPercentage := if totalCount > 0 then Round((data.brandCount as real / totalCount as real) * 100.0) else 0;
      records := records + [RootKeyword(
        root, data.totalSV, averageRelevance, data.brandCount, data.nonBrandCount, totalCount, brandPercentage,
        data.relatedPhrases, false)];
      a := a + 1;
    }
  }

  /**
   * `calculateRootKeywords`: aggregates the roots of the active keywords in a table kept in insertion order,
   * finishes each entry into a record and sorts the records by total search volume, largest first.
   */
  method CalculateRootKeywords(session: Session) returns (roots: seq<RootKeyword>)
    ensures roots == RootKeywordsOf(session.processedData.keywords, session.processedData.deletedKeywords)
  {
    var active := FilterActive(session.processedData.keywords, session.processedData.deletedKeywords);
    var order, entries := BuildRootTable(active);
    TableWellFormed(active);
    var records := FinishRecords(order, entries);
    roots := SortBySV(records);
  }

  // ---------------------------------------------------------------------
  // Soft-delete cascades

  /** `extractRootWords(phrase).includes(lower)` */
  method ContainsRoot(phrase: string, rootWord: string, lower: string) returns (b: bool)
    requires lower == ToLower(rootWord)
    ensures b <==> RootHit(phrase, rootWord)
  {
    var words := ExtractRootWords(phrase);
    b := lower in words;
  }

  /** One iteration of the outer `forEach` of `deleteRootKeywords`. */
  method DeleteOneRoot(session: Session, rootWord: string)
    modifies session
    ensures session.processedData == Step(old(session.processedData), DeleteRoot, rootWord)
    ensures session.originalData == old(session.originalData) && session.calculations == old(session.calculations)
  {
    ghost var pd := session.processedData;
    var deleted, keywords := DeleteHits(session.processedData.keywords, session.processedData.deletedKeywords, rootWord);
    DeleteRootStepIs(pd, rootWord, deleted, keywords);
    session.processedData := session.processedData.(
      deletedRootKeywords := session.processedData.deletedRootKeywords + {rootWord},
      deletedKeywords := deleted,
      keywords := keywords);
  }

  /** The inner `forEach` of `deleteRootKeywords`: every keyword whose phrase contains the root is deleted and flagged. */
  method DeleteHits(keywords0: seq<Keyword>, deleted0: set<string>, rootWord: string)
    returns (deleted: set<string>, keywords: seq<Keyword>)
    ensures deleted == deleted0 + HitsBefore(keywords0, rootWord, |keywords0|)
    ensures keywords == FlagHitsBefore(keywords0, rootWord, |keywords0|)
  {
    keywords, deleted := keywords0, deleted0;
    var lower := ToLower(rootWord);
    var j := 0;
    HitsBeforeStart(keywords0, rootWord);
    while j < |keywords|
      invariant 0 <= j <= |keywords| == |keywords0|
      invariant deleted == deleted0 + HitsBefore(keywords0, rootWord, j)
      invariant keywords == FlagHitsBefore(keywords0, rootWord, j)
    {
      deleted, keywords := DeleteHit(keywords0, deleted0, rootWord, lower, j, deleted, keywords);
      j := j + 1;
    }
  }

  /** The body of that `forEach` for keyword `j`. */
  method DeleteHit(keywords0: seq<Keyword>, deleted0: set<string>, rootWord: string, lower: string, j: int,
                   deleted: set<string>, keywords: seq<Keyword>)
    returns (deleted': set<string>, keywords': seq<Keyword>)
    requires lower == ToLower(rootWord) && 0 <= j < |keywords0|
    requires deleted == deleted0 + HitsBefore(keywords0, rootWord, j)
    requires keywords == FlagHitsBefore(keywords0, rootWord, j)
    ensures deleted' == deleted0 + HitsBefore(keywords0, rootWord, j + 1)
    ensures keywords' == FlagHitsBefore(keywords0, rootWord, j + 1)
  {
    HitsBeforeNext(keywords0, rootWord, j);
    deleted', keywords' := deleted, keywords;
    var keyword := keywords[j];
    var hit := ContainsRoot(keyword.phrase, rootWord, lower);
    if hit {
      deleted' := deleted + {keyword.phrase};
      keywords' := keywords[j := keyword.(isDeleted := true)];
    }
  }

  /** One iteration of the outer `forEach` of `restoreRootKeywords`. */
  method RestoreOneRoot(session: Session, rootWord: string)
    modifies session
    ensures session.processedData == Step(old(session.processedData), RestoreRoot, rootWord)
    ensures session.originalData == old(session.originalData) && session.calculations == old(session.calculations)
  {
    ghost var pd := session.processedData;
    session.processedData := session.processedData.(deletedRootKeywords := session.processedData.deletedRootKeywords - {rootWord});
    var deleted, keywords := RestoreHits(
      session.processedData.keywords, session.processedData.deletedKeywords, rootWord, session.processedData.deletedRootKeywords);
    RestoreRootStepIs(pd, rootWord, deleted, keywords);
    session.processedData := session.processedData.(deletedKeywords := deleted, keywords := keywords);
  }

  /**
   * The inner `forEach` of `restoreRootKeywords`: every keyword whose phrase contains the root and no other
   * root in `drk` is un-deleted and its flag cleared.
   */
  method RestoreHits(keywords0: seq<Keyword>, deleted0: set<string>, rootWord: string, drk: set<string>)
    returns (deleted: set<string>, keywords: seq<Keyword>)
    ensures deleted == deleted0 - BackBefore(keywords0, rootWord, drk, |keywords0|)
    ensures keywords == UnflagBackBefore(keywords0, rootWord, drk, |keywords0|)
  {
    keywords, deleted := keywords0, deleted0;
    var lower := ToLower(rootWord);
    var j := 0;
    BackBeforeStart(keywords0, rootWord, drk);
    while j < |keywords|
      invariant 0 <= j <= |keywords| == |keywords0|
      invariant deleted == deleted0 - BackBefore(keywords0, rootWord, drk, j)
      invariant keywords == UnflagBackBefore(keywords0, rootWord, drk, j)
    {
      deleted, keywords := RestoreHit(keywords0, deleted0, rootWord, lower, drk, j, deleted, keywords);
      j := j + 1;
    }
  }

  /** The body of that `forEach` for keyword `j`. */
  method RestoreHit(keywords0: seq<Keyword>, deleted0: set<string>, rootWord: string, lower: string, drk: set<string>,
                    j: int, deleted: set<string>, keywords: seq<Keyword>)
    returns (deleted': set<string>, keywords': seq<Keyword>)
    requires lower == ToLower(rootWord) && 0 <= j < |keywords0|
    requires deleted == deleted0 - BackBefore(keywords0, rootWord, drk, j)
    requires keywords == UnflagBackBefore(keywords0, rootWord, drk, j)
    ensures deleted' == deleted0 - BackBefore(keywords0, rootWord, drk, j + 1)
    ensures keywords' == UnflagBackBefore(keywords0, rootWord, drk, j + 1)
  {
    BackBeforeNext(keywords0, rootWord, drk, j);
    deleted', keywords' := deleted, keywords;
    var keyword := keywords[j];
    var back := RestoresPhrase(keyword.phrase, rootWord, lower, drk);
    if back {
      deleted' := deleted - {keyword.phrase};
      keywords' := keywords[j := keyword.(isDeleted := false)];
    }
  }

  /** The test of the inner `forEach`: the phrase has the root and none of its other roots is still deleted. */
  method RestoresPhrase(phrase: string, rootWord: string, lower: string, drk: set<string>) returns (b: bool)
    requires lower == ToLower(rootWord)
    ensures b <==> Restorable(phrase, rootWord, drk)
  {
    var words := ExtractRootWords(phrase);
    b := false;
    if lower in words {
      var hasOtherDeletedRoots := exists m :: 0 <= m < |words| && words[m] != lower && words[m] in drk;
      b := !hasOtherDeletedRoots;
    }
  }

  /** Rebuilds the root index of the session, then marks the records whose root word is soft-deleted. */
  method ReindexRoots(session: Session)
    modifies session
    ensures session.processedData == Reindex(old(session.processedData))
    ensures session.originalData == old(session.originalData) && session.calculations == old(session.calculations)
  {
    var roots := CalculateRootKeywords(session);
    roots := MarkRecords(roots, session.processedData.deletedRootKeywords);
    session.processedData := session.processedData.(rootKeywords := roots);
  }

  /** `rootKeywords.forEach(rk => rk.isDeleted = deletedRootKeywords.has(rk.rootWord))` */
  method MarkRecords(records: seq<RootKeyword>, drk: set<string>) returns (roots: seq<RootKeyword>)
    ensures roots == MarkRoots(records, drk)
  {
    roots := records;
    var k := 0;
    while k < |roots|
      invariant 0 <= k <= |roots| == |records|
      invariant forall m :: 0 <= m < |roots| ==>
        roots[m] == if m < k then records[m].(isDeleted := records[m].rootWord in drk) else records[m]
    {
      roots := roots[k := roots[k].(isDeleted := roots[k].rootWord in drk)];
      k := k + 1;
    }
  }

  /**
   * `deleteRootKeywords`: soft-deletes the root words and every phrase containing one of them in lower case,
   * then rebuilds and marks the root index.
   */
  method DeleteRootKeywords(session: Session, rootWords: seq<string>)
    modifies session
    ensures session.processedData == Cascade.DeleteRootKeywords(old(session.processedData), rootWords)
    ensures session.originalData == old(session.originalData) && session.calculations == old(session.calculations)
  {
    ghost var pd := session.processedData;
    var i := 0;
    while i < |rootWords|
      invariant 0 <= i <= |rootWords|
      invariant session.processedData == ApplyAll(pd, DeleteRoot, rootWords[..i])
      invariant session.originalData == old(session.originalData) && session.calculations == old(session.calculations)
    {
      DeleteOneRoot(session, rootWords[i]);
      ApplyAllNext(pd, DeleteRoot, rootWords, i);
      i := i + 1;
    }
    assert rootWords[..i] == rootWords;
    ReindexRoots(session);
  }

  /**
   * `restoreRootKeywords`: un-deletes the root words and every phrase containing one of them whose other roots
   * are not deleted, then rebuilds the root index and re-marks it.
   */
  method RestoreRootKeywords(session: Session, rootWords: seq<string>)
    modifies session
    ensures session.processedData == Cascade.RestoreRootKeywords(old(session.processedData), rootWords)
    ensures session.originalData == old(session.originalData) && session.calculations == old(session.calculations)
  {
    ghost var pd := session.processedData;
    var i := 0;
    while i < |rootWords|
      invariant 0 <= i <= |rootWords|
      invariant session.processedData == ApplyAll(pd, RestoreRoot, rootWords[..i])
      invariant session.originalData == old(session.originalData) && session.calculations == old(session.calculations)
    {
      RestoreOneRoot(session, rootWords[i]);
      ApplyAllNext(pd, RestoreRoot, rootWords, i);
      i := i + 1;
    }
    assert rootWords[..i] == rootWords;
    ReindexRoots(session);
  }

  /** `competitors.find(c => c.asin === asin)` as a position, or -1. */
  method FindCompetitor(cs: seq<Competitor>, asin: string) returns (i: int)
    ensures i == FirstWith(cs, CompetitorAsin, asin)
  {
    i := 0;
    while i < |cs| && cs[i].asin != asin
      invariant 0 <= i <= |cs|
      invariant forall k :: 0 <= k < i ==> cs[k].asin != asin
    {
      i := i + 1;
    }
    if i == |cs| {
      i := -1;
    } else {
      FirstWithAt(cs, CompetitorAsin, asin, i);
    }
  }

  /** `products.find(p => p.asin === asin)` as a position, or -1. */
  method FindProduct(ps: seq<Product>, asin: string) returns (i: int)
    ensures i == FirstWith(ps, ProductAsin, asin)
  {
    i := 0;
    while i < |ps| && ps[i].asin != asin
      invariant 0 <= i <= |ps|
      invariant forall k :: 0 <= k < i ==> ps[k].asin != asin
    {
      i := i + 1;
    }
    if i == |ps| {
      i := -1;
    } else {
      FirstWithAt(ps, ProductAsin, asin, i);
    }
  }

  /** Adds or removes `asin` in `deletedCompetitors` and sets the flag of the first competitor carrying it. */
  method MarkCompetitor(session: Session, asin: string, delete: bool)
    modifies session
    ensures session.processedData ==
      Step(old(session.processedData), if delete then DeleteCompetitor else RestoreCompetitor, asin)
    ensures session.originalData == old(session.originalData) && session.calculations == old(session.calculations)
  {
    var pd := session.processedData;
    var dc := if delete then pd.deletedCompetitors + {asin} else pd.deletedCompetitors - {asin};
    session.processedData := pd.(deletedCompetitors := dc);
    var f := FindCompetitor(pd.competitors, asin);
    if f >= 0 {
      session.processedData := session.processedData.(
        competitors := pd.competitors[f := pd.competitors[f].(isDeleted := delete)]);
    }
  }

  /** Adds or removes `asin` in `deletedProducts` and sets the flag of the first product carrying it. */
  method MarkProduct(session: Session, asin: string, delete: bool)
    modifies session
    ensures session.processedData ==
      old(session.processedData).(
        deletedProducts := if delete then old(session.processedData).deletedProducts + {asin}
                           else old(session.processedData).deletedProducts - {asin},
        products := FlagProduct(old(session.processedData).products, asin, delete))
    ensures session.originalData == old(session.originalData) && session.calculations == old(session.calculations)
  {
    var pd := session.processedData;
    var dp := if delete then pd.deletedProducts + {asin} else pd.deletedProducts - {asin};
    session.processedData := pd.(deletedProducts := dp);
    var f := FindProduct(pd.products, asin);
    if f >= 0 {
      session.processedData := session.processedData.(products := pd.products[f := pd.products[f].(isDeleted := delete)]);
    }
  }

  /** `deleteCompetitors` */
  method DeleteCompetitors(session: Session, asins: seq<string>)
    modifies session
    ensures session.processedData == ApplyAll(old(session.processedData), DeleteCompetitor, asins)
    ensures session.originalData == old(session.originalData) && session.calculations == old(session.calculations)
  {
    ghost var pd := session.processedData;
    var i := 0;
    while i < |asins|
      invariant 0 <= i <= |asins|
      invariant session.processedData == ApplyAll(pd, DeleteCompetitor, asins[..i])
      invariant session.originalData == old(session.originalData) && session.calculations == old(session.calculations)
    {
      MarkCompetitor(session, asins[i], true);
      ApplyAllNext(pd, DeleteCompetitor, asins, i);
      i := i + 1;
    }
    assert asins[..i] == asins;
  }

  /** `restoreCompetitors` */
  method RestoreCompetitors(session: Session, asins: seq<string>)
    modifies session
    ensures session.processedData == ApplyAll(old(session.processedData), RestoreCompetitor, asins)
    ensures session.originalData == old(session.originalData) && session.calculations == old(session.calculations)
  {
    ghost var pd := session.processedData;
    var i := 0;
    while i < |asins|
      invariant 0 <= i <= |asins|
      invariant session.processedData == ApplyAll(pd, RestoreCompetitor, asins[..i])
      invariant session.originalData == old(session.originalData) && session.calculations == old(session.calculations)
    {
      MarkCompetitor(session, asins[i], false);
      ApplyAllNext(pd, RestoreCompetitor, asins, i);
      i := i + 1;
    }
    assert asins[..i] == asins;
  }

  /** `deleteProducts`: each product ASIN is also soft-deleted as a competitor. */
  method DeleteProducts(session: Session, asins: seq<string>)
    modifies session
    ensures session.processedData == ApplyAll(old(session.processedData), DeleteProduct, asins)
    ensures session.originalData == old(session.originalData) && session.calculations == old(session.calculations)
  {
    ghost var pd := session.processedData;
    var i := 0;
    while i < |asins|
      invariant 0 <= i <= |asins|
      invariant session.processedData == ApplyAll(pd, DeleteProduct, asins[..i])
      invariant session.originalData == old(session.originalData) && session.calculations == old(session.calculations)
    {
      MarkProduct(session, asins[i], true);
      MarkCompetitor(session, asins[i], true);
      ApplyAllNext(pd, DeleteProduct, asins, i);
      i := i + 1;
    }
    assert asins[..i] == asins;
  }

  /** `restoreProducts`: each product ASIN is also restored as a competitor. */
  method RestoreProducts(session: Session, asins: seq<string>)
    modifies session
    ensures session.processedData == ApplyAll(old(session.processedData), RestoreProduct, asins)
    ensures session.originalData == old(session.originalData) && session.calculations == old(session.calculations)
  {
    ghost var pd := session.processedData;
    var i := 0;
    while i < |asins|
      invariant 0 <= i <= |asins|
      invariant session.processedData == ApplyAll(pd, RestoreProduct, asins[..i])
      invariant session.originalData == old(session.originalData) && session.calculations == old(session.calculations)
    {
      MarkProduct(session, asins[i], false);
      MarkCompetitor(session, asins[i], false);
      ApplyAllNext(pd, RestoreProduct, asins, i);
      i := i + 1;
    }
    assert asins[..i] == asins;
  }

  // ---------------------------------------------------------------------
  // Recalculation

  /** Step 1 of `recalculateMetrics`: every `isDeleted` flag is set from its soft-delete set. */
  method SyncFlags(session: Session)
    modifies session
    ensures session.processedData == old(session.processedData).(
      keywords := SyncKeywords(old(session.processedData.keywords), old(session.processedData.deletedKeywords)),
      competitors := SyncCompetitors(old(session.processedData.competitors), old(session.processedData.deletedCompetitors)),
      products := SyncProducts(old(session.processedData.products), old(session.processedData.deletedProducts)))
    ensures session.originalData == old(session.originalData) && session.calculations == old(session.calculations)
  {
    var pd := session.processedData;
    var ks := pd.keywords;
    var i := 0;
    while i < |ks|
      invariant 0 <= i <= |ks| == |pd.keywords|
      invariant forall m :: 0 <= m < |ks| ==> ks[m] == if m < i then SyncKeywords(pd.keywords, pd.deletedKeywords)[m] else pd.keywords[m]
    {
      ks := ks[i := ks[i].(isDeleted := ks[i].phrase in pd.deletedKeywords)];
      i := i + 1;
    }
    var cs := pd.competitors;
    i := 0;
    while i < |cs|
      invariant 0 <= i <= |cs| == |pd.competitors|
      invariant forall m :: 0 <= m < |cs| ==> cs[m] == if m < i then SyncCompetitors(pd.competitors, pd.deletedCompetitors)[m] else pd.competitors[m]
    {
      cs := cs[i := cs[i].(isDeleted := cs[i].asin in pd.deletedCompetitors)];
      i := i + 1;
    }
    var ps := pd.products;
    i := 0;
    while i < |ps|
      invariant 0 <= i <= |ps| == |pd.products|
      invariant forall m :: 0 <= m < |ps| ==> ps[m] == if m < i then SyncProducts(pd.products, pd.deletedProducts)[m] else pd.products[m]
    {
      ps := ps[i := ps[i].(isDeleted := ps[i].asin in pd.deletedProducts)];
      i := i + 1;
    }
    session.processedData := pd.(keywords := ks, competitors := cs, products := ps);
  }

  /** `(part / total) * 100`, or 0 for an empty market. */
  method StrengthPercent(part: int, total: int) returns (p: real)
    ensures p == Percent(part, total)
  {
    p := if total > 0 then (part as real / total as real) * 100.0 else 0.0;
  }

  /**
   * Step 3 of `recalculateMetrics`: each competitor not soft-deleted gets its strength from the search volume of
   * the active keywords ranking it in the top 30, and its metrics entry is (re)set.
   */
  method ScoreActiveCompetitors(session: Session, active: seq<Keyword>)
    modifies session
    ensures session.processedData == old(session.processedData).(
      competitors := ScoreCompetitors(old(session.processedData.competitors), old(session.processedData.deletedCompetitors),
                                      active, old(session.calculations.totalMarketSV)))
    ensures session.calculations == old(session.calculations).(
      competitorMetrics := UpdatedMetrics(old(session.calculations.competitorMetrics), old(session.processedData.competitors),
                                          old(session.processedData.deletedCompetitors), active, old(session.calculations.totalMarketSV)))
    ensures session.originalData == old(session.originalData)
  {
    var pd := session.processedData;
    var total := session.calculations.totalMarketSV;
    var dc := pd.deletedCompetitors;
    ghost var scored := ScoreCompetitors(pd.competitors, dc, active, total);
    var cs := pd.competitors;
    var metrics := session.calculations.competitorMetrics;
    var i := 0;
    while i < |cs|
      invariant 0 <= i <= |cs| == |pd.competitors|
      invariant forall m :: 0 <= m < |cs| ==> cs[m] == if m < i then scored[m] else pd.competitors[m]
      invariant metrics == UpdatedMetrics(session.calculations.competitorMetrics, pd.competitors[..i], dc, active, total)
      invariant unchanged(session)
    {
      UpdatedMetricsSnoc(session.calculations.competitorMetrics, pd.competitors[..i + 1], dc, active, total);
      assert pd.competitors[..i + 1][..i] == pd.competitors[..i];
      var c := cs[i];
      if c.asin !in dc {
        var top30 := FilterTop30(active, c.asin);
        var sv := SumVolumes(top30);
        var pct := StrengthPercent(sv, total);
        var level := StrengthLevelOf(pct);
        cs := cs[i := c.(strengthPercentage := pct, strengthLevel := level)];
        metrics := metrics[c.asin := CompetitorMetrics(c.asin, pct, level, sv)];
      }
      i := i + 1;
    }
    assert pd.competitors[..i] == pd.competitors;
    session.processedData := pd.(competitors := cs);
    session.calculations := session.calculations.(competitorMetrics := metrics);
  }

  /** `updateStrengthSummary`: the tier histogram of the competitors not soft-deleted. */
  method UpdateStrengthSummary(session: Session)
    modifies session
    ensures session.calculations == old(session.calculations).(
      strengthSummary := Summarize(session.processedData.competitors, session.processedData.deletedCompetitors))
    ensures session.processedData == old(session.processedData) && session.originalData == old(session.originalData)
  {
    var cs := session.processedData.competitors;
    var dc := session.processedData.deletedCompetitors;
    var moltoForte, forte, medio, debole := 0, 0, 0, 0;
    var i := 0;
    while i < |cs|
      invariant 0 <= i <= |cs|
      invariant moltoForte == CountLevel(cs[..i], dc, MoltoForte) && forte == CountLevel(cs[..i], dc, Forte)
      invariant medio == CountLevel(cs[..i], dc, Medio) && debole == CountLevel(cs[..i], dc, Debole)
    {
      assert cs[..i + 1][..i] == cs[..i];
      if cs[i].asin !in dc {
        match cs[i].strengthLevel
        case MoltoForte => moltoForte := moltoForte + 1;
        case Forte => forte := forte + 1;
        case Medio => medio := medio + 1;
        case Debole => debole := debole + 1;
      }
      i := i + 1;
    }
    assert cs[..i] == cs;
    session.calculations := session.calculations.(strengthSummary := StrengthSummary(moltoForte, forte, medio, debole));
  }

  /** The body of the `forEach` of `recalculateProductMetrics`, for one product. */
  method ScoreOneProduct(p: Product, active: seq<Keyword>, total: int) returns (q: Product)
    ensures q == ScoreProduct(p, active, total)
  {
    var matching := FilterTop30(active, p.asin);
    var sv := SumVolumes(matching);
    var pct := StrengthPercent(sv, total);
    q := p.(keywordCount := |matching|, matchingKeywords := Phrases(matching),
            strengthPercentage := pct, strengthLevel := StrengthLevelOf(pct));
  }

  /**
   * `recalculateProductMetrics`: every product, soft-deleted or not, gets its matching active phrases, their
   * count and its strength.
   */
  method RecalculateProductMetrics(session: Session, active: seq<Keyword>)
    modifies session
    ensures session.processedData == old(session.processedData).(
      products := ScoreProducts(old(session.processedData.products), active, session.calculations.totalMarketSV))
    ensures session.calculations == old(session.calculations) && session.originalData == old(session.originalData)
  {
    var pd := session.processedData;
    var total := session.calculations.totalMarketSV;
    ghost var scored := ScoreProducts(pd.products, active, total);
    var ps := pd.products;
    var i := 0;
    while i < |ps|
      invariant 0 <= i <= |ps| == |pd.products|
      invariant forall m :: 0 <= m < |ps| ==> ps[m] == if m < i then scored[m] else pd.products[m]
      invariant unchanged(session)
    {
      var p := ScoreOneProduct(ps[i], active, total);
      ps := ps[i := p];
      i := i + 1;
    }
    session.processedData := pd.(products := ps);
  }

  /**
   * `recalculateMetrics`: syncs the flags, recomputes the market and brand totals from the active keywords,
   * re-scores the active competitors and their metrics, rebuilds the tier histogram and re-scores every product.
   */
  method RecalculateMetrics(session: Session)
    modifies session
    ensures session.processedData == RecalculatedData(old(session.processedData))
    ensures session.calculations == RecalculatedCalculations(old(session.processedData), old(session.calculations))
    ensures session.originalData == old(session.originalData)
  {
    ghost var pd := session.processedData;
    ghost var calcs := session.calculations;
    SyncFlags(session);
    var active := FilterActive(session.processedData.keywords, session.processedData.deletedKeywords);
    assert active == ActiveAfterSync(pd);
    var total := SumVolumes(active);
    var brand := FilterBrand(active);
    var brandSV := SumVolumes(brand);
    session.calculations := session.calculations.(totalMarketSV := total, brandSV := brandSV);
    ScoreActiveCompetitors(session, active);
    UpdateStrengthSummary(session);
    RecalculateProductMetrics(session, active);
    SyncThenScore(pd, active, total);
  }

  // ---------------------------------------------------------------------
  // Initial processing

  /** `productData.find(p => p.asin === asin)` as a position, or -1. */
  method FindProductRow(ps: seq<ProductRow>, asin: string) returns (i: int)
    ensures i == FirstWith(ps, ProductRowAsin, asin)
  {
    i := 0;
    while i < |ps| && ps[i].asin != asin
      invariant 0 <= i <= |ps|
      invariant forall k :: 0 <= k < i ==> ps[k].asin != asin
    {
      i := i + 1;
    }
    if i == |ps| {
      i := -1;
    } else {
      FirstWithAt(ps, ProductRowAsin, asin, i);
    }
  }

  /** The `competitorsMap` loop of `processInitialData`. */
  method BuildCompetitorTable(bs: seq<BusinessRow>, ps: seq<ProductRow>, listingAge: string -> int)
    returns (order: seq<string>, entries: map<string, Competitor>)
    ensures CompetitorTable(order, entries) == CompetitorTableOf(bs, ps, listingAge)
  {
    order, entries := [], map[];
    var i := 0;
    while i < |bs|
      invariant 0 <= i <= |bs|
      invariant CompetitorTable(order, entries) == CompetitorTableOf(bs[..i], ps, listingAge)
    {
      assert bs[..i + 1][..i] == bs[..i];
      var b := bs[i];
      if b.asin != "" {
        var f := FindProductRow(ps, b.asin);
        var product := if f >= 0 then Some(ps[f]) else None;
        if b.asin !in entries {
          order := order + [b.asin];
        }
        entries := entries[b.asin := NewCompetitor(b, product, listingAge)];
      }
      i := i + 1;
    }
    assert bs[..i] == bs;
  }

  /** `Array.from(competitorsMap.values())` */
  method BuildCompetitors(bs: seq<BusinessRow>, ps: seq<ProductRow>, listingAge: string -> int) returns (cs: seq<Competitor>)
    ensures cs == InitialCompetitors(bs, ps, listingAge)
  {
    var order, entries := BuildCompetitorTable(bs, ps, listingAge);
    assert TableShape(CompetitorTable(order, entries));
    cs := [];
    var a := 0;
    while a < |order|
      invariant 0 <= a <= |order|
      invariant cs == InitialCompetitors(bs, ps, listingAge)[..a]
    {
      assert order[a] in entries;
      cs := cs + [entries[order[a]]];
      a := a + 1;
    }
  }

  /**
   * `processInitialData`: builds the competitors, keywords and products from the uploaded rows, clears the four
   * soft-delete sets, indexes the root words, resets the calculations and recalculates the metrics.
   */
  method ProcessInitialData(session: Session, listingAge: string -> int)
    modifies session
    ensures session.processedData == RecalculatedData(InitialData(session.originalData, listingAge))
    ensures session.calculations == RecalculatedCalculations(InitialData(session.originalData, listingAge), EmptyCalculations)
    ensures session.originalData == old(session.originalData)
  {
    var od := session.originalData;
    var competitors := BuildCompetitors(od.businessData, od.productData, listingAge);
    var keywords := ProcessKeywords(od.keywordData);
    var products := ProcessProducts(od.productData);
    session.processedData := session.processedData.(
      competitors := competitors, keywords := keywords, products := products,
      deletedKeywords := {}, deletedRootKeywords := {}, deletedCompetitors := {}, deletedProducts := {});
    var roots := CalculateRootKeywords(session);
    session.processedData := session.processedData.(rootKeywords := roots);
    session.calculations := EmptyCalculations;
    RecalculateMetrics(session);
  }
}
