/**
 * The soft-delete cascades of `CalculationEngine` as functions on the
 * processed data: deleting or restoring root words (which cascades into the
 * keyword phrases containing them), competitors, and products (which
 * cascades into the competitor with the same ASIN). Each operation handles
 * its list one element at a time, so it is a fold of a one-element `Step`.
 */
module Cascade {
  import opened Wrappers
  import opened Text
  import opened Model
  import opened Metrics
  import opened RootIndex

  /** `extractRootWords(phrase).includes(r.toLowerCase())` */
  predicate RootHit(phrase: string, r: string) {
    ToLower(r) in ExtractRootWords(phrase)
  }

  /**
   * The restore rule: a phrase containing `r` comes back only when none of its other roots is among the
   * deleted roots `drk` (which no longer holds `r`).
   */
  predicate Restorable(phrase: string, r: string, drk: set<string>) {
    var w := ExtractRootWords(phrase);
    RootHit(phrase, r) && !(exists j :: 0 <= j < |w| && w[j] != ToLower(r) && w[j] in drk)
  }

  /** The phrases of the keywords satisfying `p`. */
  function PhrasesWhere(ks: seq<Keyword>, p: string -> bool): set<string> {
    set i | 0 <= i < |ks| && p(ks[i].phrase) :: ks[i].phrase
  }

  /** The keywords with `isDeleted := v` where `p` holds of the phrase. */
  function FlagWhere(ks: seq<Keyword>, p: string -> bool, v: bool): (r: seq<Keyword>)
    ensures |r| == |ks|
  {
    seq(|ks|, i requires 0 <= i < |ks| => if p(ks[i].phrase) then ks[i].(isDeleted := v) else ks[i])
  }

  /** The first competitor with `asin`, if any, gets `isDeleted := v`. */
  function FlagCompetitor(cs: seq<Competitor>, asin: string, v: bool): seq<Competitor> {
    var i := FirstWith(cs, CompetitorAsin, asin);
    if i < 0 then cs else cs[i := cs[i].(isDeleted := v)]
  }

  /** The first product with `asin`, if any, gets `isDeleted := v`. */
  function FlagProduct(ps: seq<Product>, asin: string, v: bool): seq<Product> {
    var i := FirstWith(ps, ProductAsin, asin);
    if i < 0 then ps else ps[i := ps[i].(isDeleted := v)]
  }

  datatype Op = DeleteRoot | RestoreRoot | DeleteCompetitor | RestoreCompetitor | DeleteProduct | RestoreProduct

  /** One iteration of the `forEach` of the operation, for the element `x`. */
  function Step(pd: ProcessedData, op: Op, x: string): ProcessedData {
    match op
    case DeleteRoot =>
      var hit := (p: string) => RootHit(p, x);
      pd.(deletedRootKeywords := pd.deletedRootKeywords + {x},
          deletedKeywords := pd.deletedKeywords + PhrasesWhere(pd.keywords, hit),
          keywords := FlagWhere(pd.keywords, hit, true))
    case RestoreRoot =>
      var drk := pd.deletedRootKeywords - {x};
      var back := (p: string) => Restorable(p, x, drk);
      pd.(deletedRootKeywords := drk,
          deletedKeywords := pd.deletedKeywords - PhrasesWhere(pd.keywords, back),
          keywords := FlagWhere(pd.keywords, back, false))
    case DeleteCompetitor =>
      pd.(deletedCompetitors := pd.deletedCompetitors + {x},
          competitors := FlagCompetitor(pd.competitors, x, true))
    case RestoreCompetitor =>
      pd.(deletedCompetitors := pd.deletedCompetitors - {x},
          competitors := FlagCompetitor(pd.competitors, x, false))
    case DeleteProduct =>
      pd.(deletedProducts := pd.deletedProducts + {x},
          products := FlagProduct(pd.products, x, true),
          deletedCompetitors := pd.deletedCompetitors + {x},
          competitors := FlagCompetitor(pd.competitors, x, true))
    case RestoreProduct =>
      pd.(deletedProducts := pd.deletedProducts - {x},
          products := FlagProduct(pd.products, x, false),
          deletedCompetitors := pd.deletedCompetitors - {x},
          competitors := FlagCompetitor(pd.competitors, x, false))
  }

  /** The operation applied to each element of `xs` in turn. */
  function ApplyAll(pd: ProcessedData, op: Op, xs: seq<string>): ProcessedData {
    if xs == [] then pd else Step(ApplyAll(pd, op, xs[..|xs| - 1]), op, xs[|xs| - 1])
  }

  /** Applying the operation to one more element is one more step. */
  lemma ApplyAllNext(pd: ProcessedData, op: Op, xs: seq<string>, i: int)
    requires 0 <= i < |xs|
    ensures ApplyAll(pd, op, xs[..i + 1]) == Step(ApplyAll(pd, op, xs[..i]), op, xs[i])
  {
    assert xs[..i + 1][..i] == xs[..i];
  }

  /** The root records with `isDeleted` mirroring the deleted-root set. */
  function MarkRoots(rks: seq<RootKeyword>, drk: set<string>): (r: seq<RootKeyword>)
    ensures |r| == |rks|
  {
    seq(|rks|, i requires 0 <= i < |rks| => rks[i].(isDeleted := rks[i].rootWord in drk))
  }

  /** The root index rebuilt from the current keywords and then marked. */
  function Reindex(pd: ProcessedData): ProcessedData {
    pd.(rootKeywords := MarkRoots(RootKeywordsOf(pd.keywords, pd.deletedKeywords), pd.deletedRootKeywords))
  }

  /** `deleteRootKeywords` */
  function DeleteRootKeywords(pd: ProcessedData, rootWords: seq<string>): ProcessedData {
    Reindex(ApplyAll(pd, DeleteRoot, rootWords))
  }

  /** `restoreRootKeywords` */
  function RestoreRootKeywords(pd: ProcessedData, rootWords: seq<string>): ProcessedData {
    Reindex(ApplyAll(pd, RestoreRoot, rootWords))
  }

  function Elements(xs: seq<string>): set<string> {
    set i | 0 <= i < |xs| :: xs[i]
  }

  lemma ElementsSnoc(xs: seq<string>)
    requires xs != []
    ensures Elements(xs) == Elements(xs[..|xs| - 1]) + {xs[|xs| - 1]}
  {
    var init := xs[..|xs| - 1];
    forall y | y in Elements(xs) ensures y in Elements(init) + {xs[|xs| - 1]} {
      var i :| 0 <= i < |xs| && xs[i] == y;
      if i < |init| { assert init[i] == y; }
    }
    forall y | y in Elements(init) ensures y in Elements(xs) {
      var i :| 0 <= i < |init| && init[i] == y;
      assert xs[i] == y;
    }
  }

  // ---------------------------------------------------------------------
  // Which sets each operation touches

  /**
   * Every operation keeps the list lengths, the phrases and ASINs of the entries and all other fields of the
   * entries except `isDeleted`, and never touches the root index.
   */
  predicate SameEntries(a: ProcessedData, b: ProcessedData) {
    SameKeywords(a.keywords, b.keywords) && SameCompetitors(a.competitors, b.competitors) &&
    SameProducts(a.products, b.products) && b.rootKeywords == a.rootKeywords
  }

  predicate SameKeywords(a: seq<Keyword>, b: seq<Keyword>) {
    |a| == |b| && forall i :: 0 <= i < |a| ==> b[i] == a[i].(isDeleted := b[i].isDeleted)
  }

  predicate SameCompetitors(a: seq<Competitor>, b: seq<Competitor>) {
    |a| == |b| && forall i :: 0 <= i < |a| ==> b[i] == a[i].(isDeleted := b[i].isDeleted)
  }

  predicate SameProducts(a: seq<Product>, b: seq<Product>) {
    |a| == |b| && forall i :: 0 <= i < |a| ==> b[i] == a[i].(isDeleted := b[i].isDeleted)
  }

  lemma FlagWhereSame(ks: seq<Keyword>, p: string -> bool, v: bool)
    ensures SameKeywords(ks, FlagWhere(ks, p, v))
  {
  }

  lemma FlagCompetitorSame(cs: seq<Competitor>, asin: string, v: bool)
    ensures SameCompetitors(cs, FlagCompetitor(cs, asin, v))
  {
  }

  lemma FlagProductSame(ps: seq<Product>, asin: string, v: bool)
    ensures SameProducts(ps, FlagProduct(ps, asin, v))
  {
  }

  lemma StepSameEntries(pd: ProcessedData, op: Op, x: string)
    ensures SameEntries(pd, Step(pd, op, x))
  {
    var s := Step(pd, op, x);
    match op
    case DeleteRoot =>
      FlagWhereSame(pd.keywords, (p: string) => RootHit(p, x), true);
    case RestoreRoot =>
      FlagWhereSame(pd.keywords, (p: string) => Restorable(p, x, pd.deletedRootKeywords - {x}), false);
    case DeleteCompetitor =>
      FlagCompetitorSame(pd.competitors, x, true);
    case RestoreCompetitor =>
      FlagCompetitorSame(pd.competitors, x, false);
    case DeleteProduct =>
      FlagCompetitorSame(pd.competitors, x, true);
      FlagProductSame(pd.products, x, true);
    case RestoreProduct =>
      FlagCompetitorSame(pd.competitors, x, false);
      FlagProductSame(pd.products, x, false);
  }

  lemma {:induction false} ApplyAllSameEntries(pd: ProcessedData, op: Op, xs: seq<string>)
    ensures SameEntries(pd, ApplyAll(pd, op, xs))
  {
    if xs != [] {
      var mid := ApplyAll(pd, op, xs[..|xs| - 1]);
      ApplyAllSameEntries(pd, op, xs[..|xs| - 1]);
      StepSameEntries(mid, op, xs[|xs| - 1]);
    }
  }

  /**
   * The sets after deleting or restoring competitors: exactly the listed ASINs join or leave
   * `deletedCompetitors`; the other three sets are unchanged.
   */
  lemma {:induction false} CompetitorSets(pd: ProcessedData, xs: seq<string>)
    ensures var d := ApplyAll(pd, DeleteCompetitor, xs);
      d.deletedCompetitors == pd.deletedCompetitors + Elements(xs) &&
      d.deletedKeywords == pd.deletedKeywords && d.deletedRootKeywords == pd.deletedRootKeywords &&
      d.deletedProducts == pd.deletedProducts && d.keywords == pd.keywords && d.products == pd.products
    ensures var r := ApplyAll(pd, RestoreCompetitor, xs);
      r.deletedCompetitors == pd.deletedCompetitors - Elements(xs) &&
      r.deletedKeywords == pd.deletedKeywords && r.deletedRootKeywords == pd.deletedRootKeywords &&
      r.deletedProducts == pd.deletedProducts && r.keywords == pd.keywords && r.products == pd.products
  {
    if xs != [] {
      CompetitorSets(pd, xs[..|xs| - 1]);
      ElementsSnoc(xs);
    }
  }

  /**
   * The sets after deleting or restoring products: the listed ASINs join or leave both `deletedProducts`
   * and `deletedCompetitors`; the keyword and root sets are unchanged.
   */
  lemma {:induction false} ProductSets(pd: ProcessedData, xs: seq<string>)
    ensures var d := ApplyAll(pd, DeleteProduct, xs);
      d.deletedProducts == pd.deletedProducts + Elements(xs) &&
      d.deletedCompetitors == pd.deletedCompetitors + Elements(xs) &&
      d.deletedKeywords == pd.deletedKeywords && d.deletedRootKeywords == pd.deletedRootKeywords &&
      d.keywords == pd.keywords
    ensures var r := ApplyAll(pd, RestoreProduct, xs);
      r.deletedProducts == pd.deletedProducts - Elements(xs) &&
      r.deletedCompetitors == pd.deletedCompetitors - Elements(xs) &&
      r.deletedKeywords == pd.deletedKeywords && r.deletedRootKeywords == pd.deletedRootKeywords &&
      r.keywords == pd.keywords
  {
    if xs != [] {
      ProductSets(pd, xs[..|xs| - 1]);
      ElementsSnoc(xs);
    }
  }

  /** The root-word sets: deleting adds the words as given, restoring removes them. */
  lemma {:induction false} RootSets(pd: ProcessedData, xs: seq<string>)
    ensures var d := ApplyAll(pd, DeleteRoot, xs);
      d.deletedRootKeywords == pd.deletedRootKeywords + Elements(xs) &&
      d.deletedCompetitors == pd.deletedCompetitors && d.deletedProducts == pd.deletedProducts &&
      d.competitors == pd.competitors && d.products == pd.products &&
      pd.deletedKeywords <= d.deletedKeywords
    ensures var r := ApplyAll(pd, RestoreRoot, xs);
      r.deletedRootKeywords == pd.deletedRootKeywords - Elements(xs) &&
      r.deletedCompetitors == pd.deletedCompetitors && r.deletedProducts == pd.deletedProducts &&
      r.competitors == pd.competitors && r.products == pd.products &&
      r.deletedKeywords <= pd.deletedKeywords
  {
    if xs != [] {
      RootSets(pd, xs[..|xs| - 1]);
      ElementsSnoc(xs);
    }
  }

  // ---------------------------------------------------------------------
  // Flags of competitors and products

  predicate FirstWithAsin(cs: seq<Competitor>, i: int)
    requires 0 <= i < |cs|
  {
    forall k :: 0 <= k < i ==> cs[k].asin != cs[i].asin
  }

  /**
   * Only the first competitor carrying a listed ASIN has its flag changed (`find` stops at the first match);
   * later duplicates keep theirs.
   */
  lemma {:induction false} CompetitorFlags(pd: ProcessedData, op: Op, xs: seq<string>, i: int)
    requires op == DeleteCompetitor || op == RestoreCompetitor || op == DeleteProduct || op == RestoreProduct
    requires 0 <= i < |pd.competitors|
    ensures var c := ApplyAll(pd, op, xs).competitors;
      var v := op == DeleteCompetitor || op == DeleteProduct;
      |c| == |pd.competitors| &&
      c[i] == if FirstWithAsin(pd.competitors, i) && pd.competitors[i].asin in Elements(xs)
              then pd.competitors[i].(isDeleted := v) else pd.competitors[i]
  {
    if xs != [] {
      var init := xs[..|xs| - 1];
      var x := xs[|xs| - 1];
      var v := op == DeleteCompetitor || op == DeleteProduct;
      var mid := ApplyAll(pd, op, init);
      CompetitorFlags(pd, op, init, i);
      ApplyAllSameEntries(pd, op, init);
      ElementsSnoc(xs);
      StepCompetitors(mid, op, x);
      FlagCompetitorAt(pd.competitors, mid.competitors, x, v, i);
    }
  }

  /** The competitor-list operations flag the first competitor with the element's ASIN. */
  lemma StepCompetitors(pd: ProcessedData, op: Op, x: string)
    requires op == DeleteCompetitor || op == RestoreCompetitor || op == DeleteProduct || op == RestoreProduct
    ensures Step(pd, op, x).competitors == FlagCompetitor(pd.competitors, x, op == DeleteCompetitor || op == DeleteProduct)
  {
  }

  /** Flagging `x` in a list with the ASINs of `cs0` changes entry `i` only when it is the first with ASIN `x`. */
  lemma FlagCompetitorAt(cs0: seq<Competitor>, cs: seq<Competitor>, x: string, v: bool, i: int)
    requires SameCompetitors(cs0, cs) && 0 <= i < |cs|
    ensures var r := FlagCompetitor(cs, x, v);
      |r| == |cs| &&
      r[i] == if FirstWithAsin(cs0, i) && cs0[i].asin == x then cs[i].(isDeleted := v) else cs[i]
  {
    assert forall k :: 0 <= k < |cs| ==> cs[k].asin == cs0[k].asin by {
      forall k | 0 <= k < |cs| ensures cs[k].asin == cs0[k].asin {
        assert cs[k] == cs0[k].(isDeleted := cs[k].isDeleted);
      }
    }
    if FirstWithAsin(cs0, i) && cs0[i].asin == x {
      FirstWithAt(cs, CompetitorAsin, x, i);
    }
  }


  predicate FirstProductWithAsin(ps: seq<Product>, i: int)
    requires 0 <= i < |ps|
  {
    forall k :: 0 <= k < i ==> ps[k].asin != ps[i].asin
  }

  /** Only the first product carrying a listed ASIN has its flag changed. */
  lemma {:induction false} ProductFlags(pd: ProcessedData, op: Op, xs: seq<string>, i: int)
    requires op == DeleteProduct || op == RestoreProduct
    requires 0 <= i < |pd.products|
    ensures var p := ApplyAll(pd, op, xs).products;
      |p| == |pd.products| &&
      p[i] == if FirstProductWithAsin(pd.products, i) && pd.products[i].asin in Elements(xs)
              then pd.products[i].(isDeleted := op == DeleteProduct) else pd.products[i]
  {
    if xs != [] {
      var init := xs[..|xs| - 1];
      var x := xs[|xs| - 1];
      var mid := ApplyAll(pd, op, init);
      ProductFlags(pd, op, init, i);
      ApplyAllSameEntries(pd, op, init);
      ElementsSnoc(xs);
      StepProducts(mid, op, x);
      FlagProductAt(pd.products, mid.products, x, op == DeleteProduct, i);
    }
  }

  /** The product-list operations flag the first product with the element's ASIN. */
  lemma StepProducts(pd: ProcessedData, op: Op, x: string)
    requires op == DeleteProduct || op == RestoreProduct
    ensures Step(pd, op, x).products == FlagProduct(pd.products, x, op == DeleteProduct)
  {
  }

  /** Flagging `x` in a list with the ASINs of `ps0` changes entry `i` only when it is the first with ASIN `x`. */
  lemma FlagProductAt(ps0: seq<Product>, ps: seq<Product>, x: string, v: bool, i: int)
    requires SameProducts(ps0, ps) && 0 <= i < |ps|
    ensures var r := FlagProduct(ps, x, v);
      |r| == |ps| &&
      r[i] == if FirstProductWithAsin(ps0, i) && ps0[i].asin == x then ps[i].(isDeleted := v) else ps[i]
  {
    assert forall k :: 0 <= k < |ps| ==> ps[k].asin == ps0[k].asin by {
      forall k | 0 <= k < |ps| ensures ps[k].asin == ps0[k].asin {
        assert ps[k] == ps0[k].(isDeleted := ps[k].isDeleted);
      }
    }
    if FirstProductWithAsin(ps0, i) && ps0[i].asin == x {
      FirstWithAt(ps, ProductAsin, x, i);
    }
  }


  // ---------------------------------------------------------------------
  // The root cascade

  lemma KeywordPhraseKept(pd: ProcessedData, op: Op, xs: seq<string>, m: int)
    requires 0 <= m < |pd.keywords|
    ensures var a := ApplyAll(pd, op, xs);
      |a.keywords| == |pd.keywords| && a.keywords[m].phrase == pd.keywords[m].phrase
  {
    ApplyAllSameEntries(pd, op, xs);
  }

  /** The phrases among the first `j` keywords that contain the root `x`. */
  function HitsBefore(ks: seq<Keyword>, x: string, j: int): set<string>
    requires 0 <= j <= |ks|
  {
    set m | 0 <= m < j && RootHit(ks[m].phrase, x) :: ks[m].phrase
  }

  /** The keywords with the flag set on those among the first `j` that contain the root `x`. */
  function FlagHitsBefore(ks: seq<Keyword>, x: string, j: int): (r: seq<Keyword>)
    requires 0 <= j <= |ks|
    ensures |r| == |ks|
  {
    seq(|ks|, m requires 0 <= m < |ks| => if m < j && RootHit(ks[m].phrase, x) then ks[m].(isDeleted := true) else ks[m])
  }

  /** Before the scan of a root deletion nothing is hit. */
  lemma HitsBeforeStart(ks: seq<Keyword>, x: string)
    ensures HitsBefore(ks, x, 0) == {} && FlagHitsBefore(ks, x, 0) == ks
  {
  }

  /** Scanning keyword `j` of a root deletion. */
  lemma HitsBeforeNext(ks: seq<Keyword>, x: string, j: int)
    requires 0 <= j < |ks|
    ensures HitsBefore(ks, x, j + 1) ==
      HitsBefore(ks, x, j) + (if RootHit(ks[j].phrase, x) then {ks[j].phrase} else {})
    ensures FlagHitsBefore(ks, x, j)[j] == ks[j]
    ensures FlagHitsBefore(ks, x, j + 1) ==
      if RootHit(ks[j].phrase, x) then FlagHitsBefore(ks, x, j)[j := ks[j].(isDeleted := true)] else FlagHitsBefore(ks, x, j)
  {
  }

  /** A root deletion written out phrase by phrase: the hit phrases join the deleted set and get their flag set. */
  lemma DeleteRootStepIs(pd: ProcessedData, x: string, deleted: set<string>, keywords: seq<Keyword>)
    requires deleted == pd.deletedKeywords + HitsBefore(pd.keywords, x, |pd.keywords|)
    requires keywords == FlagHitsBefore(pd.keywords, x, |pd.keywords|)
    ensures Step(pd, DeleteRoot, x) ==
      pd.(deletedRootKeywords := pd.deletedRootKeywords + {x}, deletedKeywords := deleted, keywords := keywords)
  {
    var hit := (p: string) => RootHit(p, x);
    assert PhrasesWhere(pd.keywords, hit) == set m | 0 <= m < |pd.keywords| && RootHit(pd.keywords[m].phrase, x) :: pd.keywords[m].phrase;
    assert FlagWhere(pd.keywords, hit, true) == keywords;
  }

  /** The phrases among the first `j` keywords that a restore of the root `x` brings back, given the deleted roots `drk`. */
  function BackBefore(ks: seq<Keyword>, x: string, drk: set<string>, j: int): set<string>
    requires 0 <= j <= |ks|
  {
    set m | 0 <= m < j && Restorable(ks[m].phrase, x, drk) :: ks[m].phrase
  }

  /** The keywords with the flag cleared on those among the first `j` that a restore of the root `x` brings back. */
  function UnflagBackBefore(ks: seq<Keyword>, x: string, drk: set<string>, j: int): (r: seq<Keyword>)
    requires 0 <= j <= |ks|
    ensures |r| == |ks|
  {
    seq(|ks|, m requires 0 <= m < |ks| =>
      if m < j && Restorable(ks[m].phrase, x, drk) then ks[m].(isDeleted := false) else ks[m])
  }

  /** Before the scan of a root restore nothing is brought back. */
  lemma BackBeforeStart(ks: seq<Keyword>, x: string, drk: set<string>)
    ensures BackBefore(ks, x, drk, 0) == {} && UnflagBackBefore(ks, x, drk, 0) == ks
  {
  }

  /** Scanning keyword `j` of a root restore. */
  lemma BackBeforeNext(ks: seq<Keyword>, x: string, drk: set<string>, j: int)
    requires 0 <= j < |ks|
    ensures BackBefore(ks, x, drk, j + 1) ==
      BackBefore(ks, x, drk, j) + (if Restorable(ks[j].phrase, x, drk) then {ks[j].phrase} else {})
    ensures UnflagBackBefore(ks, x, drk, j)[j] == ks[j]
    ensures UnflagBackBefore(ks, x, drk, j + 1) ==
      if Restorable(ks[j].phrase, x, drk) then UnflagBackBefore(ks, x, drk, j)[j := ks[j].(isDeleted := false)]
      else UnflagBackBefore(ks, x, drk, j)
  {
  }

  /** A root restore written out phrase by phrase: the restorable phrases leave the deleted set and get their flag cleared. */
  lemma RestoreRootStepIs(pd: ProcessedData, x: string, deleted: set<string>, keywords: seq<Keyword>)
    requires deleted == pd.deletedKeywords - BackBefore(pd.keywords, x, pd.deletedRootKeywords - {x}, |pd.keywords|)
    requires keywords == UnflagBackBefore(pd.keywords, x, pd.deletedRootKeywords - {x}, |pd.keywords|)
    ensures Step(pd, RestoreRoot, x) ==
      pd.(deletedRootKeywords := pd.deletedRootKeywords - {x}, deletedKeywords := deleted, keywords := keywords)
  {
    var drk := pd.deletedRootKeywords - {x};
    var back := (p: string) => Restorable(p, x, drk);
    assert PhrasesWhere(pd.keywords, back) == BackBefore(pd.keywords, x, drk, |pd.keywords|);
    assert FlagWhere(pd.keywords, back, false) == keywords;
  }

  /** Keyword `m` is soft-deleted: its phrase is in the deleted set and its flag is set. */
  predicate Covered(d: ProcessedData, m: int)
    requires 0 <= m < |d.keywords|
  {
    d.keywords[m].phrase in d.deletedKeywords && d.keywords[m].isDeleted
  }

  /** One root deletion keeps a soft-deleted keyword soft-deleted, and soft-deletes the keywords containing the root. */
  lemma DeleteRootStep(pd: ProcessedData, x: string, m: int)
    requires 0 <= m < |pd.keywords|
    ensures var s := Step(pd, DeleteRoot, x);
      |s.keywords| == |pd.keywords| && s.keywords[m].phrase == pd.keywords[m].phrase &&
      (Covered(pd, m) || RootHit(pd.keywords[m].phrase, x) ==> Covered(s, m))
  {
  }

  /** Deleting roots soft-deletes (and flags) every keyword whose phrase contains one of them in lower case. */
  lemma DeleteRootsCover(pd: ProcessedData, xs: seq<string>, m: int, j: int)
    requires 0 <= m < |pd.keywords| && 0 <= j < |xs|
    ensures var d := ApplyAll(pd, DeleteRoot, xs);
      RootHit(pd.keywords[m].phrase, xs[j]) ==>
        pd.keywords[m].phrase in d.deletedKeywords && m < |d.keywords| && d.keywords[m].isDeleted
  {
    if RootHit(pd.keywords[m].phrase, xs[j]) {
      var before := ApplyAll(pd, DeleteRoot, xs[..j]);
      KeywordPhraseKept(pd, DeleteRoot, xs[..j], m);
      DeleteRootStep(before, xs[j], m);
      assert xs[..j + 1][..j] == xs[..j];
      KeywordPhraseKept(pd, DeleteRoot, xs, m);
      DeleteRootsKeepCovered(pd, xs, m, j + 1);
    }
  }

  /** Once soft-deleted by the first `k` roots, a keyword stays soft-deleted through the remaining ones. */
  lemma {:induction false} DeleteRootsKeepCovered(pd: ProcessedData, xs: seq<string>, m: int, k: int)
    requires 0 <= k <= |xs| && 0 <= m < |pd.keywords|
    requires var b := ApplyAll(pd, DeleteRoot, xs[..k]); m < |b.keywords| && Covered(b, m)
    ensures var d := ApplyAll(pd, DeleteRoot, xs); m < |d.keywords| && Covered(d, m)
  {
    if k < |xs| {
      var init := xs[..|xs| - 1];
      assert init[..k] == xs[..k];
      DeleteRootsKeepCovered(pd, init, m, k);
      DeleteRootStep(ApplyAll(pd, DeleteRoot, init), xs[|xs| - 1], m);
    } else {
      assert xs[..k] == xs;
    }
  }

  /** A phrase newly soft-deleted by a root deletion contains one of the listed roots in lower case. */
  lemma {:induction false} DeleteRootsOnlyHits(pd: ProcessedData, xs: seq<string>, p: string)
    requires p in ApplyAll(pd, DeleteRoot, xs).deletedKeywords && p !in pd.deletedKeywords
    ensures exists j :: 0 <= j < |xs| && RootHit(p, xs[j])
  {
    var init := xs[..|xs| - 1];
    var x := xs[|xs| - 1];
    if p in ApplyAll(pd, DeleteRoot, init).deletedKeywords {
      DeleteRootsOnlyHits(pd, init, p);
      var j :| 0 <= j < |init| && RootHit(p, init[j]);
      assert xs[j] == init[j];
    } else {
      assert RootHit(p, xs[|xs| - 1]);
    }
  }

  /** No keyword left active by a root deletion contains one of the deleted roots. */
  lemma DeleteRootsActiveMiss(pd: ProcessedData, xs: seq<string>, j: int, d: ProcessedData, active: seq<Keyword>)
    requires 0 <= j < |xs|
    requires d == ApplyAll(pd, DeleteRoot, xs) && active == Active(d.keywords, d.deletedKeywords)
    ensures forall i :: 0 <= i < |active| ==> ToLower(xs[j]) !in ExtractRootWords(active[i].phrase)
  {
    ActiveMembers(d.keywords, d.deletedKeywords);
    ApplyAllSameEntries(pd, DeleteRoot, xs);
    forall i | 0 <= i < |active|
      ensures ToLower(xs[j]) !in ExtractRootWords(active[i].phrase)
    {
      assert active[i] in active;
      var m :| 0 <= m < |d.keywords| && d.keywords[m] == active[i];
      assert pd.keywords[m].phrase == d.keywords[m].phrase;
      DeleteRootsCover(pd, xs, m, j);
    }
  }

  /** Marking keeps the records' root words, and flags exactly the records whose word is soft-deleted. */
  lemma MarkRootsWords(rks: seq<RootKeyword>, drk: set<string>)
    ensures RootWords(MarkRoots(rks, drk)) == RootWords(rks)
    ensures forall i :: 0 <= i < |rks| ==> (MarkRoots(rks, drk)[i].isDeleted <==> rks[i].rootWord in drk)
  {
    var mr := MarkRoots(rks, drk);
    assert forall i :: 0 <= i < |rks| ==> mr[i].rootWord == rks[i].rootWord;
  }

  /**
   * After `deleteRootKeywords`, the rebuilt index has no record for the lower-case form of any deleted
   * root: every phrase containing it is now soft-deleted, and only active phrases are indexed.
   */
  lemma DeleteRootsDropRecords(pd: ProcessedData, xs: seq<string>, j: int)
    requires 0 <= j < |xs|
    ensures ToLower(xs[j]) !in RootWords(DeleteRootKeywords(pd, xs).rootKeywords)
  {
    var d := ApplyAll(pd, DeleteRoot, xs);
    var active := Active(d.keywords, d.deletedKeywords);
    var r := ToLower(xs[j]);
    var rks := RootKeywordsOf(d.keywords, d.deletedKeywords);
    assert DeleteRootKeywords(pd, xs).rootKeywords == MarkRoots(rks, d.deletedRootKeywords);
    DeleteRootsActiveMiss(pd, xs, j, d, active);
    NotAPhraseRoot(active, r);
    RootKeywordsRoots(d.keywords, d.deletedKeywords);
    assert r !in RootWords(rks);
    MarkRootsWords(rks, d.deletedRootKeywords);
  }

  /**
   * The restore rule for one root `r`: the phrase of a keyword is soft-deleted afterwards iff it was before
   * and it is not restorable, that is it lacks `r` or another of its roots is still deleted; a restorable
   * phrase comes back even if it had been deleted on its own. Its flag follows.
   */
  lemma RestoreRootRule(pd: ProcessedData, r: string, i: int)
    requires 0 <= i < |pd.keywords|
    ensures var a := ApplyAll(pd, RestoreRoot, [r]);
      var p := pd.keywords[i].phrase;
      var back := Restorable(p, r, pd.deletedRootKeywords - {r});
      a.deletedRootKeywords == pd.deletedRootKeywords - {r} &&
      (p in a.deletedKeywords <==> p in pd.deletedKeywords && !back) &&
      i < |a.keywords| && a.keywords[i].isDeleted == (if back then false else pd.keywords[i].isDeleted)
  {
    assert [r][..0] == [];
    var drk := pd.deletedRootKeywords - {r};
    var back := (p: string) => Restorable(p, r, drk);
    var s := PhrasesWhere(pd.keywords, back);
    assert back(pd.keywords[i].phrase) ==> pd.keywords[i].phrase in s;
  }

  /** A keyword record with the given phrase and neutral other fields. */
  function ExampleKeyword(phrase: string): Keyword {
    Keyword(phrase, 100, false, None, 50.0, true, map[])
  }

  /**
   * With "red dog leash" and "red cat leash" both soft-deleted through the roots "dog" and "red", restoring
   * "red" alone brings back "red cat leash" and keeps "red dog leash" deleted, because "dog" still is.
   */
  lemma RestoreExample()
    ensures var pd := ProcessedData([], [ExampleKeyword("red dog leash"), ExampleKeyword("red cat leash")], [], [],
                                    {"red dog leash", "red cat leash"}, {"dog", "red"}, {}, {});
      ApplyAll(pd, RestoreRoot, ["red"]).deletedKeywords == {"red dog leash"}
  {
    var pd := ProcessedData([], [ExampleKeyword("red dog leash"), ExampleKeyword("red cat leash")], [], [],
                            {"red dog leash", "red cat leash"}, {"dog", "red"}, {}, {});
    assert pd.deletedRootKeywords - {"red"} == {"dog"};
    DogNotRestorable();
    CatRestorable();
    RestoreRootRule(pd, "red", 0);
    RestoreRootRule(pd, "red", 1);
    var a := ApplyAll(pd, RestoreRoot, ["red"]);
    assert a.deletedKeywords <= pd.deletedKeywords by { RootSets(pd, ["red"]); }
  }

  lemma DogNotRestorable()
    ensures !Restorable("red dog leash", "red", {"dog"})
  {
    ExtractRedDogLeash();
    assert ToLower("red") == "red";
    var w := ExtractRootWords("red dog leash");
    assert w[1] == "dog" && w[1] != "red";
  }

  lemma CatRestorable()
    ensures Restorable("red cat leash", "red", {"dog"})
  {
    ExtractRedCatLeash();
    assert ToLower("red") == "red";
    var w := ExtractRootWords("red cat leash");
    assert forall j :: 0 <= j < |w| && w[j] != "red" ==> w[j] == "cat" || w[j] == "leash";
  }
}
