/**
 * The root-keyword index of `CalculationEngine.calculateRootKeywords`:
 * every active keyword phrase is tokenised by `extractRootWords` and each
 * occurrence of a root in a phrase adds the keyword's search volume,
 * relevance and brand/non-brand count to that root's entry (a root repeated
 * in one phrase is counted once per occurrence, its phrase is listed once).
 * Entries keep the order in which their root first appeared, are finished
 * into `RootKeyword` records and are stably sorted by total search volume,
 * largest first.
 */
module RootIndex {
  import opened Text
  import opened Numbers
  import opened Model
  import opened Metrics

  /** The words never taken as roots. */
  const StopWordSet: set<string> := set i | 0 <= i < |StopWords| :: StopWords[i]

  const StopWords: seq<string> := [
    "the", "and", "for", "with", "are", "you", "all", "any", "can", "had", "her", "was", "one",
    "our", "out", "day", "get", "has", "him", "his", "how", "its", "may", "new", "now", "old",
    "see", "two", "way", "who", "boy", "did", "men", "run", "she", "try", "use"
  ]

  predicate IsRoot(w: string) {
    |w| > 2 && w !in StopWordSet
  }

  /** The words kept as roots, in order. */
  function KeepRoots(ws: seq<string>): seq<string> {
    if ws == [] then []
    else
      var init := ws[..|ws| - 1];
      var w := ws[|ws| - 1];
      if IsRoot(w) then KeepRoots(init) + [w] else KeepRoots(init)
  }

  lemma {:induction false} KeepRootsMembers(ws: seq<string>)
    ensures forall w :: w in KeepRoots(ws) <==> w in ws && IsRoot(w)
  {
    if ws != [] {
      var init := ws[..|ws| - 1];
      KeepRootsMembers(init);
      assert ws == init + [ws[|ws| - 1]];
    }
  }

  /** `extractRootWords`: lower-case, split on white space, keep words longer than 2 characters that are not stop words. */
  function ExtractRootWords(phrase: string): seq<string> {
    KeepRoots(SplitWs(ToLower(phrase)))
  }

  /** Every root is longer than two characters, is not a stop word and has no white space in it. */
  lemma RootsAreWords(phrase: string)
    ensures forall w :: w in ExtractRootWords(phrase) ==> IsRoot(w) && NoSpace(w)
  {
    var ws := SplitWs(ToLower(phrase));
    KeepRootsMembers(ws);
    forall w | w in ExtractRootWords(phrase) ensures IsRoot(w) && NoSpace(w) {
      assert w in ws;
      var i :| 0 <= i < |ws| && ws[i] == w;
    }
  }

  lemma {:induction false} KeepRootsAll(ws: seq<string>)
    requires forall i :: 0 <= i < |ws| ==> IsRoot(ws[i])
    ensures KeepRoots(ws) == ws
  {
    if ws != [] {
      KeepRootsAll(ws[..|ws| - 1]);
    }
  }

  lemma ExampleWordsAreRoots()
    ensures IsRoot("red") && IsRoot("dog") && IsRoot("cat") && IsRoot("leash")
  {
    assert IsRoot("red");
    assert IsRoot("dog");
    assert IsRoot("cat");
  }

  predicate LowerLetters(s: string) {
    forall i :: 0 <= i < |s| ==> 'a' <= s[i] <= 'z'
  }

  /** Three lower-case words joined by single spaces tokenise into those words. */
  lemma SplitThreeWords(x: string, y: string, z: string, s: string)
    requires x != [] && y != [] && z != []
    requires LowerLetters(x) && LowerLetters(y) && LowerLetters(z)
    requires s == x + " " + y + " " + z
    ensures SplitWs(ToLower(s)) == [x, y, z]
  {
    var ws := [x, y, z];
    assert ToLower(s) == s by {
      forall i | 0 <= i < |s| ensures LowerChar(s[i]) == s[i] {
        if i < |x| { assert s[i] == x[i]; }
        else if i == |x| { assert s[i] == ' '; }
        else if i < |x| + 1 + |y| { assert s[i] == y[i - |x| - 1]; }
        else if i == |x| + 1 + |y| { assert s[i] == ' '; }
        else { assert s[i] == z[i - |x| - |y| - 2]; }
      }
    }
    assert Join(ws, ' ') == s by {
      assert ws[..2] == [x, y] && ws[2] == z;
      assert [x, y][..1] == [x] && [x, y][1] == y;
      assert Join([x], ' ') == x;
      assert Join([x, y], ' ') == x + " " + y;
    }
    forall i | 0 <= i < |ws| ensures ws[i] != [] && NoSpace(ws[i]) {
      assert LowerLetters(ws[i]);
    }
    SplitWsJoin(ws);
  }

  /** Tokenising the phrases of the running example. */
  lemma ExtractRedDogLeash()
    ensures ExtractRootWords("red dog leash") == ["red", "dog", "leash"]
  {
    assert LowerLetters("red") && LowerLetters("dog") && LowerLetters("leash");
    SplitThreeWords("red", "dog", "leash", "red dog leash");
    ExampleWordsAreRoots();
    KeepRootsAll(["red", "dog", "leash"]);
  }

  lemma ExtractRedCatLeash()
    ensures ExtractRootWords("red cat leash") == ["red", "cat", "leash"]
  {
    assert LowerLetters("red") && LowerLetters("cat") && LowerLetters("leash");
    SplitThreeWords("red", "cat", "leash", "red cat leash");
    ExampleWordsAreRoots();
    KeepRootsAll(["red", "cat", "leash"]);
  }

  // ---------------------------------------------------------------------
  // The aggregation table (the source's `rootMap`)

  datatype RootAcc = RootAcc(
    totalSV: int,
    relevances: seq<real>,
    brandCount: nat,
    nonBrandCount: nat,
    relatedPhrases: seq<string>)

  /** A map together with its insertion order, as a JavaScript `Map` iterates. */
  datatype RootTable = RootTable(order: seq<string>, entries: map<string, RootAcc>)

  const EmptyAcc := RootAcc(0, [], 0, 0, [])
  const EmptyTable := RootTable([], map[])

  /** One occurrence of `root` in the phrase of keyword `k`. */
  function AddOccurrence(t: RootTable, root: string, k: Keyword): RootTable {
    var a := if root in t.entries then t.entries[root] else EmptyAcc;
    var a' := RootAcc(
      a.totalSV + k.searchVolume,
      a.relevances + [k.relevance],
      a.brandCount + (if k.isBrand then 1 else 0),
      a.nonBrandCount + (if k.isBrand then 0 else 1),
      if k.phrase in a.relatedPhrases then a.relatedPhrases else a.relatedPhrases + [k.phrase]);
    RootTable(if root in t.entries then t.order else t.order + [root], t.entries[root := a'])
  }

  /** The occurrences of `roots` (the roots of `k`'s phrase, in order). */
  function AddKeyword(t: RootTable, k: Keyword, roots: seq<string>): RootTable {
    if roots == [] then t
    else AddOccurrence(AddKeyword(t, k, roots[..|roots| - 1]), roots[|roots| - 1], k)
  }

  /** The table built from a list of (active) keywords. */
  function TableOf(active: seq<Keyword>): RootTable {
    if active == [] then EmptyTable
    else
      var k := active[|active| - 1];
      AddKeyword(TableOf(active[..|active| - 1]), k, ExtractRootWords(k.phrase))
  }

  predicate Distinct<T(==)>(s: seq<T>) {
    forall i, j :: 0 <= i < j < |s| ==> s[i] != s[j]
  }

  ghost predicate WellFormed(t: RootTable) {
    Distinct(t.order) &&
    (forall r :: r in t.order <==> r in t.entries) &&
    (forall r :: r in t.entries ==>
      Distinct(t.entries[r].relatedPhrases) &&
      t.entries[r].brandCount + t.entries[r].nonBrandCount == |t.entries[r].relevances|)
  }

  lemma AddOccurrenceWellFormed(t: RootTable, root: string, k: Keyword)
    requires WellFormed(t)
    ensures WellFormed(AddOccurrence(t, root, k))
  {
    var t' := AddOccurrence(t, root, k);
    if root !in t.entries {
      assert root !in t.order;
      assert Distinct(t'.order);
    }
  }

  lemma {:induction false} AddKeywordWellFormed(t: RootTable, k: Keyword, roots: seq<string>)
    requires WellFormed(t)
    ensures WellFormed(AddKeyword(t, k, roots))
  {
    if roots != [] {
      AddKeywordWellFormed(t, k, roots[..|roots| - 1]);
      AddOccurrenceWellFormed(AddKeyword(t, k, roots[..|roots| - 1]), roots[|roots| - 1], k);
    }
  }

  lemma {:induction false} TableWellFormed(active: seq<Keyword>)
    ensures WellFormed(TableOf(active))
  {
    if active != [] {
      TableWellFormed(active[..|active| - 1]);
      var k := active[|active| - 1];
      AddKeywordWellFormed(TableOf(active[..|active| - 1]), k, ExtractRootWords(k.phrase));
    }
  }

  /** Adding a keyword's roots adds exactly those roots, and lists its phrase under each of them. */
  lemma {:induction false} AddKeywordContents(t: RootTable, k: Keyword, roots: seq<string>)
    ensures var t' := AddKeyword(t, k, roots);
      (forall r :: r in t'.entries <==> r in t.entries || r in roots) &&
      (forall r, p :: r in t'.entries ==>
        (p in t'.entries[r].relatedPhrases <==>
          (r in t.entries && p in t.entries[r].relatedPhrases) || (r in roots && p == k.phrase)))
  {
    if roots != [] {
      var init := roots[..|roots| - 1];
      AddKeywordContents(t, k, init);
      assert roots == init + [roots[|roots| - 1]];
    }
  }

  /** The roots of the phrases of `ks`. */
  function PhraseRoots(ks: seq<Keyword>): set<string> {
    if ks == [] then {}
    else
      var w := ExtractRootWords(ks[|ks| - 1].phrase);
      PhraseRoots(ks[..|ks| - 1]) + set i | 0 <= i < |w| :: w[i]
  }

  /** The phrases of `ks` that contain root `r`. */
  function PhrasesWithRoot(ks: seq<Keyword>, r: string): set<string> {
    if ks == [] then {}
    else
      var k := ks[|ks| - 1];
      PhrasesWithRoot(ks[..|ks| - 1], r) + (if r in ExtractRootWords(k.phrase) then {k.phrase} else {})
  }

  lemma {:induction false} PhraseRootsMeaning(ks: seq<Keyword>, r: string)
    ensures r in PhraseRoots(ks) <==> exists i :: 0 <= i < |ks| && r in ExtractRootWords(ks[i].phrase)
  {
    if ks != [] {
      var init := ks[..|ks| - 1];
      PhraseRootsMeaning(init, r);
      if r in PhraseRoots(init) {
        var i :| 0 <= i < |init| && r in ExtractRootWords(init[i].phrase);
        assert ks[i] == init[i];
      }
      if exists i :: 0 <= i < |ks| && r in ExtractRootWords(ks[i].phrase) {
        var i :| 0 <= i < |ks| && r in ExtractRootWords(ks[i].phrase);
        if i < |init| { assert init[i] == ks[i]; }
      }
    }
  }

  /** A word that is a root of no phrase of `ks` is not among their roots. */
  lemma {:induction false} NotAPhraseRoot(ks: seq<Keyword>, r: string)
    requires forall i :: 0 <= i < |ks| ==> r !in ExtractRootWords(ks[i].phrase)
    ensures r !in PhraseRoots(ks)
  {
    if ks != [] {
      var init := ks[..|ks| - 1];
      assert forall i :: 0 <= i < |init| ==> init[i] == ks[i];
      NotAPhraseRoot(init, r);
      var w := ExtractRootWords(ks[|ks| - 1].phrase);
      assert r !in w;
      assert r !in set i | 0 <= i < |w| :: w[i];
    }
  }

  /** A phrase listed for `r` is the phrase of some keyword containing `r`. */
  lemma {:induction false} PhrasesWithRootWitness(ks: seq<Keyword>, r: string, p: string) returns (i: int)
    requires p in PhrasesWithRoot(ks, r)
    ensures 0 <= i < |ks| && ks[i].phrase == p && r in ExtractRootWords(ks[i].phrase)
  {
    var n := |ks| - 1;
    if p in PhrasesWithRoot(ks[..n], r) {
      i := PhrasesWithRootWitness(ks[..n], r, p);
      assert ks[..n][i] == ks[i];
    } else {
      i := n;
    }
  }

  /** The phrase of every keyword containing `r` is listed for `r`. */
  lemma {:induction false} PhrasesWithRootComplete(ks: seq<Keyword>, r: string, i: int)
    requires 0 <= i < |ks| && r in ExtractRootWords(ks[i].phrase)
    ensures ks[i].phrase in PhrasesWithRoot(ks, r)
  {
    var n := |ks| - 1;
    var init := ks[..n];
    assert PhrasesWithRoot(ks, r) ==
      PhrasesWithRoot(init, r) + (if r in ExtractRootWords(ks[n].phrase) then {ks[n].phrase} else {});
    if i < n {
      assert init[i] == ks[i];
      PhrasesWithRootComplete(init, r, i);
    }
  }

  /** A root with a phrase is a root of the list. */
  lemma {:induction false} PhrasesWithRootHasRoot(ks: seq<Keyword>, r: string)
    ensures PhrasesWithRoot(ks, r) != {} ==> r in PhraseRoots(ks)
  {
    if ks != [] {
      PhrasesWithRootHasRoot(ks[..|ks| - 1], r);
    }
  }

  /** A root has an entry iff it is a root of some active phrase. */
  lemma {:induction false} TableKeys(active: seq<Keyword>)
    ensures TableOf(active).entries.Keys == PhraseRoots(active)
  {
    if active != [] {
      var init := active[..|active| - 1];
      var k := active[|active| - 1];
      TableKeys(init);
      AddKeywordContents(TableOf(init), k, ExtractRootWords(k.phrase));
    }
  }

  /** An entry's related phrases are exactly the active phrases containing its root. */
  lemma {:induction false} TableRelated(active: seq<Keyword>, r: string)
    requires r in TableOf(active).entries
    ensures forall p :: p in TableOf(active).entries[r].relatedPhrases <==> p in PhrasesWithRoot(active, r)
  {
    var init := active[..|active| - 1];
    var k := active[|active| - 1];
    AddKeywordContents(TableOf(init), k, ExtractRootWords(k.phrase));
    if r in TableOf(init).entries {
      TableRelated(init, r);
    } else {
      TableKeys(init);
      PhrasesWithRootHasRoot(init, r);
    }
  }

  // ---------------------------------------------------------------------
  // What an entry adds up: every occurrence of the root in a phrase counts

  /** The number of times `r` occurs in `ws`. */
  function Occ(r: string, ws: seq<string>): nat {
    if ws == [] then 0 else Occ(r, ws[..|ws| - 1]) + (if ws[|ws| - 1] == r then 1 else 0)
  }

  /** The sum over `ks` of each search volume times the occurrences of `r` among the phrase's roots. */
  function RootSV(ks: seq<Keyword>, r: string): int {
    if ks == [] then 0
    else
      var k := ks[|ks| - 1];
      RootSV(ks[..|ks| - 1], r) + k.searchVolume * Occ(r, ExtractRootWords(k.phrase))
  }

  /** The occurrences of `r` in the phrases of the brand keywords of `ks`. */
  function RootBrandCount(ks: seq<Keyword>, r: string): nat {
    if ks == [] then 0
    else
      var k := ks[|ks| - 1];
      RootBrandCount(ks[..|ks| - 1], r) + (if k.isBrand then Occ(r, ExtractRootWords(k.phrase)) else 0)
  }

  /** The occurrences of `r` in the phrases of the other keywords of `ks`. */
  function RootNonBrandCount(ks: seq<Keyword>, r: string): nat {
    if ks == [] then 0
    else
      var k := ks[|ks| - 1];
      RootNonBrandCount(ks[..|ks| - 1], r) + (if k.isBrand then 0 else Occ(r, ExtractRootWords(k.phrase)))
  }

  /** `x` added up `n` times. */
  function Repeated(x: real, n: nat): real {
    if n == 0 then 0.0 else Repeated(x, n - 1) + x
  }

  lemma {:induction false} RepeatedAdd(x: real, m: nat, d: nat)
    ensures Repeated(x, m + d) == Repeated(x, m) + Repeated(x, d)
  {
    if d > 0 {
      RepeatedAdd(x, m, d - 1);
    }
  }

  /** The sum over `ks` of each relevance times the occurrences of `r` among the phrase's roots. */
  function RootRelevance(ks: seq<Keyword>, r: string): real {
    if ks == [] then 0.0
    else
      var k := ks[|ks| - 1];
      RootRelevance(ks[..|ks| - 1], r) + Repeated(k.relevance, Occ(r, ExtractRootWords(k.phrase)))
  }

  /** The entry of `r`, or the empty entry the source creates on its first occurrence. */
  function EntryOf(t: RootTable, r: string): RootAcc {
    if r in t.entries then t.entries[r] else EmptyAcc
  }

  /** Entry `a` is `a0` with `n` occurrences of keyword `k` added. */
  predicate Adds(a: RootAcc, a0: RootAcc, k: Keyword, n: nat) {
    a.totalSV == a0.totalSV + k.searchVolume * n &&
    a.brandCount == a0.brandCount + (if k.isBrand then n else 0) &&
    a.nonBrandCount == a0.nonBrandCount + (if k.isBrand then 0 else n) &&
    SumReals(a.relevances) == SumReals(a0.relevances) + Repeated(k.relevance, n)
  }

  lemma AddsTrans(a2: RootAcc, a1: RootAcc, a0: RootAcc, k: Keyword, m: nat, d: nat)
    requires Adds(a1, a0, k, m) && Adds(a2, a1, k, d)
    ensures Adds(a2, a0, k, m + d)
  {
    assert k.searchVolume * (m + d) == k.searchVolume * m + k.searchVolume * d;
    RepeatedAdd(k.relevance, m, d);
  }

  /** One occurrence of `root` adds the keyword once to `r`'s entry when `r` is `root`, and nothing otherwise. */
  lemma AddOccurrenceSums(t: RootTable, root: string, k: Keyword, r: string)
    ensures Adds(EntryOf(AddOccurrence(t, root, k), r), EntryOf(t, r), k, if root == r then 1 else 0)
  {
    var t1 := AddOccurrence(t, root, k);
    if root == r {
      var a0 := EntryOf(t, root);
      var a := t1.entries[root];
      assert a.relevances == a0.relevances + [k.relevance];
      assert a.relevances[..|a.relevances| - 1] == a0.relevances;
      assert Repeated(k.relevance, 1) == k.relevance;
      assert EntryOf(t1, r) == a;
    } else {
      assert EntryOf(t1, r) == EntryOf(t, r);
      AddsNothing(EntryOf(t, r), k);
    }
  }

  /** Adding a keyword's roots adds the keyword to `r`'s entry once per occurrence of `r` among them. */
  lemma {:induction false} AddKeywordSums(t: RootTable, k: Keyword, roots: seq<string>, r: string)
    ensures Adds(EntryOf(AddKeyword(t, k, roots), r), EntryOf(t, r), k, Occ(r, roots))
  {
    if roots == [] {
      AddsNothing(EntryOf(t, r), k);
    } else {
      var init := roots[..|roots| - 1];
      var last := roots[|roots| - 1];
      var t1 := AddKeyword(t, k, init);
      var d := if last == r then 1 else 0;
      AddKeywordSums(t, k, init, r);
      AddOccurrenceSums(t1, last, k, r);
      AddsTrans(EntryOf(AddOccurrence(t1, last, k), r), EntryOf(t1, r), EntryOf(t, r), k, Occ(r, init), d);
      assert AddKeyword(t, k, roots) == AddOccurrence(t1, last, k);
      assert Occ(r, roots) == Occ(r, init) + d;
    }
  }

  lemma AddsNothing(a: RootAcc, k: Keyword)
    ensures Adds(a, a, k, 0)
  {
    assert k.searchVolume * 0 == 0;
    assert Repeated(k.relevance, 0) == 0.0;
  }

  /** Entry `a` holds the occurrence sums of `r` over `ks`. */
  predicate Totals(a: RootAcc, ks: seq<Keyword>, r: string) {
    a.totalSV == RootSV(ks, r) &&
    a.brandCount == RootBrandCount(ks, r) &&
    a.nonBrandCount == RootNonBrandCount(ks, r) &&
    SumReals(a.relevances) == RootRelevance(ks, r)
  }

  lemma TotalsStep(a: RootAcc, a0: RootAcc, init: seq<Keyword>, k: Keyword, r: string)
    requires Totals(a0, init, r) && Adds(a, a0, k, Occ(r, ExtractRootWords(k.phrase)))
    ensures Totals(a, init + [k], r)
  {
    assert (init + [k])[..|init|] == init;
  }

  /**
   * Every entry of the table adds up the occurrences of its root: `totalSV` is the sum of each active keyword's
   * volume times the occurrences of the root in its phrase, the brand and non-brand counts count those
   * occurrences, and the relevances sum to the occurrence-weighted relevance ("dog dog bed" counts twice for
   * "dog").
   */
  lemma {:induction false} TableSums(active: seq<Keyword>, r: string)
    ensures Totals(EntryOf(TableOf(active), r), active, r)
  {
    if active == [] {
      assert SumReals([]) == 0.0;
    } else {
      var init := active[..|active| - 1];
      var k := active[|active| - 1];
      var roots := ExtractRootWords(k.phrase);
      TableSums(init, r);
      AddKeywordSums(TableOf(init), k, roots, r);
      assert TableOf(active) == AddKeyword(TableOf(init), k, roots);
      assert active == init + [k];
      TotalsStep(EntryOf(TableOf(active), r), EntryOf(TableOf(init), r), init, k, r);
    }
  }

  lemma DogDogBedRoots()
    ensures ExtractRootWords("dog dog bed") == ["dog", "dog", "bed"]
    ensures Occ("dog", ["dog", "dog", "bed"]) == 2
  {
    var roots := ["dog", "dog", "bed"];
    assert LowerLetters("dog") && LowerLetters("bed");
    SplitThreeWords("dog", "dog", "bed", "dog dog bed");
    assert IsRoot("dog");
    assert IsRoot("bed");
    KeepRootsAll(roots);
    assert roots[..2] == ["dog", "dog"] && ["dog", "dog"][..1] == ["dog"] && ["dog"][..0] == [];
  }

  /** An entry built from one keyword lists that keyword's phrase once. */
  lemma SingleKeywordRelated(k: Keyword, r: string)
    requires r in TableOf([k]).entries
    ensures TableOf([k]).entries[r].relatedPhrases == [k.phrase]
  {
    var t := TableOf([k]);
    var roots := ExtractRootWords(k.phrase);
    assert [k][..0] == [];
    assert t == AddKeyword(EmptyTable, k, roots);
    AddKeywordContents(EmptyTable, k, roots);
    TableWellFormed([k]);
    OnlyElement(t.entries[r].relatedPhrases, k.phrase);
  }

  /** A list without duplicates that holds `x` and nothing else is `[x]`. */
  lemma OnlyElement<T>(s: seq<T>, x: T)
    requires Distinct(s) && x in s && forall p :: p in s ==> p == x
    ensures s == [x]
  {
    var i :| 0 <= i < |s| && s[i] == x;
    forall j | 0 <= j < |s| ensures s[j] == x && (j == i || s[j] != s[i]) {
      assert s[j] in s;
    }
    assert s[0] == x && s[|s| - 1] == x;
  }

  /** A phrase that repeats a root adds its volume and a count once per occurrence, but is listed once. */
  lemma RepeatedRootExample(k: Keyword)
    requires k.phrase == "dog dog bed"
    ensures var e := EntryOf(TableOf([k]), "dog");
      e.totalSV == 2 * k.searchVolume && e.brandCount + e.nonBrandCount == 2 && e.relatedPhrases == ["dog dog bed"]
  {
    DogDogBedRoots();
    assert [k][..0] == [];
    TableSums([k], "dog");
    assert RootSV([k], "dog") == k.searchVolume * 2;
    assert RootBrandCount([k], "dog") + RootNonBrandCount([k], "dog") == 2;
    TableKeys([k]);
    assert "dog" in PhraseRoots([k]) by {
      var w := ExtractRootWords(k.phrase);
      assert w[0] == "dog";
    }
    SingleKeywordRelated(k, "dog");
  }

  /** A word occurs in a list at least once exactly when it is in it. */
  lemma {:induction false} OccPositive(r: string, ws: seq<string>)
    ensures Occ(r, ws) > 0 <==> r in ws
  {
    if ws != [] {
      var init := ws[..|ws| - 1];
      OccPositive(r, init);
      assert ws == init + [ws[|ws| - 1]];
    }
  }

  /** A root of an active phrase occurs at least once. */
  lemma {:induction false} RootCounted(active: seq<Keyword>, r: string)
    requires r in PhraseRoots(active)
    ensures RootBrandCount(active, r) + RootNonBrandCount(active, r) >= 1
  {
    var init := active[..|active| - 1];
    var k := active[|active| - 1];
    var w := ExtractRootWords(k.phrase);
    if r in PhraseRoots(init) {
      RootCounted(init, r);
    } else {
      assert r in set i | 0 <= i < |w| :: w[i];
      OccPositive(r, w);
    }
  }

  // ---------------------------------------------------------------------
  // Finishing and sorting

  function SumReals(xs: seq<real>): real {
    if xs == [] then 0.0 else SumReals(xs[..|xs| - 1]) + xs[|xs| - 1]
  }

  /** A `RootKeyword` record from a table entry: rounded mean relevance, total count, rounded brand percentage. */
  function Finish(root: string, a: RootAcc): RootKeyword {
    var n := |a.relevances|;
    var total := a.brandCount + a.nonBrandCount;
    RootKeyword(
      root, a.totalSV,
      if n > 0 then Round(SumReals(a.relevances) / n as real) else 0,
      a.brandCount, a.nonBrandCount, total,
      if total > 0 then Round((a.brandCount as real / total as real) * 100.0) else 0,
      a.relatedPhrases, false)
  }

  /** The finished records in the table's insertion order. */
  function Records(t: RootTable): (r: seq<RootKeyword>)
    requires WellFormed(t)
    ensures |r| == |t.order|
  {
    seq(|t.order|, i requires 0 <= i < |t.order| => Finish(t.order[i], t.entries[t.order[i]]))
  }

  predicate SortedBySV(s: seq<RootKeyword>) {
    forall i, j :: 0 <= i < j < |s| ==> s[i].totalSV >= s[j].totalSV
  }

  /** Insert `x` after every element whose total search volume is at least its own (so equal elements keep their order). */
  function InsertBySV(x: RootKeyword, s: seq<RootKeyword>): (r: seq<RootKeyword>)
    ensures multiset(r) == multiset(s) + multiset{x}
  {
    if s == [] then [x]
    else if s[0].totalSV >= x.totalSV then
      assert s == [s[0]] + s[1..];
      [s[0]] + InsertBySV(x, s[1..])
    else
      [x] + s
  }

  lemma {:induction false} InsertSorted(x: RootKeyword, s: seq<RootKeyword>)
    requires SortedBySV(s)
    ensures SortedBySV(InsertBySV(x, s))
  {
    if s != [] && s[0].totalSV >= x.totalSV {
      var rest := InsertBySV(x, s[1..]);
      assert SortedBySV(s[1..]);
      InsertSorted(x, s[1..]);
      assert AtMost(s[0].totalSV, s[1..]);
      InsertAtMost(s[0].totalSV, x, s[1..]);
      ConsSorted(s[0], rest);
    } else if s != [] {
      assert AtMost(x.totalSV, s);
      ConsSorted(x, s);
    }
  }

  /** No element of `s` has a total search volume above `v`. */
  predicate AtMost(v: int, s: seq<RootKeyword>) {
    forall i :: 0 <= i < |s| ==> s[i].totalSV <= v
  }

  lemma InsertAtMost(v: int, x: RootKeyword, s: seq<RootKeyword>)
    requires AtMost(v, s) && x.totalSV <= v
    ensures AtMost(v, InsertBySV(x, s))
  {
    var r := InsertBySV(x, s);
    forall i | 0 <= i < |r| ensures r[i].totalSV <= v {
      var y := r[i];
      assert y in multiset(r);
      if y != x {
        assert y in multiset(s);
        var k :| 0 <= k < |s| && s[k] == y;
      }
    }
  }

  lemma ConsSorted(h: RootKeyword, s: seq<RootKeyword>)
    requires SortedBySV(s) && AtMost(h.totalSV, s)
    ensures SortedBySV([h] + s)
  {
    var r := [h] + s;
    forall a, b | 0 <= a < b < |r| ensures r[a].totalSV >= r[b].totalSV {
      assert r[b] == s[b - 1];
      if a > 0 {
        assert r[a] == s[a - 1];
      }
    }
  }

  /** The records of `s` whose total search volume is `v`, in their order. */
  function WithSV(s: seq<RootKeyword>, v: int): seq<RootKeyword> {
    if s == [] then [] else Only(s[0], v) + WithSV(s[1..], v)
  }

  function Only(x: RootKeyword, v: int): seq<RootKeyword> {
    if x.totalSV == v then [x] else []
  }

  lemma WithSVCons(x: RootKeyword, s: seq<RootKeyword>, v: int)
    ensures WithSV([x] + s, v) == Only(x, v) + WithSV(s, v)
  {
    assert ([x] + s)[1..] == s;
  }

  lemma {:induction false} WithSVAppend(a: seq<RootKeyword>, b: seq<RootKeyword>, v: int)
    ensures WithSV(a + b, v) == WithSV(a, v) + WithSV(b, v)
  {
    if a == [] {
      assert a + b == b;
    } else {
      assert a + b == [a[0]] + (a[1..] + b);
      WithSVCons(a[0], a[1..] + b, v);
      WithSVAppend(a[1..], b, v);
    }
  }

  /** A list whose totals are all below `v` has no record with total `v`. */
  lemma {:induction false} WithSVNone(u: int, s: seq<RootKeyword>, v: int)
    requires AtMost(u, s) && u < v
    ensures WithSV(s, v) == []
  {
    if s != [] {
      assert AtMost(u, s[1..]);
      WithSVNone(u, s[1..], v);
    }
  }

  /** Insertion puts `x` after every record of the sorted list that has its total. */
  lemma {:induction false} InsertStable(x: RootKeyword, s: seq<RootKeyword>, v: int)
    requires SortedBySV(s)
    ensures WithSV(InsertBySV(x, s), v) == WithSV(s, v) + Only(x, v)
  {
    if s == [] {
      WithSVCons(x, [], v);
      assert [x] + [] == [x];
    } else if s[0].totalSV >= x.totalSV {
      assert SortedBySV(s[1..]);
      InsertStable(x, s[1..], v);
      WithSVCons(s[0], InsertBySV(x, s[1..]), v);
    } else {
      WithSVCons(x, s, v);
      if x.totalSV == v {
        assert AtMost(s[0].totalSV, s);
        WithSVNone(s[0].totalSV, s, v);
      }
    }
  }

  lemma InsertStableAll(x: RootKeyword, s: seq<RootKeyword>)
    requires SortedBySV(s)
    ensures forall v :: WithSV(InsertBySV(x, s), v) == WithSV(s, v) + Only(x, v)
  {
    forall v ensures WithSV(InsertBySV(x, s), v) == WithSV(s, v) + Only(x, v) {
      InsertStable(x, s, v);
    }
  }

  lemma WithSVSnoc(s: seq<RootKeyword>, x: RootKeyword)
    ensures forall v :: WithSV(s + [x], v) == WithSV(s, v) + Only(x, v)
  {
    forall v ensures WithSV(s + [x], v) == WithSV(s, v) + Only(x, v) {
      WithSVAppend(s, [x], v);
      WithSVCons(x, [], v);
      assert [x] + [] == [x];
    }
  }

  /**
   * `rootKeywords.sort((a, b) => b.totalSV - a.totalSV)`: a permutation, largest total first, and stable (the
   * records with one total keep their order).
   */
  function SortBySV(s: seq<RootKeyword>): (r: seq<RootKeyword>)
    ensures SortedBySV(r)
    ensures multiset(r) == multiset(s)
    ensures forall v :: WithSV(r, v) == WithSV(s, v)
  {
    if s == [] then []
    else
      var init := SortBySV(s[..|s| - 1]);
      assert s == s[..|s| - 1] + [s[|s| - 1]];
      InsertSorted(s[|s| - 1], init);
      InsertStableAll(s[|s| - 1], init);
      WithSVSnoc(s[..|s| - 1], s[|s| - 1]);
      InsertBySV(s[|s| - 1], init)
  }

  /** `calculateRootKeywords` on a keyword list and a set of deleted phrases. */
  function RootKeywordsOf(keywords: seq<Keyword>, deleted: set<string>): seq<RootKeyword> {
    var t := TableOf(Active(keywords, deleted));
    TableWellFormed(Active(keywords, deleted));
    SortBySV(Records(t))
  }

  /** A finished record counts every occurrence once, and its brand percentage lies in [0, 100]. */
  lemma FinishFacts(root: string, a: RootAcc)
    ensures var r := Finish(root, a);
      r.rootWord == root && r.totalSV == a.totalSV && r.brandCount == a.brandCount &&
      r.nonBrandCount == a.nonBrandCount && r.totalCount == r.brandCount + r.nonBrandCount &&
      0 <= r.brandPercentage <= 100 && r.relatedPhrases == a.relatedPhrases && !r.isDeleted
  {
    var total := a.brandCount + a.nonBrandCount;
    if total > 0 {
      assert (a.brandCount as real / total as real) * 100.0 == 100.0 * a.brandCount as real / total as real;
      RoundPercentBounds(a.brandCount, total);
    }
  }

  function RootWords(rs: seq<RootKeyword>): set<string> {
    set i | 0 <= i < |rs| :: rs[i].rootWord
  }

  /** Each sorted record is one of the records of the table. */
  lemma SortedFromRecords(keywords: seq<Keyword>, deleted: set<string>, i: int)
    requires 0 <= i < |RootKeywordsOf(keywords, deleted)|
    ensures var t := TableOf(Active(keywords, deleted));
      WellFormed(t) &&
      exists a :: 0 <= a < |t.order| && RootKeywordsOf(keywords, deleted)[i] == Finish(t.order[a], t.entries[t.order[a]])
  {
    var t := TableOf(Active(keywords, deleted));
    TableWellFormed(Active(keywords, deleted));
    var recs := Records(t);
    var rs := RootKeywordsOf(keywords, deleted);
    assert rs[i] in multiset(recs);
    var a :| 0 <= a < |recs| && recs[a] == rs[i];
  }

  /** The records of the table have distinct root words. */
  lemma RecordsDistinct(t: RootTable)
    requires WellFormed(t)
    ensures Distinct(Records(t))
  {
    var recs := Records(t);
    forall a, b | 0 <= a < b < |recs| ensures recs[a] != recs[b] {
      assert recs[a].rootWord == t.order[a] && recs[b].rootWord == t.order[b];
    }
  }

  /** Two positions of the index hold records for different roots. */
  lemma RootKeywordsDistinctAt(keywords: seq<Keyword>, deleted: set<string>, i: int, j: int)
    requires 0 <= i < j < |RootKeywordsOf(keywords, deleted)|
    ensures RootKeywordsOf(keywords, deleted)[i].rootWord != RootKeywordsOf(keywords, deleted)[j].rootWord
  {
    var t := TableOf(Active(keywords, deleted));
    TableWellFormed(Active(keywords, deleted));
    var rs := RootKeywordsOf(keywords, deleted);
    RecordsDistinct(t);
    PermutationDistinct(rs, Records(t));
    assert rs[i] != rs[j];
    SortedFromRecords(keywords, deleted, i);
    SortedFromRecords(keywords, deleted, j);
    var a :| 0 <= a < |t.order| && rs[i] == Finish(t.order[a], t.entries[t.order[a]]);
    var b :| 0 <= b < |t.order| && rs[j] == Finish(t.order[b], t.entries[t.order[b]]);
    assert a != b;
  }

  /** No two records of the index share a root word. */
  lemma RootKeywordsDistinct(keywords: seq<Keyword>, deleted: set<string>)
    ensures var rs := RootKeywordsOf(keywords, deleted);
      forall i, j :: 0 <= i < j < |rs| ==> rs[i].rootWord != rs[j].rootWord
  {
    var rs := RootKeywordsOf(keywords, deleted);
    forall i, j | 0 <= i < j < |rs| ensures rs[i].rootWord != rs[j].rootWord {
      RootKeywordsDistinctAt(keywords, deleted, i, j);
    }
  }

  /** Every record is for a root of an active phrase. */
  lemma RootKeywordsSound(keywords: seq<Keyword>, deleted: set<string>)
    ensures RootWords(RootKeywordsOf(keywords, deleted)) <= PhraseRoots(Active(keywords, deleted))
  {
    var active := Active(keywords, deleted);
    var rs := RootKeywordsOf(keywords, deleted);
    TableKeys(active);
    forall r | r in RootWords(rs) ensures r in PhraseRoots(active) {
      var i :| 0 <= i < |rs| && rs[i].rootWord == r;
      SortedFromRecords(keywords, deleted, i);
    }
  }

  /** Every root of an active phrase has a record. */
  lemma RootKeywordsComplete(keywords: seq<Keyword>, deleted: set<string>)
    ensures PhraseRoots(Active(keywords, deleted)) <= RootWords(RootKeywordsOf(keywords, deleted))
  {
    var active := Active(keywords, deleted);
    var t := TableOf(active);
    TableWellFormed(active);
    TableKeys(active);
    var recs := Records(t);
    var rs := RootKeywordsOf(keywords, deleted);
    forall r | r in PhraseRoots(active) ensures r in RootWords(rs) {
      assert r in t.order;
      var a :| 0 <= a < |t.order| && t.order[a] == r;
      assert recs[a] in multiset(rs);
      var i :| 0 <= i < |rs| && rs[i] == recs[a];
    }
  }

  /**
   * The index has one record for each root of an active phrase, and no other: the root words are distinct and
   * are exactly the roots of the phrases not soft-deleted.
   */
  lemma RootKeywordsRoots(keywords: seq<Keyword>, deleted: set<string>)
    ensures var rs := RootKeywordsOf(keywords, deleted);
      RootWords(rs) == PhraseRoots(Active(keywords, deleted)) &&
      forall i, j :: 0 <= i < j < |rs| ==> rs[i].rootWord != rs[j].rootWord
  {
    RootKeywordsDistinct(keywords, deleted);
    RootKeywordsSound(keywords, deleted);
    RootKeywordsComplete(keywords, deleted);
  }

  /**
   * Every record has `totalCount = brandCount + nonBrandCount`, a brand percentage in [0, 100], is not marked
   * deleted, and lists without duplicates exactly the active phrases that contain its root.
   */
  lemma RootKeywordsRecords(keywords: seq<Keyword>, deleted: set<string>, i: int)
    requires 0 <= i < |RootKeywordsOf(keywords, deleted)|
    ensures var rk := RootKeywordsOf(keywords, deleted)[i];
      rk.totalCount == rk.brandCount + rk.nonBrandCount &&
      0 <= rk.brandPercentage <= 100 &&
      !rk.isDeleted &&
      Distinct(rk.relatedPhrases) &&
      forall p :: p in rk.relatedPhrases <==> p in PhrasesWithRoot(Active(keywords, deleted), rk.rootWord)
  {
    var active := Active(keywords, deleted);
    var t := TableOf(active);
    SortedFromRecords(keywords, deleted, i);
    var a :| 0 <= a < |t.order| && RootKeywordsOf(keywords, deleted)[i] == Finish(t.order[a], t.entries[t.order[a]]);
    FinishFacts(t.order[a], t.entries[t.order[a]]);
    TableRelated(active, t.order[a]);
  }

  /**
   * The numbers of record `rk` for root `r`, in terms of the keywords `ks` the index was built from: `totalSV`,
   * the brand and non-brand counts count each occurrence of the root in a phrase, there is at least one,
   * `averageRelevance` is the rounded occurrence-weighted mean relevance, and `brandPercentage` the rounded brand
   * share of the occurrences.
   */
  predicate AddsUp(rk: RootKeyword, ks: seq<Keyword>, r: string) {
    rk.totalSV == RootSV(ks, r) &&
    rk.brandCount == RootBrandCount(ks, r) &&
    rk.nonBrandCount == RootNonBrandCount(ks, r) &&
    rk.totalCount == rk.brandCount + rk.nonBrandCount && rk.totalCount >= 1 &&
    rk.averageRelevance == Round(RootRelevance(ks, r) / rk.totalCount as real) &&
    rk.brandPercentage == Round(100.0 * rk.brandCount as real / rk.totalCount as real)
  }

  /** Every record adds up the occurrences of its root in the active phrases. */
  lemma RootKeywordsAggregates(keywords: seq<Keyword>, deleted: set<string>, i: int)
    requires 0 <= i < |RootKeywordsOf(keywords, deleted)|
    ensures var rk := RootKeywordsOf(keywords, deleted)[i];
      AddsUp(rk, Active(keywords, deleted), rk.rootWord)
  {
    var active := Active(keywords, deleted);
    var t := TableOf(active);
    SortedFromRecords(keywords, deleted, i);
    var a :| 0 <= a < |t.order| && RootKeywordsOf(keywords, deleted)[i] == Finish(t.order[a], t.entries[t.order[a]]);
    EntryAggregates(active, t.order[a]);
  }

  /** The finished record of a table entry adds up the occurrences of its root. */
  lemma EntryAggregates(active: seq<Keyword>, r: string)
    requires r in TableOf(active).entries
    ensures AddsUp(Finish(r, TableOf(active).entries[r]), active, r)
  {
    var t := TableOf(active);
    var e := t.entries[r];
    TableWellFormed(active);
    TableKeys(active);
    TableSums(active, r);
    assert EntryOf(t, r) == e;
    RootCounted(active, r);
    FinishAggregates(r, e);
  }

  /** A finished entry with at least one occurrence: the rounded mean relevance and the rounded brand share. */
  lemma FinishAggregates(root: string, a: RootAcc)
    requires a.brandCount + a.nonBrandCount == |a.relevances| >= 1
    ensures var rk := Finish(root, a);
      rk.totalSV == a.totalSV && rk.brandCount == a.brandCount && rk.nonBrandCount == a.nonBrandCount &&
      rk.totalCount == |a.relevances| &&
      rk.averageRelevance == Round(SumReals(a.relevances) / rk.totalCount as real) &&
      rk.brandPercentage == Round(100.0 * rk.brandCount as real / rk.totalCount as real)
  {
    var total := a.brandCount + a.nonBrandCount;
    assert (a.brandCount as real / total as real) * 100.0 == 100.0 * a.brandCount as real / total as real;
  }

  /** A permutation of a list without duplicates has none. */
  lemma PermutationDistinct<T>(rs: seq<T>, recs: seq<T>)
    requires multiset(rs) == multiset(recs)
    requires Distinct(recs)
    ensures Distinct(rs)
  {
    forall i, j | 0 <= i < j < |rs| ensures rs[i] != rs[j] {
      if rs[i] == rs[j] {
        var x := rs[i];
        assert rs == rs[..i] + [x] + rs[i + 1..j] + [x] + rs[j + 1..];
        assert multiset(rs)[x] >= 2;
        DistinctCount(recs, x);
      }
    }
  }

  lemma {:induction false} DistinctCount<T>(s: seq<T>, x: T)
    requires Distinct(s)
    ensures multiset(s)[x] <= 1
  {
    if s != [] {
      var init := s[..|s| - 1];
      assert Distinct(init);
      DistinctCount(init, x);
      assert s == init + [s[|s| - 1]];
      if s[|s| - 1] == x {
        assert x !in init;
      }
    }
  }
}
