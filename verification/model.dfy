/**
 * The entities of a BinoDive analysis session: the rows read from the three
 * uploaded CSV files (keyword analysis, business data, product data), the
 * processed keyword, competitor, product and root-keyword records, the four
 * soft-delete sets and the derived calculations.
 *
 * Numbers that the source keeps as JavaScript numbers are `int` where they
 * are always whole (search volumes, counts, rankings) and `real` where they
 * are ratios or parsed decimals (percentages, relevance, ratings, sales).
 */
module Model {
  import opened Wrappers

  datatype StrengthLevel = MoltoForte | Forte | Medio | Debole

  /** A keyword-analysis row: ASIN -> ranking position in `rankings`. */
  datatype KeywordRow = KeywordRow(
    phrase: string,
    searchVolume: int,
    relevance: real,
    isBrand: bool,
    brandWord: Option<string>,
    rankings: map<string, int>)

  /** A business-data row; `creationDate` is kept as the text it was read from. */
  datatype BusinessRow = BusinessRow(
    asin: string,
    brand: string,
    imageUrl: string,
    sellerCountry: string,
    rating: real,
    creationDate: string,
    price: string,
    sales: real,
    revenue: string,
    category: string,
    fulfillment: string)

  /** A product-data (Keepa) row. */
  datatype ProductRow = ProductRow(
    asin: string,
    brand: string,
    imageUrl: string,
    imageUrlSample: string,
    imageCount: int,
    title: string,
    feature1: string,
    feature2: string,
    feature3: string,
    feature4: string,
    feature5: string,
    variationAsins: seq<string>)

  datatype Keyword = Keyword(
    phrase: string,
    searchVolume: int,
    isBrand: bool,
    brandWord: Option<string>,
    relevance: real,
    isDeleted: bool,
    rankings: map<string, int>)

  datatype Competitor = Competitor(
    asin: string,
    brand: string,
    imageUrl: string,
    strengthPercentage: real,
    strengthLevel: StrengthLevel,
    sellerCountry: string,
    variations: int,
    rating: real,
    listingAgeMonths: int,
    price: string,
    sales: real,
    revenue: string,
    category: string,
    fulfillment: string,
    isDeleted: bool)

  datatype Product = Product(
    asin: string,
    brand: string,
    imageUrl: string,
    imageUrlSample: string,
    imageCount: int,
    title: string,
    feature1: string,
    feature2: string,
    feature3: string,
    feature4: string,
    feature5: string,
    variationAsins: seq<string>,
    keywordCount: int,
    matchingKeywords: seq<string>,
    strengthPercentage: real,
    strengthLevel: StrengthLevel,
    isDeleted: bool)

  datatype RootKeyword = RootKeyword(
    rootWord: string,
    totalSV: int,
    averageRelevance: int,
    brandCount: int,
    nonBrandCount: int,
    totalCount: int,
    brandPercentage: int,
    relatedPhrases: seq<string>,
    isDeleted: bool)

  datatype StrengthSummary = StrengthSummary(moltoForte: nat, forte: nat, medio: nat, debole: nat)

  datatype CompetitorMetrics = CompetitorMetrics(
    asin: string,
    strengthPercentage: real,
    strengthLevel: StrengthLevel,
    top30KeywordsSV: int)

  datatype MarketSummary = MarketSummary(
    totalMarketSV: int,
    brandSV: int,
    uniqueBrands: nat,
    totalKeywords: nat,
    deletedKeywords: nat,
    totalRevenue: real)

  datatype AnalysisData = AnalysisData(
    analysisId: string,
    marketSummary: MarketSummary,
    competitorAnalysis: seq<Competitor>,
    keywordList: seq<Keyword>,
    rootKeywords: seq<RootKeyword>,
    productList: seq<Product>,
    strengthSummary: StrengthSummary)

  datatype OriginalData = OriginalData(
    keywordData: seq<KeywordRow>,
    businessData: seq<BusinessRow>,
    productData: seq<ProductRow>)

  /** The processed lists and the four soft-delete sets (phrases, root words, competitor and product ASINs). */
  datatype ProcessedData = ProcessedData(
    competitors: seq<Competitor>,
    keywords: seq<Keyword>,
    rootKeywords: seq<RootKeyword>,
    products: seq<Product>,
    deletedKeywords: set<string>,
    deletedRootKeywords: set<string>,
    deletedCompetitors: set<string>,
    deletedProducts: set<string>)

  datatype Calculations = Calculations(
    totalMarketSV: int,
    brandSV: int,
    strengthSummary: StrengthSummary,
    competitorMetrics: map<string, CompetitorMetrics>)

  const EmptySummary := StrengthSummary(0, 0, 0, 0)

  function CompetitorAsin(c: Competitor): string { c.asin }
  function ProductAsin(p: Product): string { p.asin }
  function ProductRowAsin(p: ProductRow): string { p.asin }

  /** The position of the first element of `xs` whose key is `a` (`find` / `findIndex`), or -1. */
  function FirstWith<T>(xs: seq<T>, key: T -> string, a: string): (r: int)
    ensures -1 <= r < |xs|
    ensures r >= 0 ==> key(xs[r]) == a
    ensures forall k :: 0 <= k < |xs| && (r == -1 || k < r) ==> key(xs[k]) != a
  {
    if xs == [] then -1
    else if key(xs[0]) == a then 0
    else
      var r := FirstWith(xs[1..], key, a);
      if r == -1 then -1 else r + 1
  }

  /** A position holding key `a` with no earlier one is the first. */
  lemma FirstWithAt<T>(xs: seq<T>, key: T -> string, a: string, i: int)
    requires 0 <= i < |xs| && key(xs[i]) == a
    requires forall k :: 0 <= k < i ==> key(xs[k]) != a
    ensures FirstWith(xs, key, a) == i
  {
  }
}
