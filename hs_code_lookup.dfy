/** The HS-code lookup of the product page: a scored keyword search over a
    fixed tariff-code database, and the user's own product list (newest first,
    at most fifty) with its CSV export. */
module HsCodeLookup {
  import opened Text
  import opened StableSort
  import opened Numbers

  /** One tariff line of the database. */
  datatype HsItem = HsItem(
    code: string,
    fullCode: string,
    description: string,
    chapter: string,
    heading: string,
    dutyRate: string,
    keywords: seq<string>)

  const Database: seq<HsItem> := [
    HsItem("8703.23", "8703.23.00",
      "Vehicles with spark-ignition engine, cylinder capacity 1500-3000cc",
      "87 - Vehicles other than railway or tramway",
      "8703 - Motor cars and other motor vehicles",
      "2.5%", ["car", "automobile", "vehicle", "passenger car"]),
    HsItem("6203.42", "6203.42.40",
      "Men's or boys' trousers, bib and brace overalls, breeches and shorts of cotton",
      "62 - Articles of apparel and clothing accessories",
      "6203 - Men's suits, ensembles, jackets, blazers, trousers",
      "16.6%", ["trousers", "pants", "men", "cotton", "clothing"]),
    HsItem("8517.62", "8517.62.00",
      "Machines for reception, conversion and transmission of voice, images or data",
      "85 - Electrical machinery and equipment",
      "8517 - Telephone sets, smartphones, routers",
      "0%", ["router", "modem", "network", "telecommunications", "wifi"]),
    HsItem("6109.10", "6109.10.00",
      "T-shirts, singlets and other vests of cotton, knitted or crocheted",
      "61 - Articles of apparel, knitted or crocheted",
      "6109 - T-shirts, singlets and other vests",
      "16.5%", ["t-shirt", "tshirt", "vest", "cotton", "clothing", "apparel"]),
    HsItem("8471.30", "8471.30.01",
      "Portable automatic data processing machines weighing not more than 10 kg",
      "84 - Nuclear reactors, boilers, machinery",
      "8471 - Automatic data processing machines and units",
      "0%", ["laptop", "computer", "notebook", "portable computer"]),
    HsItem("9403.60", "9403.60.80",
      "Other wooden furniture",
      "94 - Furniture; bedding, mattresses",
      "9403 - Other furniture and parts",
      "0-4.4%", ["furniture", "wooden", "table", "chair", "desk"]),
    HsItem("6402.99", "6402.99.31",
      "Footwear with outer soles and uppers of rubber or plastics",
      "64 - Footwear, gaiters and the like",
      "6402 - Other footwear with outer soles",
      "6%", ["shoes", "footwear", "sneakers", "rubber shoes"]),
    HsItem("3926.90", "3926.90.99",
      "Other articles of plastics",
      "39 - Plastics and articles thereof",
      "3926 - Other articles of plastics",
      "5.3%", ["plastic", "plastic products", "plastic items"])
  ]

  /** The search returns at most this many items. */
  const MaxResults := 5

  /** The product list keeps at most this many products. */
  const MaxProducts := 50

  // ---------------------------------------------------------------------
  // Scoring

  /** The words of a query: the lower-cased query split on single spaces,
      keeping only the pieces longer than two characters. */
  function QueryWords(query: string): seq<string> {
    LongWords(Split(Lower(query), ' '))
  }

  function LongWords(pieces: seq<string>): seq<string> {
    if pieces == [] then []
    else (if |pieces[0]| > 2 then [pieces[0]] else []) + LongWords(pieces[1..])
  }

  /** Exactly the pieces longer than two characters are kept. */
  lemma {:induction false} LongWordsSpec(pieces: seq<string>)
    ensures forall w <- LongWords(pieces) :: |w| > 2 && w in pieces
    ensures forall w <- pieces :: |w| > 2 ==> w in LongWords(pieces)
  {
    if pieces != [] {
      LongWordsSpec(pieces[1..]);
      assert pieces == [pieces[0]] + pieces[1..];
    }
  }

  /** Filtering distributes over concatenation: the kept words stay in their
      order and with their repetitions. */
  lemma {:induction false} LongWordsAppend(a: seq<string>, b: seq<string>)
    ensures LongWords(a + b) == LongWords(a) + LongWords(b)
  {
    if a == [] {
      assert a + b == b;
    } else {
      assert (a + b)[0] == a[0];
      assert (a + b)[1..] == a[1..] + b;
      LongWordsAppend(a[1..], b);
    }
  }

  /** How many of `keywords` contain `word`. */
  function KeywordHits(word: string, keywords: seq<string>): nat {
    if keywords == [] then 0
    else
      var last := keywords[|keywords| - 1];
      KeywordHits(word, keywords[..|keywords| - 1]) + (if Contains(last, word) then 1 else 0)
  }

  /** How many (word, keyword) pairs have the keyword containing the word. */
  function PairHits(words: seq<string>, keywords: seq<string>): nat {
    if words == [] then 0
    else PairHits(words[..|words| - 1], keywords) + KeywordHits(words[|words| - 1], keywords)
  }

  function CodeBonus(item: HsItem, query: string): nat {
    if Contains(item.code, query) || Contains(item.fullCode, query) then 100 else 0
  }

  function DescriptionBonus(item: HsItem, query: string): nat {
    if Contains(Lower(item.description), Lower(query)) then 50 else 0
  }

  function ChapterBonus(item: HsItem, query: string): nat {
    if Contains(Lower(item.chapter), Lower(query)) || Contains(Lower(item.heading), Lower(query)) then 30 else 0
  }

  /** The relevance of `item` to `query`: 100 when the code or full code
      contains the raw query, 50 when the description contains it (ignoring
      case), 20 for each (word, keyword) pair whose keyword contains the word,
      and 30 when the chapter or heading contains it (ignoring case). */
  function Score(item: HsItem, query: string): (r: nat)
    ensures var hits := 20 * PairHits(QueryWords(query), item.keywords);
      hits <= r <= hits + 180
    ensures Contains(item.code, query) || Contains(item.fullCode, query) ==> r >= 100
    ensures r % 10 == 0
  {
    CodeBonus(item, query) + DescriptionBonus(item, query)
      + 20 * PairHits(QueryWords(query), item.keywords) + ChapterBonus(item, query)
  }

  /** The per-item scoring loop of `searchHSCode`. */
  method ScoreOf(item: HsItem, query: string) returns (score: int)
    ensures score == Score(item, query)
  {
    var lowercaseQuery := Lower(query);
    var words := QueryWords(query);
    score := 0;
    if Contains(item.code, query) || Contains(item.fullCode, query) {
      score := score + 100;
    }
    if Contains(Lower(item.description), lowercaseQuery) {
      score := score + 50;
    }
    ghost var base := score;
    for w := 0 to |words|
      invariant score == base + 20 * PairHits(words[..w], item.keywords)
    {
      assert words[..w + 1][..w] == words[..w];
      score := AddKeywordHits(score, words[w], item.keywords);
    }
    assert words[..|words|] == words;
    if Contains(Lower(item.chapter), lowercaseQuery) || Contains(Lower(item.heading), lowercaseQuery) {
      score := score + 30;
    }
  }

  /** The inner `keywords.forEach` of the scoring loop: 20 more for every
      keyword that contains `word`. */
  method AddKeywordHits(score0: int, word: string, keywords: seq<string>) returns (score: int)
    ensures score == score0 + 20 * KeywordHits(word, keywords)
  {
    score := score0;
    for k := 0 to |keywords|
      invariant score == score0 + 20 * KeywordHits(word, keywords[..k])
    {
      assert keywords[..k + 1][..k] == keywords[..k];
      if Contains(keywords[k], word) {
        score := score + 20;
      }
    }
    assert keywords[..|keywords|] == keywords;
  }

  /** The `map` stage of `searchHSCode`: every item with its score. */
  method ScoreItems(items: seq<HsItem>, query: string) returns (scored: seq<ScoredItem>)
    ensures scored == ScoreAll(items, query)
  {
    scored := [];
    for i := 0 to |items|
      invariant scored == ScoreAll(items[..i], query)
    {
      var score := ScoreOf(items[i], query);
      assert items[..i + 1][..i] == items[..i];
      scored := scored + [ScoredItem(items[i], score)];
    }
    assert items[..|items|] == items;
  }

  /** An empty query is contained in every field and has no words, so every
      item scores 100 + 50 + 30. */
  lemma EmptyQueryScore(item: HsItem)
    ensures Score(item, "") == 180
  {
    assert Lower("") == "";
    assert Split("", ' ') == [""];
    assert QueryWords("") == [];
  }

  // ---------------------------------------------------------------------
  // Search

  datatype ScoredItem = ScoredItem(item: HsItem, score: int)

  /** Sorting ascending by minus the score sorts descending by score. */
  function NegatedScore(r: ScoredItem): int {
    -r.score
  }

  /** Every item paired with its score, in order. */
  function ScoreAll(items: seq<HsItem>, query: string): (r: seq<ScoredItem>)
    ensures |r| == |items|
  {
    if items == [] then []
    else
      var last := items[|items| - 1];
      ScoreAll(items[..|items| - 1], query) + [ScoredItem(last, Score(last, query))]
  }

  lemma {:induction false} ScoreAllAt(items: seq<HsItem>, query: string, i: nat)
    requires i < |items|
    ensures ScoreAll(items, query)[i] == ScoredItem(items[i], Score(items[i], query))
  {
    var init := items[..|items| - 1];
    var last := items[|items| - 1];
    assert ScoreAll(items, query) == ScoreAll(init, query) + [ScoredItem(last, Score(last, query))];
    if i < |init| {
      ScoreAllAt(init, query, i);
      assert items[i] == init[i];
    }
  }

  /** The scored items with a positive score, in their original order. */
  function Positive(rs: seq<ScoredItem>): (r: seq<ScoredItem>)
    ensures forall x <- r :: x.score > 0 && x in rs
    ensures forall x <- rs :: x.score > 0 ==> x in r
  {
    if rs == [] then []
    else (if rs[0].score > 0 then [rs[0]] else []) + Positive(rs[1..])
  }

  /** Filtering distributes over concatenation: order and repetitions are kept. */
  lemma {:induction false} PositiveAppend(a: seq<ScoredItem>, b: seq<ScoredItem>)
    ensures Positive(a + b) == Positive(a) + Positive(b)
  {
    if a == [] {
      assert a + b == b;
    } else {
      assert (a + b)[0] == a[0];
      assert (a + b)[1..] == a[1..] + b;
      PositiveAppend(a[1..], b);
    }
  }

  /** For every positive score, the filter keeps all items of that score, in
      their original order. */
  lemma {:induction false} PositiveWithKey(rs: seq<ScoredItem>, k: int)
    requires k < 0
    ensures WithKey(Positive(rs), NegatedScore, k) == WithKey(rs, NegatedScore, k)
  {
    if rs != [] {
      PositiveWithKey(rs[1..], k);
      var head := if rs[0].score > 0 then [rs[0]] else [];
      WithKeyAppend(head, Positive(rs[1..]), NegatedScore, k);
    }
  }

  /** Filter, stable sort by descending score, keep the first five. */
  function TopMatches(scored: seq<ScoredItem>): (r: seq<ScoredItem>)
    ensures |r| <= MaxResults
  {
    var ranked := SortBy(Positive(scored), NegatedScore);
    ranked[..Min(MaxResults, |ranked|)]
  }

  /** The result of `searchHSCode(query)`. */
  function SearchResults(query: string): seq<ScoredItem> {
    TopMatches(ScoreAll(Database, query))
  }

  /** What the search promises of any scored list: at most five results, all
      with a positive score taken from the list, in non-increasing score
      order; items of equal score in their original order; and every
      positive item left out scores no more than the fifth result. */
  lemma TopMatchesSpec(scored: seq<ScoredItem>)
    ensures |TopMatches(scored)| == Min(MaxResults, |Positive(scored)|)
    ensures forall x <- TopMatches(scored) :: x.score > 0 && x in scored
    ensures forall i, j :: 0 <= i < j < |TopMatches(scored)| ==>
      TopMatches(scored)[i].score >= TopMatches(scored)[j].score
    ensures forall k :: WithKey(TopMatches(scored), NegatedScore, k) <= WithKey(scored, NegatedScore, k)
    ensures forall x <- Positive(scored) :: x !in TopMatches(scored) ==>
      |TopMatches(scored)| == MaxResults && x.score <= TopMatches(scored)[MaxResults - 1].score
  {
    TopMatchesOrdered(scored);
    TopMatchesStable(scored);
    TopMatchesOmitted(scored);
  }

  lemma TopMatchesOrdered(scored: seq<ScoredItem>)
    ensures forall x <- TopMatches(scored) :: x.score > 0 && x in scored
    ensures forall i, j :: 0 <= i < j < |TopMatches(scored)| ==>
      TopMatches(scored)[i].score >= TopMatches(scored)[j].score
  {
    var positive := Positive(scored);
    var ranked := SortBy(positive, NegatedScore);
    var top := TopMatches(scored);
    assert top == ranked[..Min(MaxResults, |ranked|)];
    SortBySorts(positive, NegatedScore);
    forall x <- top ensures x.score > 0 && x in scored {
      assert x in multiset(ranked);
    }
    forall i, j | 0 <= i < j < |top| ensures top[i].score >= top[j].score {
      assert NegatedScore(ranked[i]) <= NegatedScore(ranked[j]);
    }
  }

  lemma TopMatchesStable(scored: seq<ScoredItem>)
    ensures forall k :: WithKey(TopMatches(scored), NegatedScore, k) <= WithKey(scored, NegatedScore, k)
  {
    var positive := Positive(scored);
    var ranked := SortBy(positive, NegatedScore);
    var top := TopMatches(scored);
    forall k ensures WithKey(top, NegatedScore, k) <= WithKey(scored, NegatedScore, k) {
      if k < 0 {
        WithKeyOfPrefix(ranked, Min(MaxResults, |ranked|), NegatedScore, k);
        SortByStable(positive, NegatedScore, k);
        PositiveWithKey(scored, k);
      } else {
        TopMatchesOrdered(scored);
        WithKeyAbsent(top, NegatedScore, k);
      }
    }
  }

  lemma TopMatchesOmitted(scored: seq<ScoredItem>)
    ensures forall x <- Positive(scored) :: x !in TopMatches(scored) ==>
      |TopMatches(scored)| == MaxResults && x.score <= TopMatches(scored)[MaxResults - 1].score
  {
    var positive := Positive(scored);
    var ranked := SortBy(positive, NegatedScore);
    var n := Min(MaxResults, |ranked|);
    var top := TopMatches(scored);
    assert top == ranked[..n];
    SortBySorts(positive, NegatedScore);
    forall x <- positive | x !in top
      ensures |top| == MaxResults && x.score <= top[MaxResults - 1].score
    {
      assert x in multiset(ranked);
      var j :| 0 <= j < |ranked| && ranked[j] == x;
      assert j >= n;
      assert NegatedScore(ranked[MaxResults - 1]) <= NegatedScore(ranked[j]);
    }
  }

  /** The empty query matches every item equally, so the search returns the
      first five items (or all of them, when fewer) in their original order,
      each scoring 180. */
  lemma EmptyQueryTopMatches(items: seq<HsItem>)
    ensures |TopMatches(ScoreAll(items, ""))| == Min(MaxResults, |items|)
    ensures forall i :: 0 <= i < |TopMatches(ScoreAll(items, ""))| ==>
      TopMatches(ScoreAll(items, ""))[i] == ScoredItem(items[i], 180)
  {
    EmptyQueryRanked(items);
    EmptyQueryScoresAll(items);
  }

  /** With the empty query nothing is filtered out or moved by the sort. */
  lemma EmptyQueryRanked(items: seq<HsItem>)
    ensures TopMatches(ScoreAll(items, "")) == ScoreAll(items, "")[..Min(MaxResults, |items|)]
  {
    var scored := ScoreAll(items, "");
    EmptyQueryScoresAll(items);
    assert forall x <- scored :: x.score == 180;
    AllPositive(scored);
    SortByConstantKey(scored, NegatedScore, -180);
  }

  lemma EmptyQueryScoresAll(items: seq<HsItem>)
    ensures forall i :: 0 <= i < |items| ==> ScoreAll(items, "")[i] == ScoredItem(items[i], 180)
  {
    forall i | 0 <= i < |items| ensures ScoreAll(items, "")[i] == ScoredItem(items[i], 180) {
      ScoreAllAt(items, "", i);
      EmptyQueryScore(items[i]);
    }
  }

  lemma {:induction false} AllPositive(rs: seq<ScoredItem>)
    requires forall x <- rs :: x.score > 0
    ensures Positive(rs) == rs
  {
    if rs != [] {
      AllPositive(rs[1..]);
      assert [rs[0]] + rs[1..] == rs;
    }
  }

  // ---------------------------------------------------------------------
  // User products

  /** What the user enters for a new product. Weight and value are kept as
      the text the form produced. */
  datatype ProductData = ProductData(
    name: string,
    description: string,
    hsCode: string,
    weight: string,
    value: string,
    origin: string)

  datatype Product = Product(
    id: string,
    name: string,
    description: string,
    hsCode: string,
    weight: string,
    value: string,
    origin: string,
    addedDate: string)

  /** The list after `addProduct`: the new product first, then the previous
      products in order, cut to the first fifty. */
  function WithAdded(products: seq<Product>, p: Product): (r: seq<Product>)
    ensures |r| == Min(|products| + 1, MaxProducts)
    ensures r[0] == p
    ensures r[1..] == products[..|r| - 1]
  {
    var grown := [p] + products;
    if |grown| > MaxProducts then grown[..MaxProducts] else grown
  }

  /** The list after `deleteProduct(id)`: every product with that id gone,
      every other product kept. */
  function WithoutId(products: seq<Product>, id: string): (r: seq<Product>)
    ensures forall p :: p in r <==> p in products && p.id != id
    ensures |r| <= |products|
  {
    if products == [] then []
    else (if products[0].id != id then [products[0]] else []) + WithoutId(products[1..], id)
  }

  /** Deletion keeps the order of the remaining products: it distributes
      over concatenation. */
  lemma {:induction false} WithoutIdAppend(a: seq<Product>, b: seq<Product>, id: string)
    ensures WithoutId(a + b, id) == WithoutId(a, id) + WithoutId(b, id)
  {
    if a == [] {
      assert a + b == b;
    } else {
      assert (a + b)[0] == a[0];
      assert (a + b)[1..] == a[1..] + b;
      WithoutIdAppend(a[1..], b, id);
    }
  }

  /** Deleting an id nobody has changes nothing. */
  lemma {:induction false} WithoutAbsentId(products: seq<Product>, id: string)
    requires forall p <- products :: p.id != id
    ensures WithoutId(products, id) == products
  {
    if products != [] {
      WithoutAbsentId(products[1..], id);
      assert [products[0]] + products[1..] == products;
    }
  }

  // ---------------------------------------------------------------------
  // CSV export

  const CsvHeaders: seq<string> :=
    ["Name", "Description", "HS Code", "Weight (kg)", "Value (USD)", "Origin", "Added Date"]

  /** A cell wrapped in double quotes. Quotes inside the cell are not doubled. */
  function Quote(cell: string): string {
    "\"" + cell + "\""
  }

  /** The seven cells of a product's row; the date cell is what the page's
      locale formatting makes of the stored date. */
  function Cells(p: Product, formatDate: string -> string): seq<string> {
    [p.name, p.description, p.hsCode, p.weight, p.value, p.origin, formatDate(p.addedDate)]
  }

  function CsvRow(p: Product, formatDate: string -> string): (r: string)
    ensures Quote(p.name) <= r
    ensures |Quote(p.name)| < |r| && r[|Quote(p.name)|] == ','
  {
    var cells := Cells(p, formatDate);
    Join(seq(|cells|, i requires 0 <= i < |cells| => Quote(cells[i])), ',')
  }

  /** The header line (unquoted) followed by one row per product, in order. */
  function CsvLines(products: seq<Product>, formatDate: string -> string): (r: seq<string>)
    ensures |r| == |products| + 1
  {
    [Join(CsvHeaders, ',')] + seq(|products|, i requires 0 <= i < |products| => CsvRow(products[i], formatDate))
  }

  function ProductsCsv(products: seq<Product>, formatDate: string -> string): (r: string)
    ensures r == [] <==> products == []
    ensures products != [] ==>
      var header := Join(CsvHeaders, ',');
      header <= r && |header| < |r| && r[|header|] == '\n'
  {
    if products == [] then "" else Join(CsvLines(products, formatDate), '\n')
  }

  predicate NoNewlines(products: seq<Product>, formatDate: string -> string) {
    forall p <- products :: forall c <- Cells(p, formatDate) :: '\n' !in c
  }

  /** The export is empty exactly when the list is; otherwise, as long as no
      cell holds a line break, its lines are the header and then one row per
      product in list order. */
  lemma ProductsCsvLines(products: seq<Product>, formatDate: string -> string)
    ensures ProductsCsv(products, formatDate) == "" <==> products == []
    ensures products != [] && NoNewlines(products, formatDate) ==>
      Split(ProductsCsv(products, formatDate), '\n') == CsvLines(products, formatDate)
  {
    if products != [] {
      var lines := CsvLines(products, formatDate);
      assert Join(lines, '\n') == lines[0] + ['\n'] + Join(lines[1..], '\n');
      if NoNewlines(products, formatDate) {
        forall line <- lines ensures '\n' !in line {
          var j :| 0 <= j < |lines| && lines[j] == line;
          LineAvoidsNewline(products, formatDate, j);
        }
        SplitJoin(lines, '\n');
      }
    }
  }

  lemma LineAvoidsNewline(products: seq<Product>, formatDate: string -> string, j: int)
    requires NoNewlines(products, formatDate)
    requires 0 <= j <= |products|
    ensures '\n' !in CsvLines(products, formatDate)[j]
  {
    if j == 0 {
      HeaderAvoidsNewline();
    } else {
      assert CsvLines(products, formatDate)[j] == CsvRow(products[j - 1], formatDate);
      RowAvoidsNewline(products[j - 1], formatDate);
    }
  }

  lemma HeaderAvoidsNewline()
    ensures '\n' !in Join(CsvHeaders, ',')
  {
    JoinAvoids(CsvHeaders, ',', '\n');
  }

  lemma RowAvoidsNewline(p: Product, formatDate: string -> string)
    requires forall c <- Cells(p, formatDate) :: '\n' !in c
    ensures '\n' !in CsvRow(p, formatDate)
  {
    var cells := Cells(p, formatDate);
    var quoted := seq(|cells|, i requires 0 <= i < |cells| => Quote(cells[i]));
    forall q <- quoted ensures '\n' !in q {
      var i :| 0 <= i < |cells| && q == Quote(cells[i]);
      assert cells[i] in cells;
    }
    JoinAvoids(quoted, ',', '\n');
  }

  /** The lookup page's state: the tariff database and the user's product
      list. */
  class HsLookup {
    const database: seq<HsItem>
    var userProducts: seq<Product>

    /** Starts from the products read back from storage (possibly none). */
    constructor (stored: seq<Product>)
      ensures database == Database && userProducts == stored
    {
      database := Database;
      userProducts := stored;
    }

    /** `searchHSCode`: score every database item, then rank. */
    method SearchHsCode(query: string) returns (results: seq<ScoredItem>)
      ensures results == TopMatches(ScoreAll(database, query))
      ensures |results| <= MaxResults
      ensures forall x <- results :: x.score > 0 && x.item in database && x.score == Score(x.item, query)
      ensures forall i, j :: 0 <= i < j < |results| ==> results[i].score >= results[j].score
    {
      var scored := ScoreItems(database, query);
      var ranked := SortBy(Positive(scored), NegatedScore);
      results := ranked[..Min(MaxResults, |ranked|)];
      TopMatchesSpec(scored);
      forall x <- results ensures x.item in database && x.score == Score(x.item, query) {
        var i :| 0 <= i < |scored| && scored[i] == x;
        ScoreAllAt(database, query, i);
      }
    }

    /** `addProduct`: the id and the date come from the clock. */
    method AddProduct(data: ProductData, id: string, addedDate: string) returns (product: Product)
      modifies this
      ensures product == Product(id, data.name, data.description, data.hsCode,
                                 data.weight, data.value, data.origin, addedDate)
      ensures userProducts == WithAdded(old(userProducts), product)
      ensures |userProducts| <= MaxProducts
    {
      product := Product(id, data.name, data.description, data.hsCode,
                         data.weight, data.value, data.origin, addedDate);
      userProducts := [product] + userProducts;
      if |userProducts| > MaxProducts {
        userProducts := userProducts[..MaxProducts];
      }
    }

    /** `deleteProduct`. */
    method DeleteProduct(productId: string)
      modifies this
      ensures userProducts == WithoutId(old(userProducts), productId)
      ensures forall p <- userProducts :: p.id != productId
    {
      userProducts := WithoutId(userProducts, productId);
    }

    /** `getProducts`. */
    function GetProducts(): (r: seq<Product>)
      reads this
      ensures r == userProducts
    {
      userProducts
    }

    /** `exportProductsCSV`. */
    function ExportProductsCsv(formatDate: string -> string): (csv: string)
      reads this
      ensures csv == "" <==> userProducts == []
    {
      ProductsCsvLines(userProducts, formatDate);
      ProductsCsv(userProducts, formatDate)
    }
  }
}
