/**
 * The insight handler: it lowercases the optional `question` query parameter,
 * picks one of four canned insights by the first keyword it contains
 * ("shoes", then "inventory", then "sales"), and answers with status 200 and
 * a body echoing the lowered question beside the insight.
 */
module Insight {
  import opened Wrappers
  import opened Text

  /** The query-string parameters of the request; only `question` is read. */
  datatype QueryStringParameters = QueryStringParameters(question: Option<string>)

  /** The gateway event; its query-string parameters may be missing altogether. */
  datatype Event = Event(queryStringParameters: Option<QueryStringParameters>)

  /** The record the handler serialises as its JSON body. */
  datatype Body = Body(question: string, insight: string)

  datatype Response = Response(statusCode: int, body: Body)

  /** One entry of the retail dataset the handler builds. */
  datatype CategoryStats = CategoryStats(salesLastWeek: int, salesPreviousWeek: int, inventory: int)

  type RetailDataset = map<string, CategoryStats>

  const RetailData: RetailDataset := map[
    "shoes" := CategoryStats(120, 200, 40),
    "tshirts" := CategoryStats(300, 250, 500)
  ]

  const ShoesInsight := "Sales for Shoes dropped significantly week-over-week. Inventory is low, indicating possible stockout risk."
  const InventoryInsight := "Inventory levels for certain products are below optimal levels. Consider restocking fast-moving items."
  const SalesInsight := "Overall sales show mixed trends. Some categories are growing while others are declining."
  const DefaultInsight := "Please ask about sales, inventory, or specific product."

  predicate IsCanned(insight: string) {
    insight in {ShoesInsight, InventoryInsight, SalesInsight, DefaultInsight}
  }

  /** The event of a request whose query string carries `question=raw`. */
  function Asking(raw: string): Event {
    Event(Some(QueryStringParameters(Some(raw))))
  }

  /** `event.queryStringParameters?.question`: absent when either level is missing. */
  function RawQuestion(e: Event): (question: Option<string>)
    ensures e.queryStringParameters.None? ==> question.None?
    ensures e.queryStringParameters.Some? ==> question == e.queryStringParameters.value.question
  {
    match e.queryStringParameters
    case None => None
    case Some(params) => params.question
  }

  /**
   * `event.queryStringParameters?.question?.toLowerCase() || ""`.
   * An absent question becomes ""; a present one is lowered character by character.
   */
  function NormalizeQuestion(e: Event): (q: string)
    ensures NoUpper(q)
    ensures RawQuestion(e).None? ==> q == ""
    ensures RawQuestion(e).Some? ==>
      |q| == |RawQuestion(e).value| &&
      forall i :: 0 <= i < |q| ==> q[i] == LowerChar(RawQuestion(e).value[i])
  {
    match RawQuestion(e)
    case None => ""
    case Some(raw) =>
      LowerPointwise(raw);
      Lower(raw)
  }

  /** The insight chosen for a normalised question: the first keyword found wins. */
  function SelectInsight(q: string): (insight: string)
    ensures IsCanned(insight)
  {
    if Includes(q, "shoes") then ShoesInsight
    else if Includes(q, "inventory") then InventoryInsight
    else if Includes(q, "sales") then SalesInsight
    else DefaultInsight
  }

  /**
   * The handler given the retail dataset it builds; the dataset is never read,
   * which `OutputIgnoresRetailData` states.
   */
  function HandleWith(e: Event, data: RetailDataset): (r: Response)
    ensures r.statusCode == 200
    ensures IsCanned(r.body.insight)
    ensures NoUpper(r.body.question)
  {
    var question := NormalizeQuestion(e);
    Response(200, Body(question, SelectInsight(question)))
  }

  function Handler(e: Event): (r: Response)
    ensures r.statusCode == 200
    ensures IsCanned(r.body.insight)
    ensures NoUpper(r.body.question)
  {
    HandleWith(e, RetailData)
  }

  /** The four canned insights are pairwise different, so the branch taken can be read off the body. */
  lemma CannedInsightsDistinct()
    ensures ShoesInsight != InventoryInsight && ShoesInsight != SalesInsight && ShoesInsight != DefaultInsight
    ensures InventoryInsight != SalesInsight && InventoryInsight != DefaultInsight
    ensures SalesInsight != DefaultInsight
  {
  }

  /** Each insight is chosen exactly when its keyword is the first of the priority list present. */
  lemma SelectInsightPriority(q: string)
    ensures SelectInsight(q) == ShoesInsight <==> Includes(q, "shoes")
    ensures SelectInsight(q) == InventoryInsight <==> !Includes(q, "shoes") && Includes(q, "inventory")
    ensures SelectInsight(q) == SalesInsight <==>
      !Includes(q, "shoes") && !Includes(q, "inventory") && Includes(q, "sales")
    ensures SelectInsight(q) == DefaultInsight <==>
      !Includes(q, "shoes") && !Includes(q, "inventory") && !Includes(q, "sales")
  {
    CannedInsightsDistinct();
  }

  /** The response to a request without a question. */
  lemma AbsentQuestion(e: Event)
    requires RawQuestion(e).None?
    ensures Handler(e) == Response(200, Body("", DefaultInsight))
  {
  }

  /** The echoed question is exactly the lowered input, and holds no ASCII upper-case letter. */
  lemma EchoIsLoweredQuestion(raw: string)
    ensures Handler(Asking(raw)).body.question == Lower(raw)
    ensures NoUpper(Handler(Asking(raw)).body.question)
  {
  }

  /** A question mentioning shoes gets the shoes insight whatever other keywords it has. */
  lemma ShoesWins(raw: string)
    requires Includes(Lower(raw), "shoes")
    ensures Handler(Asking(raw)).body.insight == ShoesInsight
  {
  }

  lemma InventoryWithoutShoes(raw: string)
    requires !Includes(Lower(raw), "shoes") && Includes(Lower(raw), "inventory")
    ensures Handler(Asking(raw)).body.insight == InventoryInsight
  {
  }

  lemma SalesOnly(raw: string)
    requires !Includes(Lower(raw), "shoes") && !Includes(Lower(raw), "inventory")
    requires Includes(Lower(raw), "sales")
    ensures Handler(Asking(raw)).body.insight == SalesInsight
  {
  }

  lemma NoKeyword(raw: string)
    requires !Includes(Lower(raw), "shoes") && !Includes(Lower(raw), "inventory")
    requires !Includes(Lower(raw), "sales")
    ensures Handler(Asking(raw)).body.insight == DefaultInsight
  {
  }

  /**
   * Matching ignores case: a keyword written in any mixture of cases inside the
   * raw question selects the same insight as the keyword in lower case.
   */
  lemma {:induction false} AnyCaseOfShoes(raw: string, word: string)
    requires Includes(raw, word) && Lower(word) == "shoes"
    ensures Handler(Asking(raw)).body.insight == ShoesInsight
  {
    LowerPreservesIncludes(raw, word);
  }

  lemma {:induction false} AnyCaseOfInventory(raw: string, word: string)
    requires Includes(raw, word) && Lower(word) == "inventory"
    requires !Includes(Lower(raw), "shoes")
    ensures Handler(Asking(raw)).body.insight == InventoryInsight
  {
    LowerPreservesIncludes(raw, word);
  }

  lemma {:induction false} AnyCaseOfSales(raw: string, word: string)
    requires Includes(raw, word) && Lower(word) == "sales"
    requires !Includes(Lower(raw), "shoes") && !Includes(Lower(raw), "inventory")
    ensures Handler(Asking(raw)).body.insight == SalesInsight
  {
    LowerPreservesIncludes(raw, word);
  }

  /** Two questions that differ only in case get the same insight. */
  lemma InsightIgnoresCase(a: string, b: string)
    requires Lower(a) == Lower(b)
    ensures Handler(Asking(a)).body == Handler(Asking(b)).body
  {
  }

  /** Asking the echoed question again yields the very same response. */
  lemma {:induction false} EchoIsFixedPoint(e: Event)
    ensures Handler(Asking(Handler(e).body.question)) == Handler(e)
  {
    match RawQuestion(e)
    case None =>
    case Some(raw) => LowerIdempotent(raw);
  }

  /** The response depends only on the event, never on the retail figures. */
  lemma OutputIgnoresRetailData(e: Event, d1: RetailDataset, d2: RetailDataset)
    ensures HandleWith(e, d1) == HandleWith(e, d2)
  {
  }

  // ExampleAllKeywords, ExampleCapitalisedShoes, ExampleInventoryLevels,
  // ExampleSalesTrend and ExampleNoKeyword pin their question by a precondition:
  // with the literal in the ensures clause each runs out of resource at a
  // resource limit of 2000000, as the verifier unfolds Handler on the literal.

  lemma ExampleAllKeywords(raw: string)
    requires raw == "shoes inventory sales"
    ensures Handler(Asking(raw)).body.insight == ShoesInsight
  {
    assert Lower(raw) == raw by { LowerOfNoUpper(raw); }
    assert SelectInsight(raw) == ShoesInsight by { IncludesAt(raw, "shoes", 0); }
  }

  lemma ExampleCapitalisedShoes(raw: string)
    requires raw == "How are Shoes doing?"
    ensures Handler(Asking(raw)) == Response(200, Body("how are shoes doing?", ShoesInsight))
  {
    var q := Lower(raw);
    assert q == "how are shoes doing?" by { LowerPointwise(raw); }
    assert SelectInsight(q) == ShoesInsight by {
      assert q[8..13] == "shoes";
      IncludesAt(q, "shoes", 8);
    }
  }

  lemma ExampleShoutedShoes()
    ensures Handler(Asking("SHOES")) == Handler(Asking("shoes"))
  {
    var shouted, quiet := "SHOES", "shoes";
    assert Lower(quiet) == quiet by { LowerOfNoUpper(quiet); }
    assert Lower(shouted) == quiet by { LowerPointwise(shouted); }
  }

  lemma ExampleInventoryLevels(raw: string)
    requires raw == "inventory levels"
    ensures Handler(Asking(raw)).body.insight == InventoryInsight
  {
    assert Lower(raw) == raw by { LowerOfNoUpper(raw); }
    assert SelectInsight(raw) == InventoryInsight by {
      MissingCharExcludes(raw, "shoes", 1);
      IncludesAt(raw, "inventory", 0);
    }
  }

  lemma ExampleSalesTrend(raw: string)
    requires raw == "sales trend"
    ensures Handler(Asking(raw)).body.insight == SalesInsight
  {
    assert Lower(raw) == raw by { LowerOfNoUpper(raw); }
    assert SelectInsight(raw) == SalesInsight by {
      MissingCharExcludes(raw, "shoes", 1);
      MissingCharExcludes(raw, "inventory", 2);
      IncludesAt(raw, "sales", 0);
    }
  }

  lemma ExampleNoKeyword(raw: string)
    requires raw == "Hello world"
    ensures Handler(Asking(raw)).body.insight == DefaultInsight
  {
    var q := Lower(raw);
    assert q == "hello world" by { LowerPointwise(raw); }
    assert SelectInsight(q) == DefaultInsight by {
      MissingCharExcludes(q, "shoes", 0);
      MissingCharExcludes(q, "inventory", 0);
      MissingCharExcludes(q, "sales", 0);
    }
  }
}
