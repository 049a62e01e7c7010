# Retail insight handler, modelled in Dafny

The repository's backend answers a retail question with a canned insight.
Its handler (`backend/index.js`) takes the optional `question` query
parameter and lowercases it, with an absent question becoming `""`. It then
picks one of four fixed insight sentences by the first keyword the question
contains: `"shoes"`, then `"inventory"`, then `"sales"`, otherwise a default
prompt. It always answers with status 200 and a body that echoes the
lowered question next to the insight. It also builds a small table of retail
figures (`retailData`) that nothing reads.

The model has three modules:

- `Wrappers` (`wrappers.dfy`): the `Option` type for missing query parameters.
- `Text` (`text.dfy`): lowering a string (`toLowerCase`, on ASCII letters)
  and `Includes`, the substring test behind `String.prototype.includes`. It
  also proves that `Includes` agrees with an index-based definition
  (`OccursAt`), and that lowering preserves occurrences and is idempotent.
- `Insight` (`insight.dfy`): the event, body and response records, the
  retail dataset, `NormalizeQuestion`, `SelectInsight` and the handler. The
  lemmas cover every branch, the keyword priority, case-insensitive
  matching, the echo, the constant status, independence from the retail
  figures, and the worked examples.

The event is `Event(queryStringParameters: Option<QueryStringParameters>)`
with `QueryStringParameters(question: Option<string>)`. This mirrors the two
optional-chaining steps `event.queryStringParameters?.question`. `Asking(raw)`
builds the event of a request that carries `question=raw`.

## Model

| member | source | states |
|---|---|---|
| `Text.LowerChar` | backend/index.js:3 | the lowered character is never an ASCII upper-case letter; non-letters are unchanged; 'A'..'Z' move by the fixed distance to 'a'..'z' |
| `Text.Lower` | backend/index.js:3 | `toLowerCase` keeps the length of the question and leaves no ASCII upper-case letter in it |
| `Text.LowerAt` | backend/index.js:3 | character i of the lowered question is the lowered character i of the input (`Text.LowerPointwise`, an unlisted helper, states the same for all i at once) |
| `Text.LowerSlice` | backend/index.js:3 | lowering a slice gives the same slice of the lowered string |
| `Text.LowerIdempotent` | backend/index.js:3 | lowering an already lowered question changes nothing |
| `Text.LowerOfNoUpper` | backend/index.js:3 | a question with no ASCII upper-case letter is its own lowering |
| `Text.Includes` | backend/index.js:20-26 | `includes(sub)`: it can hold only when `sub` is no longer than the string, and the empty string is included in every string; `Text.IncludesIffOccurs` characterises it fully |
| `Text.IncludesIffOccurs` | backend/index.js:20-26 | `includes(sub)` holds exactly when `sub` occurs at some index of the string (both directions) |
| `Text.LowerPreservesIncludes` | backend/index.js:3-20 | if the raw question contains a word, the lowered question contains the lowered word |
| `Insight.RawQuestion` | backend/index.js:3 | `event.queryStringParameters?.question` is `None` when the parameters object is absent or when it has no `question`; otherwise it is that parameter |
| `Insight.NormalizeQuestion` | backend/index.js:3 | an absent parameter (at either `?.` level) gives `""`; a present one gives a string of the same length whose every character is the lowered input character, with no ASCII upper-case letter |
| `Insight.SelectInsight` | backend/index.js:5-28 | the chosen insight is always one of the four canned sentences |
| `Insight.HandleWith` | backend/index.js:1-37 | status is 200, the insight is canned and the echoed question has no ASCII upper-case letter |
| `Insight.Handler` | backend/index.js:30-36 | the status code is always 200, the insight is one of the four canned sentences and the echoed question has no ASCII upper-case letter |
| `Insight.CannedInsightsDistinct` | backend/index.js:5-28 | the four insight sentences are pairwise different, so the branch taken can be read off the body |
| `Insight.SelectInsightPriority` | backend/index.js:20-28 | each insight is returned exactly when its keyword is the first one present in the order shoes, inventory, sales; the default exactly when none is present |
| `Insight.AbsentQuestion` | backend/index.js:3-5 | with no question the response is status 200, question `""` and the default insight |
| `Insight.EchoIsLoweredQuestion` | backend/index.js:33 | the echoed question is exactly the lowered input and holds no ASCII upper-case letter |
| `Insight.ShoesWins` | backend/index.js:20-21 | a question whose lowering contains "shoes" gets the shoes insight whatever else it contains |
| `Insight.InventoryWithoutShoes` | backend/index.js:23-24 | "inventory" without "shoes" gives the inventory insight |
| `Insight.SalesOnly` | backend/index.js:26-27 | "sales" without "shoes" or "inventory" gives the sales insight |
| `Insight.NoKeyword` | backend/index.js:5-28 | no keyword gives the default insight |
| `Insight.AnyCaseOfShoes` | backend/index.js:3-21 | "shoes" written in any mix of cases inside the raw question selects the shoes insight |
| `Insight.AnyCaseOfInventory` | backend/index.js:3-24 | "inventory" in any case, with no "shoes", selects the inventory insight |
| `Insight.AnyCaseOfSales` | backend/index.js:3-27 | "sales" in any case, with neither earlier keyword, selects the sales insight |
| `Insight.InsightIgnoresCase` | backend/index.js:3-28 | two questions that differ only in case get the same body |
| `Insight.EchoIsFixedPoint` | backend/index.js:3-36 | asking the echoed question again yields the same response |
| `Insight.OutputIgnoresRetailData` | backend/index.js:7-28 | the response is the same whatever retail figures the handler builds |
| `Insight.ExampleAllKeywords` | backend/index.js:20-21 | "shoes inventory sales" gets the shoes insight |
| `Insight.ExampleCapitalisedShoes` | backend/index.js:3-36 | "How are Shoes doing?" gives status 200, question "how are shoes doing?" and the shoes insight |
| `Insight.ExampleShoutedShoes` | backend/index.js:3-21 | "SHOES" and "shoes" get the same response |
| `Insight.ExampleInventoryLevels` | backend/index.js:23-24 | "inventory levels" gets the inventory insight |
| `Insight.ExampleSalesTrend` | backend/index.js:26-27 | "sales trend" gets the sales insight |
| `Insight.ExampleNoKeyword` | backend/index.js:5-28 | "Hello world" gets the default insight |

## Left out

- The asynchronous gateway entry point is not modelled: the `async` wrapper and the event and response objects as runtime values. The handler is a function from an `Event` record to a `Response` record.
- `JSON.stringify` of the body (backend/index.js:32) is not modelled, because its escaping rules are library code. The body is the record `Body(question, insight)`.
- `Text.Lower`: lowers only ASCII 'A'..'Z'. JavaScript's `toLowerCase` follows full Unicode case mapping. That mapping also lowers non-ASCII letters and can change a string's length (for example 'İ').
- A `question` parameter that is present but not a string would make `toLowerCase` throw in JavaScript. It would not be treated as empty. Gateway query parameters are always strings, so the model types `question` as a string.
- The `|| ""` fallback on line 3 is modelled only for an absent question. For a present question it changes nothing, because the lowering of `""` is already `""`.
- The retail figures (backend/index.js:7-18) are kept as the constant `RetailData` and passed to `HandleWith`. They never influence the output, as `OutputIgnoresRetailData` states.
- The health-check handler is not part of this model. It is not in backend/index.js, and it returns a wall-clock timestamp.
- Which export a deployment actually invokes is not modelled. That is a question of packaging and routing, outside the handler.
