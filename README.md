# Financial-advice pipeline of AI-Finance-Guide, in Dafny

This project models `getFinancialAdvice`, the backend handler that answers a
user's request for financial advice. It has three steps:

- **Aggregation.** A user's income and expense records are folded into a
  snapshot. The snapshot holds both totals, the expense breakdown by
  category, the income sources by source, the savings and the savings ratio.
- **Prompt construction.** One of two prompt templates is chosen. A question
  template is used when the request carries a non-empty `message`, and a
  general-advice template otherwise. The serialised snapshot is embedded in
  either one.
- **Response normalisation.** The language model's reply is parsed as JSON.
  If it parses, the parsed value is the advice. If not, the advice is
  `{summary: reply, insights: [], recommendations: []}`.

A failure of a storage query or of the model call becomes the response
`500 {error: "Server error"}`.

Modules, in pipeline order:

- `Records`: the records, and the folds the aggregation is built from.
- `Aggregation`: the grouping loop, the `toFixed(1)` ratio and the snapshot.
- `Prompt`: the two templates.
- `Advice`: JSON values and the reply normalisation.
- `FinancialAdvice`: the handler.
- `JsObject`: the breakdown loop under JavaScript's plain-object semantics. It exists for the finding below.
- `Wrappers`: `Option` and `Result`.

Modelling choices:

- Amounts are integers, for instance cents.
- The savings ratio is of type `Ratio`. With no income it is `NoIncome`,
  which stands for the number `0` the code yields. Otherwise it is
  `Fixed(negative, tenths)`, which stands for the string that
  `Number.prototype.toFixed(1)` yields (section 21.1.3.3 of ECMA-262).
  That string has a sign, written exactly when the exact value is negative
  (so `"-0.0"` can occur). Its magnitude is rounded to the nearest tenth,
  and a tie goes to the larger magnitude.
- These are parameters of the model, because they are library or outside
  calls:
  - `JSON.stringify` is `serialize`.
  - `JSON.parse` is `parse`, which returns `None` where the call would throw.
  - `callGroqLLM` is `callModel`.
  - `Income.find` and `Expense.find` are `findIncomes` and `findExpenses`.
    Each takes the request's `userId` and returns the records or a failure.

Two behaviours are not in the code, and the model follows the code:

- A successfully parsed reply is used as it stands. The code neither
  defaults missing keys nor falls back when the parsed value is not an
  object (`Advice.ParsedReplyNotRepaired`).
- There is no validation of `userId`. A missing `userId` is simply passed to
  the storage queries.

## Model

| member | source | states |
|---|---|---|
| `Records.GroupTotalsSum` | backend/controllers/financialAdviceController.js:14-27 | the group totals of any list of entries add up to the total of all their amounts |
| `Records.GroupTotalsSnoc` | backend/controllers/financialAdviceController.js:19-21 | one more record adds its amount to its own group (starting from 0 if the group is new) and changes no other group |
| `Aggregation.GroupSum` | backend/controllers/financialAdviceController.js:18-27 | the intended grouping of lines 18-27: the loop builds exactly the map from each occurring group to its summed amount, and its values add up to the total after every iteration |
| `Aggregation.Aggregate` | backend/controllers/financialAdviceController.js:14-30 | the computed snapshot is the one the intended aggregation of lines 14-30 defines, and both breakdowns add up to their totals |
| `Aggregation.TotalsAreSums` | backend/controllers/financialAdviceController.js:14-15 | `totalIncome` and `totalExpenses`, left folds as `reduce` computes them, equal the plain sums of the amounts |
| `Aggregation.FoldIsSum` | backend/controllers/financialAdviceController.js:14-15 | the left fold from 0 over the amounts equals the right-fold reference sum |
| `Aggregation.SnapshotBreakdowns` | backend/controllers/financialAdviceController.js:18-29 | breakdown keys are exactly the categories (sources) that occur; each value is the sum of that group's amounts; values add up to the totals; savings is income minus expenses |
| `Aggregation.NoRecordsSnapshot` | backend/controllers/financialAdviceController.js:14-30 | with no records, every total is 0, both maps are empty, and the ratio is the number 0 |
| `Aggregation.SalaryRentFoodSnapshot` | backend/controllers/financialAdviceController.js:14-30 | income 5000 and expenses 1500 (rent) and 500 (food) give totals 5000 and 2000, savings 3000 and ratio "60.0" |
| `Aggregation.RoundHalfUp` | backend/controllers/financialAdviceController.js:30 | the chosen count of tenths is within half a tenth of the exact magnitude, rounding a tie up |
| `Aggregation.NearestTenth` | backend/controllers/financialAdviceController.js:30 | no other count of tenths is closer to the exact magnitude, and any equally close one is smaller, as `toFixed` requires |
| `Aggregation.SavingsRatio` | backend/controllers/financialAdviceController.js:30 | the ratio is the number 0 exactly when income is 0, whatever the expenses; otherwise it is negative exactly when savings and income have opposite signs, and its tenths are the rounded magnitude of savings * 100 / income |
| `Prompt.BuildPrompt` | backend/controllers/financialAdviceController.js:33-55 | with a non-empty message, the prompt quotes the message verbatim after the question lead and then embeds the serialised snapshot; otherwise it embeds the snapshot after the general lead; each ends with its JSON instruction |
| `Prompt.PromptContents` | backend/controllers/financialAdviceController.js:34-54 | every prompt contains the serialised snapshot and "Output JSON"; a question prompt also contains the message |
| `Prompt.GeneralPromptIgnoresMessage` | backend/controllers/financialAdviceController.js:34-55 | an absent message and an empty one give the same general prompt |
| `Prompt.QuestionDeterminesPrompt` | backend/controllers/financialAdviceController.js:36-44 | two different questions on the same snapshot never give the same prompt |
| `Prompt.ModesNeverCoincide` | backend/controllers/financialAdviceController.js:34-55 | no question prompt equals a general prompt, whatever the snapshots |
| `Advice.Fallback` | backend/controllers/financialAdviceController.js:64 | the fallback advice has the three-key shape, with the raw reply as summary and empty insights and recommendations |
| `Advice.Normalise` | backend/controllers/financialAdviceController.js:60-65 | a reply that parses gives the parsed value unchanged; one that does not gives the fallback; normalisation never fails |
| `Advice.NormaliseShape` | backend/controllers/financialAdviceController.js:60-65 | the advice has the three-key shape exactly when the reply fails to parse or parses to that shape; on failure the summary is the raw reply |
| `Advice.WellFormedReplyKept` | backend/controllers/financialAdviceController.js:62 | the reply `{"summary":"S","insights":["a"],"recommendations":["b","c"]}` comes back as that same structure |
| `Advice.ProseReplyFallsBack` | backend/controllers/financialAdviceController.js:63-64 | the non-JSON reply "Sorry, I cannot help." gives summary "Sorry, I cannot help." with empty lists |
| `Advice.ParsedReplyNotRepaired` | backend/controllers/financialAdviceController.js:62 | a parsed object missing keys, or a parsed number, is passed on without the missing keys being filled in |
| `FinancialAdvice.GetFinancialAdvice` | backend/controllers/financialAdviceController.js:5-72 | the response is the 500 server error exactly when a storage query or the model call fails; otherwise it is 200 with the normalised reply to the prompt for the user's snapshot |
| `JsObject.AsWrittenAgreesOffPrototype` | backend/controllers/financialAdviceController.js:18-27 | on a plain object, the loop as written gives the intended group totals whenever no group is named like an inherited `Object.prototype` member |
| `JsObject.PrototypeCategoryBreaksBreakdown` | backend/controllers/financialAdviceController.js:19-21 | an expense of 100 in category "toString" leaves a non-number under "toString", and one in category "__proto__" leaves no entry; the intended grouping has 100 under each |

## Findings

| source | as written | input that shows it | evidently intended | confidence | as-written member | corrected member |
|---|---|---|---|---|---|---|
| backend/controllers/financialAdviceController.js:18-27 | the breakdowns are plain objects `{}`, so `(obj[k] \|\| 0)` reads members inherited from `Object.prototype` | one expense `{category: "toString", amount: 100}`: the value under "toString" becomes a string (function text followed by "100"); with category "__proto__" the write is ignored and the 100 vanishes from the breakdown | every category starts at 0, so the breakdown holds 100 under that category and still adds up to `totalExpenses` | not executed; high, by ECMA-262 property lookup and the `__proto__` setter | `JsObject.GroupAsWritten`, `JsObject.PrototypeCategoryBreaksBreakdown` | `Aggregation.GroupSum` (specified by `Records.GroupTotals`, with `Records.GroupTotalsSum`) |

## Left out

- Aggregation.GroupSum: `GroupSum`, `Aggregate` and `GetFinancialAdvice` use the intended grouping. That grouping equals the loop as written only when no category or source names an `Object.prototype` member (`JsObject.AsWrittenAgreesOffPrototype`). For other names, see the finding above.

- Storage: MongoDB access (`Income.find`, `Expense.find`) is not modelled. The queries are parameters that return the record lists or a failure.
- Transport: the network call `callGroqLLM` is a parameter that returns the reply text or a failure. Its module is not part of this model.
- Library calls: `JSON.stringify` and `JSON.parse` are parameters, so no JSON grammar or layout is modelled. The key order of the breakdown objects is not modelled either. `JSON.stringify` writes integer-like keys first and the rest in insertion order, which is record order. `serialize` sees only an unordered map, so the modelled prompt cannot depend on record order.
- HTTP plumbing: only the status and the JSON body of the response are modelled. `req.body` is the `Request` datatype, and `console.error` logging is not modelled.
- Floating point: JavaScript numbers are not modelled. Amounts are unbounded integers, and the ratio is computed on exact rationals. So binary rounding of `savings / totalIncome * 100` before `toFixed` is not captured. Nor is `toFixed`'s exponent form for magnitudes of 10^21 and more.
- Field types: a `message` or `amount` that does not have the expected type is not modelled. `Json` numbers are integers.
- The record's `userId` and `icon` fields are not modelled, because the aggregation never reads them. Dates are opaque integers. The Expense schema is not part of this model, so expense records are shaped like income records, with `category` in place of `source`.
