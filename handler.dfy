/**
 * The financial-advice request handler: fetch the records, aggregate them,
 * build the prompt, ask the language model, normalise its reply and answer.
 *
 * The storage queries and the model call are parameters that either return
 * a value or fail; any failure among them becomes the generic server error.
 */
module FinancialAdvice {
  import opened Wrappers
  import opened Records
  import opened Aggregation
  import opened Prompt
  import opened Advice

  /** The request body: `{ userId, message }`, each possibly absent. */
  datatype Request = Request(userId: Option<string>, message: Option<string>)

  /** An HTTP answer: its status and its JSON body. */
  datatype Response = Response(status: int, body: Json)

  /** `res.status(500).json({ error: 'Server error' })` */
  const ServerError: Response := Response(500, JObject([("error", JString("Server error"))]))

  /** `res.json({ advice })`, with the default status 200. */
  function AdviceResponse(advice: Json): Response
  {
    Response(200, JObject([("advice", advice)]))
  }

  /**
   * `getFinancialAdvice`. The answer is the server error exactly when a
   * storage query or the model call fails; a reply that is not JSON is never
   * an error. Otherwise the answer carries the normalised reply to the prompt
   * for the snapshot of the user's records, whether or not there were any.
   */
  method GetFinancialAdvice(
    req: Request,
    findIncomes: Option<string> -> Result<seq<Income>, string>,
    findExpenses: Option<string> -> Result<seq<Expense>, string>,
    serialize: Snapshot -> string,
    callModel: string -> Result<string, string>,
    parse: string -> Option<Json>)
    returns (res: Response)
    ensures res.status == 500 || res.status == 200
    ensures res.status == 500 ==> res == ServerError
    ensures res.status == 500 <==>
      || findIncomes(req.userId).Failure?
      || findExpenses(req.userId).Failure?
      || callModel(BuildPrompt(SnapshotOf(findIncomes(req.userId).value, findExpenses(req.userId).value),
                               req.message, serialize)).Failure?
    ensures res.status == 200 ==>
      var prompt := BuildPrompt(SnapshotOf(findIncomes(req.userId).value, findExpenses(req.userId).value),
                                req.message, serialize);
      res == AdviceResponse(Normalise(callModel(prompt).value, parse))
  {
    var incomes := findIncomes(req.userId);
    if incomes.Failure? {
      return ServerError;
    }
    var expenses := findExpenses(req.userId);
    if expenses.Failure? {
      return ServerError;
    }
    var snapshot := Aggregate(incomes.value, expenses.value);
    var prompt := BuildPrompt(snapshot, req.message, serialize);
    var reply := callModel(prompt);
    if reply.Failure? {
      return ServerError;
    }
    var advice := Normalise(reply.value, parse);
    res := AdviceResponse(advice);
  }
}
