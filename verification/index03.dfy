/**
 * index03.js, the stage that splits calculation from rendering: `statement`
 * builds the statement data with switch-based `amountFor` and an
 * if-based `volumeCreditsFor`, then hands it to the text renderer.
 */
module Index03 {
  import opened Theater
  import Folds
  import Index05

  /**
   * `amountFor`: the switch on the play's type. It gives exactly what the
   * calculator of the final stage reports, and throws the same error when the
   * factory would.
   */
  function AmountFor(perf: Performance, play: Play): (r: Result<int>)
    ensures r == Index05.CalculatedAmount(perf, play)
    ensures r.Failure? <==> play.kind != "tragedy" && play.kind != "comedy"
    ensures r.Failure? ==> r.error == UnknownType(play.kind)
  {
    if play.kind == "tragedy" then
      var result := 40000;
      Success(if perf.audience > 30 then result + 1000 * (perf.audience - 30) else result)
    else if play.kind == "comedy" then
      var result := 30000;
      var result' := if perf.audience > 20 then result + 10000 + 500 * (perf.audience - 20) else result;
      Success(result' + 300 * perf.audience)
    else
      Failure(UnknownType(play.kind))
  }

  /**
   * `volumeCreditsFor`: the base credits, plus a fifth of the audience for a
   * comedy. For the two known types it agrees with the final stage's
   * calculator; any other type just gets the base credits.
   */
  function VolumeCreditsFor(perf: Performance, play: Play): (r: int)
    ensures Index05.CreatePerformanceCalculator(perf, play).Success? ==>
      r == Index05.CreatePerformanceCalculator(perf, play).value.VolumeCredits()
    ensures play.kind != "comedy" ==> r == Max(perf.audience - 30, 0)
  {
    var result := Max(perf.audience - 30, 0);
    if "comedy" == play.kind then result + perf.audience / 5 else result
  }

  /**
   * `enrichPerformance`: copy the raw performance and add play, amount and
   * credits. The record it builds is the one the final stage builds.
   */
  function EnrichPerformance(perf: Performance, plays: Plays): (r: Result<EnrichedPerformance>)
    requires perf.playID in plays
    ensures r == Index05.EnrichPerformance(perf, plays)
  {
    var play := PlayFor(perf, plays);
    var amount :- AmountFor(perf, play);
    Success(EnrichedPerformance(perf.playID, perf.audience, play, amount, VolumeCreditsFor(perf, play)))
  }

  /** `invoice.performances.map(enrichPerformance)`, in order, failing at the first unknown type. */
  function EnrichAll(ps: seq<Performance>, plays: Plays): (r: Result<seq<EnrichedPerformance>>)
    requires PlaysKnown(ps, plays)
    ensures r == Index05.EnrichAll(ps, plays)
    decreases |ps|
  {
    if ps == [] then Success([])
    else
      var n := |ps| - 1;
      var init :- EnrichAll(ps[..n], plays);
      var last :- EnrichPerformance(ps[n], plays);
      Success(init + [last])
  }

  /** `totalAmount(data)`: the reduce over the enriched amounts, which is their sum. */
  function TotalAmount(data: StatementData): (r: int)
    ensures r == Folds.Sum(data.performances, Amount)
  {
    Folds.ReduceIsSum(data.performances, Amount, 0);
    Folds.Reduce(data.performances, Amount, 0)
  }

  /** `totalVolumeCredits(data)`: the reduce over the enriched credits, which is their sum. */
  function TotalVolumeCredits(data: StatementData): (r: int)
    ensures r == Folds.Sum(data.performances, Credits)
  {
    Folds.ReduceIsSum(data.performances, Credits, 0);
    Folds.Reduce(data.performances, Credits, 0)
  }

  /**
   * The statement data that `statement` fills in field by field before
   * rendering. It is exactly what the final stage's createStatementData
   * returns, error included.
   */
  function Statement(invoice: Invoice, plays: Plays): (r: Result<StatementData>)
    requires PlaysKnown(invoice.performances, plays)
    ensures r == Index05.CreateStatementData(invoice, plays)
  {
    var performances :- EnrichAll(invoice.performances, plays);
    var statementData := StatementData(invoice.customer, performances, 0, 0);
    var statementData := statementData.(totalAmount := TotalAmount(statementData));
    Success(statementData.(totalVolumeCredits := TotalVolumeCredits(statementData)))
  }
}
