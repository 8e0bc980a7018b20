/**
 * index01.js, after Replace Temp with Query: a module-level `playFor` looks
 * the play up, `amountFor` takes only the performance, and `statement`
 * accumulates credits and amounts in one loop. The catalog, a module-level
 * import in the source, is a parameter here.
 */
module Index01 {
  import opened Theater
  import Folds
  import Index05

  /**
   * `amountFor(aPerformance)`: the switch on the type of `playFor`, updating
   * a local result. It gives the amount of the final stage's calculator, or
   * throws the factory's `unknown type` error.
   */
  method AmountFor(aPerformance: Performance, plays: Plays) returns (r: Result<int>)
    requires aPerformance.playID in plays
    ensures r == Index05.CalculatedAmount(aPerformance, plays[aPerformance.playID])
  {
    var result := 0;
    match PlayFor(aPerformance, plays).kind {
      case "tragedy" =>
        result := 40000;
        if aPerformance.audience > 30 {
          result := result + 1000 * (aPerformance.audience - 30);
        }
      case "comedy" =>
        result := 30000;
        if aPerformance.audience > 20 {
          result := result + 10000 + 500 * (aPerformance.audience - 20);
        }
        result := result + 300 * aPerformance.audience;
      case _ =>
        return Failure(UnknownType(PlayFor(aPerformance, plays).kind));
    }
    return Success(result);
  }

  /**
   * `statement`: after k iterations the credits are the sum, over the first k
   * performances, of the base credits plus the comedy bonus, and the total is
   * the sum of their amounts. It ends with the totals of the final stage's
   * statement data, or fails with its error.
   */
  method Statement(invoice: Invoice, plays: Plays) returns (r: Result<Totals>)
    requires PlaysKnown(invoice.performances, plays)
    ensures r == Index05.StatementTotals(invoice, plays)
  {
    var ps := invoice.performances;
    var totalAmount := 0;
    var volumeCredits := 0;
    for i := 0 to |ps|
      invariant Index05.EnrichAll(ps[..i], plays).Success?
      invariant totalAmount == Folds.Sum(Index05.EnrichAll(ps[..i], plays).value, Amount)
      invariant volumeCredits == Folds.Sum(Index05.EnrichAll(ps[..i], plays).value, Credits)
    {
      var perf := ps[i];
      ghost var creditsBefore := volumeCredits;
      volumeCredits := volumeCredits + Max(perf.audience - 30, 0);
      if "comedy" == PlayFor(perf, plays).kind {
        volumeCredits := volumeCredits + perf.audience / 5;
      }
      var amount := AmountFor(perf, plays);
      Index05.LoopStep(invoice, plays, i, amount, totalAmount, creditsBefore, volumeCredits);
      if amount.Failure? {
        return Failure(amount.error);
      }
      totalAmount := totalAmount + amount.value;
    }
    Index05.TotalsOfWhole(invoice, plays);
    return Success(Totals(totalAmount, volumeCredits));
  }
}
