/**
 * index00.js, the starting point: `statement` looks each play up inline,
 * asks `amountFor(perf, play)` for the amount and adds the credits in the
 * same loop.
 */
module Index00 {
  import opened Theater
  import Folds
  import Index05

  /**
   * `amountFor(perf, play)`: the switch on the play's type, updating
   * `thisAmount`. It gives the amount of the final stage's calculator, or
   * throws the factory's `unknown type` error.
   */
  method AmountFor(perf: Performance, play: Play) returns (r: Result<int>)
    ensures r == Index05.CalculatedAmount(perf, play)
  {
    var thisAmount := 0;
    match play.kind {
      case "tragedy" =>
        thisAmount := 40000;
        if perf.audience > 30 {
          thisAmount := thisAmount + 1000 * (perf.audience - 30);
        }
      case "comedy" =>
        thisAmount := 30000;
        if perf.audience > 20 {
          thisAmount := thisAmount + 10000 + 500 * (perf.audience - 20);
        }
        thisAmount := thisAmount + 300 * perf.audience;
      case _ =>
        return Failure(UnknownType(play.kind));
    }
    return Success(thisAmount);
  }

  /**
   * `statement`: after k iterations `totalAmount` is the sum of the amounts of
   * the first k performances and `volumeCredits` the sum of their base
   * credits plus comedy bonuses. It ends with the totals of the final stage's
   * statement data, or fails with its error.
   */
  method Statement(invoice: Invoice, plays: Plays) returns (r: Result<Totals>)
    requires PlaysKnown(invoice.performances, plays)
    ensures r == Index05.StatementTotals(invoice, plays)
  {
    var ps := invoice.performances;
    var totalAmount := 0;
    var volumeCredits := 0;
    for i := 0 to |ps|
      invariant Index05.EnrichAll(ps[..i], plays).Success?
      invariant totalAmount == Folds.Sum(Index05.EnrichAll(ps[..i], plays).value, Amount)
      invariant volumeCredits == Folds.Sum(Index05.EnrichAll(ps[..i], plays).value, Credits)
    {
      var perf := ps[i];
      var play := plays[perf.playID];
      var thisAmount := AmountFor(perf, play);
      Index05.AmountStep(invoice, plays, i, thisAmount);
      if thisAmount.Failure? {
        return Failure(thisAmount.error);
      }
      ghost var creditsBefore := volumeCredits;
      volumeCredits := volumeCredits + Max(perf.audience - 30, 0);
      if "comedy" == play.kind {
        volumeCredits := volumeCredits + perf.audience / 5;
      }
      assert volumeCredits == creditsBefore + Max(perf.audience - 30, 0)
        + (if "comedy" == play.kind then perf.audience / 5 else 0);
      totalAmount := totalAmount + thisAmount.value;
    }
    Index05.TotalsOfWhole(invoice, plays);
    return Success(Totals(totalAmount, volumeCredits));
  }
}
