/**
 * index02.js, which declares `statement` twice. The first body totals the
 * amounts and credits in one accumulating loop; the second splits that loop
 * into `totalAmount` and `totalVolumeCredits`, each with its own loop.
 * Rendering the text is not part of this model: both methods return the
 * totals the text is built from.
 */
module Index02 {
  import opened Theater
  import Folds
  import Index05
  import Index03

  /**
   * The nested `amountFor`: the switch on the play's type, updating a local
   * result. It gives the amount of the final stage's calculator, or throws
   * the factory's error.
   */
  method AmountFor(perf: Performance, plays: Plays) returns (r: Result<int>)
    requires perf.playID in plays
    ensures r == Index05.CalculatedAmount(perf, plays[perf.playID])
  {
    var result := 0;
    match PlayFor(perf, plays).kind {
      case "tragedy" =>
        result := 40000;
        if perf.audience > 30 {
          result := result + 1000 * (perf.audience - 30);
        }
      case "comedy" =>
        result := 30000;
        if perf.audience > 20 {
          result := result + 10000 + 500 * (perf.audience - 20);
        }
        result := result + 300 * perf.audience;
      case _ =>
        return Failure(UnknownType(PlayFor(perf, plays).kind));
    }
    return Success(result);
  }

  /**
   * The nested `volumeCreditsFor`: it never throws, and gives what the later
   * stage's volumeCreditsFor gives (the calculator's credits for the two
   * known types).
   */
  method VolumeCreditsFor(perf: Performance, plays: Plays) returns (result: int)
    requires perf.playID in plays
    ensures result == Index03.VolumeCreditsFor(perf, plays[perf.playID])
  {
    result := 0;
    result := result + Max(perf.audience - 30, 0);
    if "comedy" == PlayFor(perf, plays).kind {
      result := result + perf.audience / 5;
    }
  }

  /** The credits of the first performances of `ps` added up, one volumeCreditsFor each. */
  ghost function CreditsSum(ps: seq<Performance>, plays: Plays): int
    requires PlaysKnown(ps, plays)
    decreases |ps|
  {
    if ps == [] then 0
    else
      var n := |ps| - 1;
      CreditsSum(ps[..n], plays) + Index03.VolumeCreditsFor(ps[n], plays[ps[n].playID])
  }

  /** When every play type is known, the credit sum is the statement data's total credits. */
  lemma {:induction false} CreditsSumIsTotal(ps: seq<Performance>, plays: Plays)
    requires PlaysKnown(ps, plays)
    requires Index05.EnrichAll(ps, plays).Success?
    ensures CreditsSum(ps, plays) == Folds.Sum(Index05.EnrichAll(ps, plays).value, Credits)
    decreases |ps|
  {
    if ps != [] {
      var n := |ps| - 1;
      assert ps[..n + 1] == ps;
      CreditsSumIsTotal(ps[..n], plays);
      Index05.EnrichStep(ps, plays, n);
    }
  }

  /**
   * The first `statement` (the single loop): per performance, add the base
   * credits, the comedy bonus and the amount. It ends with the totals of the
   * final stage's statement data, or fails with its error.
   */
  method StatementSingleLoop(invoice: Invoice, plays: Plays) returns (r: Result<Totals>)
    requires PlaysKnown(invoice.performances, plays)
    ensures r == Index05.StatementTotals(invoice, plays)
  {
    var ps := invoice.performances;
    var totalAmount := 0;
    var volumeCredits := 0;
    for i := 0 to |ps|
      invariant Index05.EnrichAll(ps[..i], plays).Success?
      invariant totalAmount == Folds.Sum(Index05.EnrichAll(ps[..i], plays).value, Amount)
      invariant volumeCredits == Folds.Sum(Index05.EnrichAll(ps[..i], plays).value, Credits)
    {
      var perf := ps[i];
      ghost var creditsBefore := volumeCredits;
      volumeCredits := volumeCredits + Max(perf.audience - 30, 0);
      if "comedy" == PlayFor(perf, plays).kind {
        volumeCredits := volumeCredits + perf.audience / 5;
      }
      var amount := AmountFor(perf, plays);
      Index05.LoopStep(invoice, plays, i, amount, totalAmount, creditsBefore, volumeCredits);
      if amount.Failure? {
        return Failure(amount.error);
      }
      totalAmount := totalAmount + amount.value;
    }
    Index05.TotalsOfWhole(invoice, plays);
    return Success(Totals(totalAmount, volumeCredits));
  }

  /**
   * The extracted `totalAmount`: its own loop over amountFor. It is the
   * statement data's total amount, 0 for no performances, or the error of the
   * first unknown play type.
   */
  method TotalAmount(invoice: Invoice, plays: Plays) returns (r: Result<int>)
    requires PlaysKnown(invoice.performances, plays)
    ensures r.Success? <==> Index05.StatementTotals(invoice, plays).Success?
    ensures r.Success? ==> r.value == Index05.StatementTotals(invoice, plays).value.totalAmount
    ensures r.Failure? ==> r.error == Index05.StatementTotals(invoice, plays).error
    ensures invoice.performances == [] ==> r == Success(0)
  {
    var ps := invoice.performances;
    var result := 0;
    for i := 0 to |ps|
      invariant Index05.EnrichAll(ps[..i], plays).Success?
      invariant result == Folds.Sum(Index05.EnrichAll(ps[..i], plays).value, Amount)
    {
      var amount := AmountFor(ps[i], plays);
      Index05.AmountStep(invoice, plays, i, amount);
      if amount.Failure? {
        return Failure(amount.error);
      }
      result := result + amount.value;
    }
    Index05.TotalsOfWhole(invoice, plays);
    return Success(result);
  }

  /**
   * The extracted `totalVolumeCredits`: its own loop over volumeCreditsFor.
   * It never throws; when every play type is known it is the statement data's
   * total credits.
   */
  method TotalVolumeCredits(invoice: Invoice, plays: Plays) returns (result: int)
    requires PlaysKnown(invoice.performances, plays)
    ensures result == CreditsSum(invoice.performances, plays)
    ensures Index05.StatementTotals(invoice, plays).Success? ==>
      result == Index05.StatementTotals(invoice, plays).value.volumeCredits
    ensures invoice.performances == [] ==> result == 0
  {
    var ps := invoice.performances;
    result := 0;
    for i := 0 to |ps|
      invariant result == CreditsSum(ps[..i], plays)
    {
      var credits := VolumeCreditsFor(ps[i], plays);
      result := result + credits;
      assert ps[..i + 1][..i] == ps[..i];
    }
    assert ps[..|ps|] == ps;
    if Index05.StatementTotals(invoice, plays).Success? {
      CreditsSumIsTotal(ps, plays);
    }
  }

  /**
   * The second `statement`, after Split Loop and Extract Function: the two
   * extracted totals, with the same result as the final stage.
   */
  method StatementSplitLoops(invoice: Invoice, plays: Plays) returns (r: Result<Totals>)
    requires PlaysKnown(invoice.performances, plays)
    ensures r == Index05.StatementTotals(invoice, plays)
  {
    var amount := TotalAmount(invoice, plays);
    if amount.Failure? {
      return Failure(amount.error);
    }
    var credits := TotalVolumeCredits(invoice, plays);
    return Success(Totals(amount.value, credits));
  }

  /** Splitting the loop preserved behaviour: both `statement` bodies end with the same totals or the same error. */
  method SplitLoopPreservesTotals(invoice: Invoice, plays: Plays) returns (single: Result<Totals>, split: Result<Totals>)
    requires PlaysKnown(invoice.performances, plays)
    ensures single == split
  {
    single := StatementSingleLoop(invoice, plays);
    split := StatementSplitLoops(invoice, plays);
  }
}
