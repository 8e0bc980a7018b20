/**
 * The final stage, index05/createStatementData.js: the pricing rules live in
 * one calculator per genre, chosen by a factory; the performances are
 * enriched by a `map` and the totals are `reduce` folds over them.
 */
module Index05 {
  import opened Theater
  import Folds

  /**
   * The calculator the factory hands out. The source's abstract
   * PerformanceCalculator base class is never instantiated; its two
   * subclasses are the two variants here, and its shared `volumeCredits`
   * getter is BaseVolumeCredits.
   */
  datatype Calculator =
    | TragedyCalculator(performance: Performance, play: Play)
    | ComedyCalculator(performance: Performance, play: Play)
  {
    /** PerformanceCalculator's `volumeCredits`: one credit per seat over 30. */
    function BaseVolumeCredits(): (r: int)
      ensures r >= 0 && r >= performance.audience - 30
      ensures r == 0 || r == performance.audience - 30
    {
      Max(performance.audience - 30, 0)
    }

    /**
     * The `amount` getter, in cents. A tragedy costs a flat 40000 up to 30
     * seats and 1000 more per seat beyond; a comedy 30000 plus 300 a seat,
     * and above 20 seats another 10000 plus 500 per seat beyond 20.
     */
    function Amount(): (r: int)
      ensures TragedyCalculator? ==>
        r == if performance.audience <= 30 then 40000 else 10000 + 1000 * performance.audience
      ensures ComedyCalculator? ==>
        r == if performance.audience <= 20 then 30000 + 300 * performance.audience
             else 30000 + 800 * performance.audience
      ensures r >= 30000
    {
      match this
      case TragedyCalculator(perf, _) =>
        var result := 40000;
        if perf.audience > 30 then result + 1000 * (perf.audience - 30) else result
      case ComedyCalculator(perf, _) =>
        var base := 30000;
        var withBonus := if perf.audience > 20 then base + 10000 + 500 * (perf.audience - 20) else base;
        withBonus + 300 * perf.audience
    }

    /**
     * The `volumeCredits` getter. A tragedy inherits the base rule; a comedy
     * adds one credit for every five attendees (rounded down).
     */
    function VolumeCredits(): (r: int)
      ensures TragedyCalculator? ==> r == BaseVolumeCredits()
      ensures ComedyCalculator? ==>
        var bonus := r - BaseVolumeCredits();
        5 * bonus <= performance.audience < 5 * bonus + 5
      ensures r >= BaseVolumeCredits()
    {
      match this
      case TragedyCalculator(_, _) => BaseVolumeCredits()
      case ComedyCalculator(perf, _) => BaseVolumeCredits() + perf.audience / 5
    }
  }

  /** `createPerformanceCalculator`: dispatch on the play's type string, or throw. */
  function CreatePerformanceCalculator(perf: Performance, play: Play): (r: Result<Calculator>)
    ensures play.kind == "tragedy" <==> r == Success(TragedyCalculator(perf, play))
    ensures play.kind == "comedy" <==> r == Success(ComedyCalculator(perf, play))
    ensures play.kind != "tragedy" && play.kind != "comedy" <==> r == Failure(UnknownType(play.kind))
  {
    if play.kind == "tragedy" then Success(TragedyCalculator(perf, play))
    else if play.kind == "comedy" then Success(ComedyCalculator(perf, play))
    else Failure(UnknownType(play.kind))
  }

  /** The amount the factory's calculator reports for a performance of a play, or the factory's error. */
  function CalculatedAmount(perf: Performance, play: Play): Result<int> {
    var calculator :- CreatePerformanceCalculator(perf, play);
    Success(calculator.Amount())
  }

  /**
   * `enrichPerformance`: a new record holding the raw fields, the play and
   * what the calculator reports; the raw performance is left as it was.
   */
  function EnrichPerformance(perf: Performance, plays: Plays): (r: Result<EnrichedPerformance>)
    requires perf.playID in plays
    ensures r.Success? <==> plays[perf.playID].kind in {"tragedy", "comedy"}
    ensures r.Success? ==>
      var calculator := CreatePerformanceCalculator(perf, plays[perf.playID]).value;
      && Raw(r.value) == perf
      && r.value.play == plays[perf.playID]
      && r.value.amount == calculator.Amount()
      && r.value.volumeCredits == calculator.VolumeCredits()
    ensures r.Failure? ==> r.error == UnknownType(plays[perf.playID].kind)
  {
    var calculator :- CreatePerformanceCalculator(perf, PlayFor(perf, plays));
    Success(EnrichedPerformance(
      perf.playID, perf.audience, calculator.play, calculator.Amount(), calculator.VolumeCredits()))
  }

  /**
   * `invoice.performances.map(enrichPerformance)`: enriches in order and
   * stops at the first performance whose play type is unknown.
   */
  function EnrichAll(ps: seq<Performance>, plays: Plays): (r: Result<seq<EnrichedPerformance>>)
    requires PlaysKnown(ps, plays)
    ensures r.Success? <==> forall i :: 0 <= i < |ps| ==> EnrichPerformance(ps[i], plays).Success?
    ensures r.Success? ==>
      && |r.value| == |ps|
      && forall i :: 0 <= i < |ps| ==> EnrichPerformance(ps[i], plays) == Success(r.value[i])
    ensures r.Failure? ==>
      exists i :: 0 <= i < |ps| && EnrichPerformance(ps[i], plays) == Failure(r.error)
                  && forall j :: 0 <= j < i ==> EnrichPerformance(ps[j], plays).Success?
    decreases |ps|
  {
    if ps == [] then Success([])
    else
      var n := |ps| - 1;
      assert forall i :: 0 <= i < n ==> ps[..n][i] == ps[i];
      var init := EnrichAll(ps[..n], plays);
      if init.Failure? then Failure(init.error)
      else
        var last := EnrichPerformance(ps[n], plays);
        if last.Failure? then Failure(last.error)
        else Success(init.value + [last.value])
  }

  /** `totalAmount`: the reduce over the enriched amounts, which is their sum. */
  function TotalAmount(data: StatementData): (r: int)
    ensures r == Folds.Sum(data.performances, Amount)
  {
    Folds.ReduceIsSum(data.performances, Amount, 0);
    Folds.Reduce(data.performances, Amount, 0)
  }

  /** `totalVolumeCredits`: the reduce over the enriched credits, which is their sum. */
  function TotalVolumeCredits(data: StatementData): (r: int)
    ensures r == Folds.Sum(data.performances, Credits)
  {
    Folds.ReduceIsSum(data.performances, Credits, 0);
    Folds.Reduce(data.performances, Credits, 0)
  }

  /**
   * `createStatementData`: copy the customer, enrich every performance,
   * then total. Any unknown play type makes the whole call fail with that
   * type's error; there is no partial result.
   */
  function CreateStatementData(invoice: Invoice, plays: Plays): (r: Result<StatementData>)
    requires PlaysKnown(invoice.performances, plays)
    ensures r.Success? <==>
      forall i :: 0 <= i < |invoice.performances| ==>
        plays[invoice.performances[i].playID].kind in {"tragedy", "comedy"}
    ensures r.Success? ==>
      && r.value.customer == invoice.customer
      && |r.value.performances| == |invoice.performances|
      && (forall i :: 0 <= i < |invoice.performances| ==>
            EnrichPerformance(invoice.performances[i], plays) == Success(r.value.performances[i])
            && Raw(r.value.performances[i]) == invoice.performances[i])
      && r.value.totalAmount == Folds.Sum(r.value.performances, Amount)
      && r.value.totalVolumeCredits == Folds.Sum(r.value.performances, Credits)
    ensures r.Failure? ==> r == Failure(EnrichAll(invoice.performances, plays).error)
    ensures invoice.performances == [] ==> r == Success(StatementData(invoice.customer, [], 0, 0))
  {
    var performances :- EnrichAll(invoice.performances, plays);
    var data := StatementData(invoice.customer, performances, 0, 0);
    var data := data.(totalAmount := TotalAmount(data));
    Success(data.(totalVolumeCredits := TotalVolumeCredits(data)))
  }

  /** The two totals of the statement data, or the error that stopped it. */
  function StatementTotals(invoice: Invoice, plays: Plays): Result<Totals>
    requires PlaysKnown(invoice.performances, plays)
  {
    var data :- CreateStatementData(invoice, plays);
    Success(Totals(data.totalAmount, data.totalVolumeCredits))
  }

  /**
   * Enriching in order fails at the first performance that fails, and
   * with that performance's error.
   */
  lemma FirstFailure(ps: seq<Performance>, plays: Plays, i: nat)
    requires PlaysKnown(ps, plays)
    requires i < |ps|
    requires forall j :: 0 <= j < i ==> EnrichPerformance(ps[j], plays).Success?
    requires EnrichPerformance(ps[i], plays).Failure?
    ensures EnrichAll(ps, plays) == Failure(EnrichPerformance(ps[i], plays).error)
  {
    var r := EnrichAll(ps, plays);
    assert r.Failure?;
    var k :| 0 <= k < |ps| && EnrichPerformance(ps[k], plays) == Failure(r.error)
             && forall j :: 0 <= j < k ==> EnrichPerformance(ps[j], plays).Success?;
    assert k == i;
  }

  /** Enriching one more performance appends its record and adds its amount and credits to the sums. */
  lemma EnrichStep(ps: seq<Performance>, plays: Plays, i: nat)
    requires PlaysKnown(ps, plays)
    requires i < |ps|
    requires EnrichAll(ps[..i], plays).Success?
    requires EnrichPerformance(ps[i], plays).Success?
    ensures EnrichAll(ps[..i + 1], plays).Success?
    ensures
      var before := EnrichAll(ps[..i], plays).value;
      var e := EnrichPerformance(ps[i], plays).value;
      && EnrichAll(ps[..i + 1], plays).value == before + [e]
      && Folds.Sum(before + [e], Amount) == Folds.Sum(before, Amount) + e.amount
      && Folds.Sum(before + [e], Credits) == Folds.Sum(before, Credits) + e.volumeCredits
  {
    assert ps[..i + 1][..i] == ps[..i];
    var before := EnrichAll(ps[..i], plays).value;
    var e := EnrichPerformance(ps[i], plays).value;
    Folds.SumSnoc(before, e, Amount);
    Folds.SumSnoc(before, e, Credits);
  }

  /**
   * One step of an in-order loop over the invoice, given the amount computed
   * for performance `i`: an error is the whole statement's error, and a value
   * extends the enriched prefix by that amount and by the credits of the
   * performance (the base credits plus the comedy bonus).
   */
  lemma AmountStep(invoice: Invoice, plays: Plays, i: nat, amount: Result<int>)
    requires PlaysKnown(invoice.performances, plays)
    requires i < |invoice.performances|
    requires EnrichAll(invoice.performances[..i], plays).Success?
    requires amount == CalculatedAmount(invoice.performances[i], plays[invoice.performances[i].playID])
    ensures amount.Failure? ==> StatementTotals(invoice, plays) == Failure(amount.error)
    ensures amount.Success? ==>
      var ps := invoice.performances;
      var before := EnrichAll(ps[..i], plays).value;
      var play := plays[ps[i].playID];
      && EnrichAll(ps[..i + 1], plays).Success?
      && Folds.Sum(EnrichAll(ps[..i + 1], plays).value, Amount) == Folds.Sum(before, Amount) + amount.value
      && Folds.Sum(EnrichAll(ps[..i + 1], plays).value, Credits) ==
           Folds.Sum(before, Credits) + Max(ps[i].audience - 30, 0)
           + (if "comedy" == play.kind then ps[i].audience / 5 else 0)
  {
    var ps := invoice.performances;
    if amount.Failure? {
      FirstFailure(ps, plays, i);
    } else {
      EnrichStep(ps, plays, i);
    }
  }

  /**
   * One whole iteration of an in-order loop that keeps a running total amount
   * and running credits: given the sums over the enriched prefix, the amount
   * computed for performance `i` and the credits after adding its base
   * credits and comedy bonus, either the statement fails with that amount's
   * error or both running values are the sums over the prefix one longer.
   */
  lemma LoopStep(invoice: Invoice, plays: Plays, i: nat, amount: Result<int>, total: int, credits: int, credits': int)
    requires PlaysKnown(invoice.performances, plays)
    requires i < |invoice.performances|
    requires EnrichAll(invoice.performances[..i], plays).Success?
    requires total == Folds.Sum(EnrichAll(invoice.performances[..i], plays).value, Amount)
    requires credits == Folds.Sum(EnrichAll(invoice.performances[..i], plays).value, Credits)
    requires amount == CalculatedAmount(invoice.performances[i], plays[invoice.performances[i].playID])
    requires
      var perf := invoice.performances[i];
      credits' == credits + Max(perf.audience - 30, 0)
        + (if "comedy" == plays[perf.playID].kind then perf.audience / 5 else 0)
    ensures amount.Failure? ==> StatementTotals(invoice, plays) == Failure(amount.error)
    ensures amount.Success? ==>
      var after := EnrichAll(invoice.performances[..i + 1], plays);
      && after.Success?
      && total + amount.value == Folds.Sum(after.value, Amount)
      && credits' == Folds.Sum(after.value, Credits)
  {
    AmountStep(invoice, plays, i, amount);
  }

  /** At the end of an in-order pass, the prefix is the whole invoice and the sums are the statement's totals. */
  lemma TotalsOfWhole(invoice: Invoice, plays: Plays)
    requires PlaysKnown(invoice.performances, plays)
    requires EnrichAll(invoice.performances[..|invoice.performances|], plays).Success?
    ensures
      var es := EnrichAll(invoice.performances[..|invoice.performances|], plays).value;
      StatementTotals(invoice, plays) == Success(Totals(Folds.Sum(es, Amount), Folds.Sum(es, Credits)))
  {
    assert invoice.performances[..|invoice.performances|] == invoice.performances;
  }

  /** The sample catalog: two tragedies and a comedy. */
  const SamplePlays: Plays := map[
    "hamlet" := Play("Hamlet", "tragedy"),
    "as-like" := Play("As You Like It", "comedy"),
    "othello" := Play("Othello", "tragedy")]

  /** The sample invoice: Hamlet to 55, As You Like It to 35 and Othello to 40. */
  const SampleInvoice: Invoice := Invoice("BigCo", [
    Performance("hamlet", 55), Performance("as-like", 35), Performance("othello", 40)])

  /** What the calculators report for each of the three sample performances. */
  lemma SamplePerformances()
    ensures PlaysKnown(SampleInvoice.performances, SamplePlays)
    ensures
      var ps := SampleInvoice.performances;
      && EnrichPerformance(ps[0], SamplePlays) == Success(EnrichedPerformance("hamlet", 55, SamplePlays["hamlet"], 65000, 25))
      && EnrichPerformance(ps[1], SamplePlays) == Success(EnrichedPerformance("as-like", 35, SamplePlays["as-like"], 58000, 12))
      && EnrichPerformance(ps[2], SamplePlays) == Success(EnrichedPerformance("othello", 40, SamplePlays["othello"], 50000, 10))
  {
    assert SamplePlays["hamlet"].kind == "tragedy";
    assert SamplePlays["as-like"].kind == "comedy";
    assert SamplePlays["othello"].kind == "tragedy";
  }

  /** Three performances that each enrich make the whole `map` succeed with those three records. */
  lemma EnrichThree(ps: seq<Performance>, plays: Plays, e0: EnrichedPerformance, e1: EnrichedPerformance, e2: EnrichedPerformance)
    requires PlaysKnown(ps, plays)
    requires |ps| == 3
    requires EnrichPerformance(ps[0], plays) == Success(e0)
    requires EnrichPerformance(ps[1], plays) == Success(e1)
    requires EnrichPerformance(ps[2], plays) == Success(e2)
    ensures EnrichAll(ps, plays) == Success([e0, e1, e2])
  {
    assert forall i :: 0 <= i < |ps| ==> EnrichPerformance(ps[i], plays).Success? by {
      forall i | 0 <= i < |ps| ensures EnrichPerformance(ps[i], plays).Success? {
        assert i == 0 || i == 1 || i == 2;
      }
    }
    var es := EnrichAll(ps, plays).value;
    assert EnrichPerformance(ps[0], plays) == Success(es[0]);
    assert EnrichPerformance(ps[1], plays) == Success(es[1]);
    assert EnrichPerformance(ps[2], plays) == Success(es[2]);
    assert es[0] == e0 && es[1] == e1 && es[2] == e2;
    assert es == [e0, e1, e2];
  }

  /** An invoice of three performances that all enrich totals their three amounts and their three credits. */
  lemma StatementOfThree(invoice: Invoice, plays: Plays, e0: EnrichedPerformance, e1: EnrichedPerformance, e2: EnrichedPerformance)
    requires PlaysKnown(invoice.performances, plays)
    requires |invoice.performances| == 3
    requires EnrichPerformance(invoice.performances[0], plays) == Success(e0)
    requires EnrichPerformance(invoice.performances[1], plays) == Success(e1)
    requires EnrichPerformance(invoice.performances[2], plays) == Success(e2)
    ensures StatementTotals(invoice, plays) ==
      Success(Totals(e0.amount + e1.amount + e2.amount, e0.volumeCredits + e1.volumeCredits + e2.volumeCredits))
  {
    EnrichThree(invoice.performances, plays, e0, e1, e2);
    Folds.SumThree(e0, e1, e2, Amount);
    Folds.SumThree(e0, e1, e2, Credits);
    TotalsOfWhole(invoice, plays);
  }

  /**
   * The sample invoice makes 65000 + 58000 + 50000 cents and
   * 25 + 12 + 10 credits.
   */
  lemma SampleStatement()
    ensures PlaysKnown(SampleInvoice.performances, SamplePlays)
    ensures StatementTotals(SampleInvoice, SamplePlays) == Success(Totals(173000, 47))
  {
    SamplePerformances();
    StatementOfThree(SampleInvoice, SamplePlays,
      EnrichedPerformance("hamlet", 55, SamplePlays["hamlet"], 65000, 25),
      EnrichedPerformance("as-like", 35, SamplePlays["as-like"], 58000, 12),
      EnrichedPerformance("othello", 40, SamplePlays["othello"], 50000, 10));
  }
}
