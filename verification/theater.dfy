/**
 * The records every stage of the theater billing computation shares: the play
 * catalog, the raw invoice, the enriched performance and the statement data,
 * and the one error the computation raises.
 */
module Theater {

  /** A catalog entry. `kind` is the play's `type` field ("tragedy", "comedy", ...). */
  datatype Play = Play(name: string, kind: string)

  /** The play catalog: play id to play. */
  type Plays = map<string, Play>

  /** One raw performance of an invoice. */
  datatype Performance = Performance(playID: string, audience: nat)

  datatype Invoice = Invoice(customer: string, performances: seq<Performance>)

  /** A raw performance copied and extended with its play, amount (in cents) and volume credits. */
  datatype EnrichedPerformance = EnrichedPerformance(
    playID: string,
    audience: nat,
    play: Play,
    amount: int,
    volumeCredits: int)

  /** What the computation hands to the renderers. */
  datatype StatementData = StatementData(
    customer: string,
    performances: seq<EnrichedPerformance>,
    totalAmount: int,
    totalVolumeCredits: int)

  /** The two totals the earlier, loop-based stages compute. */
  datatype Totals = Totals(totalAmount: int, volumeCredits: int)

  /** The `unknown type: <type>` error thrown for a play whose type has no pricing rule. */
  datatype Error = UnknownType(kind: string)
  {
    function Message(): string {
      "unknown type: " + kind
    }
  }

  /** A computation that either succeeds or throws an Error; usable with `:-`. */
  datatype Result<+T> = Success(value: T) | Failure(error: Error)
  {
    predicate IsFailure() {
      Failure?
    }

    function PropagateFailure<U>(): Result<U>
      requires Failure?
    {
      Failure(error)
    }

    function Extract(): T
      requires Success?
    {
      value
    }
  }

  /**
   * Every performance names a play of the catalog. The source has no check
   * for this: a missing id makes `plays[id]` undefined and the later `.type`
   * access crash, so every stage demands it of its caller.
   */
  predicate PlaysKnown(performances: seq<Performance>, plays: Plays) {
    forall i :: 0 <= i < |performances| ==> performances[i].playID in plays
  }

  /** `plays[aPerformance.playID]`: a plain catalog lookup. */
  function PlayFor(perf: Performance, plays: Plays): Play
    requires perf.playID in plays
  {
    plays[perf.playID]
  }

  /** `Math.max` on integers. */
  function Max(a: int, b: int): (r: int)
    ensures r >= a && r >= b
    ensures r == a || r == b
  {
    if a >= b then a else b
  }

  /** The raw fields an enriched performance was copied from. */
  function Raw(e: EnrichedPerformance): Performance {
    Performance(e.playID, e.audience)
  }

  /** The `perf.amount` field, as a value to fold over. */
  function Amount(e: EnrichedPerformance): int {
    e.amount
  }

  /** The `perf.volumeCredits` field, as a value to fold over. */
  function Credits(e: EnrichedPerformance): int {
    e.volumeCredits
  }
}
