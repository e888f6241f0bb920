/** What Lotus reports about the current proving deadline. */
module Lotus {
  const EPOCH_DURATION := 30

  datatype DeadlineInfo = DeadlineInfo(
    currentEpoch: int,
    periodStart: int,
    index: nat,
    open: int,
    close: int,
    periodDeadlines: nat,
    provingPeriod: int,
    challengeWindow: int)

  function SecondsUntilOpen(d: DeadlineInfo): int {
    var epochs := d.open - d.currentEpoch;
    if epochs < 0 then 0 else epochs * EPOCH_DURATION
  }

  function SecondsUntilClose(d: DeadlineInfo): int {
    var epochs := d.close - d.currentEpoch;
    if epochs < 0 then 0 else epochs * EPOCH_DURATION
  }

  predicate IsOpen(d: DeadlineInfo) {
    d.open <= d.currentEpoch < d.close
  }
}
