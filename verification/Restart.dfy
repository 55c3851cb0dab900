/** The restart decision of Program.afterExit, as values. */
module Restart {
  import opened Common

  /** The execution flags of a server that the supervision code reads. */
  datatype Config = Config(enabled: bool, onCrash: bool, onGraceful: bool)

  /** program.go:438-441: a graceful exit forgets earlier crashes. */
  function CounterAfterReset(crashes: int, graceful: bool): int {
    if graceful then 0 else crashes
  }

  /** program.go:464-473: whether a restart is requested, and whether it is a counted crash restart. */
  predicate CrashRestart(config: Config, crashes: int, limit: int, graceful: bool) {
    !graceful && config.onCrash && crashes < limit
  }

  predicate RequestsRestart(config: Config, crashes: int, limit: int, graceful: bool) {
    (graceful && config.onGraceful) || CrashRestart(config, crashes, limit, graceful)
  }

  /** How many more crash restarts the counter allows. */
  function Budget(crashes: int, limit: int): nat {
    Max(0, limit - crashes)
  }

  /** What a whole callback does to CrashCounter, and whether it asks for a restart. */
  function AfterExitOutcome(config: Config, crashes: int, limit: int, graceful: bool, postOk: bool): (int, bool) {
    var c := CounterAfterReset(crashes, graceful);
    if !postOk then (c, false)
    else (if CrashRestart(config, c, limit, graceful) then c + 1 else c, RequestsRestart(config, c, limit, graceful))
  }
}
