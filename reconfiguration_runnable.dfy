/**
 * The bootstrap reconfiguration loop: run the reconfiguration command through
 * the command executor until it succeeds or the loop is stopped, sleeping
 * for the back-off strategy's wait after every optimistic-locking conflict.
 *
 * The executor and the thread that may call `stop()` are the environment. A
 * run is driven by a script of turns: turn `i` says whether `stop()` was
 * called before the loop's `i`-th check of its flag, what the executor does
 * with the `i`-th attempt, and what `Math.random()` would return in that turn.
 * A stop request in turn `i + 1` was made after attempt `i` began: when that
 * attempt throws, it is the stop that lands before the exception leaves
 * `run()`. Exceptions are identified by a number.
 */
module Reconfiguration {
  import opened BackOff

  datatype Option<T> = None | Some(value: T)

  /** What executing the bootstrap command once does. */
  datatype Outcome =
    | Success
    | OptimisticLockingException(exception: nat)
    | OtherException(exception: nat)

  datatype Turn = Turn(stopRequested: bool, outcome: Outcome, random: real)

  /** How `run()` ends: by returning, or by letting an exception escape. */
  datatype RunEnd = Returned | Threw(exception: nat)

  /** A turn after which no further attempt is made. */
  predicate EndsLoop(t: Turn) {
    t.stopRequested || !t.outcome.OptimisticLockingException?
  }

  /** The environment ends the loop at some turn of the script. */
  predicate EventuallyEnds(script: seq<Turn>) {
    exists k :: 0 <= k < |script| && EndsLoop(script[k])
  }

  predicate RandomsInRange(script: seq<Turn>) {
    forall k :: 0 <= k < |script| ==> 0.0 <= script[k].random < 1.0
  }

  /** The first turn that ends the loop: every turn before it is an unstopped conflict. */
  function FirstEnd(script: seq<Turn>): (k: nat)
    requires EventuallyEnds(script)
    ensures k < |script| && EndsLoop(script[k])
    ensures forall j :: 0 <= j < k ==> !EndsLoop(script[j])
  {
    if EndsLoop(script[0]) then
      0
    else
      var k' :| 0 <= k' < |script| && EndsLoop(script[k']);
      assert EndsLoop(script[1..][k' - 1]);
      1 + FirstEnd(script[1..])
  }

  /**
   * With no stop request and nothing but conflicts before it, the loop ends at
   * the first success, after as many attempts as its index plus one.
   */
  lemma FirstEndAtFirstSuccess(script: seq<Turn>, s: nat)
    requires s < |script| && script[s].outcome.Success?
    requires forall j :: 0 <= j <= s ==> !script[j].stopRequested
    requires forall j :: 0 <= j < s ==> script[j].outcome.OptimisticLockingException?
    ensures EventuallyEnds(script) && FirstEnd(script) == s
  {
    assert EndsLoop(script[s]);
  }

  class BootstrapEngineReconfigurationRunnable {
    var isInterrupted: bool
    /** The last optimistic-locking exception caught, `None` standing for null. */
    var optimisticLockingException: Option<nat>
    /** The engine configuration's back-off settings. */
    var baseBackOffTime: int
    var backOffFactor: int
    var maxBackOffTime: int
    var applyJitter: bool
    /** The durations of the sleeps performed so far, in milliseconds. */
    var sleeps: seq<int>
    /**
     * Bookkeeping of the order of steps: how many attempts have started, how
     * many strategies have been built, and how many attempts had started
     * when the latest strategy was built.
     */
    ghost var attemptsStarted: nat
    ghost var strategiesBuilt: nat
    ghost var attemptsBeforeLastBuild: nat

    ghost predicate Valid()
      reads this
    {
      WellFormedConfig(baseBackOffTime, backOffFactor, maxBackOffTime)
    }

    constructor (baseBackOffTime: int, backOffFactor: int, maxBackOffTime: int, applyJitter: bool)
      requires WellFormedConfig(baseBackOffTime, backOffFactor, maxBackOffTime)
      ensures Valid()
      ensures !isInterrupted && optimisticLockingException == None
      ensures this.baseBackOffTime == baseBackOffTime && this.backOffFactor == backOffFactor
      ensures this.maxBackOffTime == maxBackOffTime && this.applyJitter == applyJitter
      ensures sleeps == [] && attemptsStarted == 0 && strategiesBuilt == 0
    {
      isInterrupted := false;
      optimisticLockingException := None;
      this.baseBackOffTime := baseBackOffTime;
      this.backOffFactor := backOffFactor;
      this.maxBackOffTime := maxBackOffTime;
      this.applyJitter := applyJitter;
      sleeps := [];
      attemptsStarted, strategiesBuilt, attemptsBeforeLastBuild := 0, 0, 0;
    }

    /**
     * Runs attempts until one succeeds, one throws something other than an
     * optimistic-locking exception, or a stop request is seen before an
     * attempt. The strategy is built once, before the first attempt. Every
     * attempt before the last was a conflict; the strategy's level stays 0, so
     * every wait is 0 and no sleep happens at all. A stop that lands while a
     * throwing attempt runs leaves the flag set as the exception escapes.
     */
    method Run(script: seq<Turn>) returns (ending: RunEnd, attempts: nat, strategy: BackOffProcessEngineStrategy)
      requires Valid()
      requires isInterrupted || EventuallyEnds(script)
      requires RandomsInRange(script)
      modifies this`isInterrupted, this`optimisticLockingException, this`sleeps
      modifies this`attemptsStarted, this`strategiesBuilt, this`attemptsBeforeLastBuild
      ensures Valid()
      ensures fresh(strategy) && strategiesBuilt == old(strategiesBuilt) + 1
      ensures attemptsBeforeLastBuild == old(attemptsStarted)
      ensures attemptsStarted == old(attemptsStarted) + attempts
      ensures strategy.baseBackOffTime == baseBackOffTime && strategy.backOffFactor == backOffFactor
      ensures strategy.maxBackOffTime == maxBackOffTime && strategy.applyJitter == applyJitter
      ensures strategy.backOffLevel == 0
      ensures strategy.maxBackOffLevel == MaxBackOffLevel(baseBackOffTime, backOffFactor, maxBackOffTime)
      ensures sleeps == old(sleeps)
      ensures ending == Returned ==> isInterrupted
      ensures old(isInterrupted) ==>
        ending == Returned && attempts == 0 && optimisticLockingException == old(optimisticLockingException)
      ensures !old(isInterrupted) ==>
        var k := FirstEnd(script);
        attempts == (if script[k].stopRequested then k else k + 1) &&
        ending == (if !script[k].stopRequested && script[k].outcome.OtherException?
                   then Threw(script[k].outcome.exception) else Returned) &&
        optimisticLockingException ==
          (if k == 0 then old(optimisticLockingException) else Some(script[k - 1].outcome.exception)) &&
        isInterrupted == (ending == Returned || (k + 1 < |script| && script[k + 1].stopRequested))
    {
      strategy := InitializeBackOffStrategy();
      ghost var wasInterrupted := isInterrupted;
      ghost var k: nat := if wasInterrupted then 0 else FirstEnd(script);
      ending, attempts := Returned, 0;
      var i := 0;
      if i < |script| && script[i].stopRequested {
        Stop();
      }
      while !isInterrupted
        invariant 0 <= i <= |script| && i <= k
        invariant wasInterrupted ==> isInterrupted && i == 0 && attempts == 0
        invariant !wasInterrupted ==> k == FirstEnd(script)
        invariant !isInterrupted ==> i < |script| && !script[i].stopRequested
        invariant isInterrupted && !wasInterrupted ==>
          i == k && (script[k].stopRequested || script[k].outcome.Success?) &&
          attempts == (if script[k].stopRequested then k else k + 1)
        invariant !isInterrupted ==> attempts == i
        invariant ending == Returned
        invariant optimisticLockingException ==
          (if i == 0 then old(optimisticLockingException) else Some(script[i - 1].outcome.exception))
        invariant strategy.Valid() && strategy.backOffFactor == backOffFactor
        invariant attemptsStarted == old(attemptsStarted) + attempts
        invariant sleeps == old(sleeps)
        decreases |script| - i, if isInterrupted then 0 else 1
        modifies this`isInterrupted, this`optimisticLockingException, this`sleeps, this`attemptsStarted
        modifies strategy`backOffFactor
      {
        attempts := attempts + 1;
        attemptsStarted := attemptsStarted + 1;
        match script[i].outcome
        case Success =>
          isInterrupted := true;
        case OptimisticLockingException(e) =>
          optimisticLockingException := Some(e);
          var waitTime := strategy.GetWaitTime(script[i].random);
          assert waitTime == 0;
          SuspendReconfiguration(waitTime);
          i := i + 1;
          if i < |script| && script[i].stopRequested {
            Stop();
          }
        case OtherException(e) =>
          ending := Threw(e);
          if i + 1 < |script| && script[i + 1].stopRequested {
            Stop();
          }
          return;
      }
    }

    /** Only raises the flag; a sleep in progress runs to its end. */
    method Stop()
      modifies this`isInterrupted
      ensures isInterrupted
    {
      isInterrupted := true;
    }

    /**
     * Sleeps for `millis` when it is positive and returns at once otherwise;
     * an interrupt of the sleep is swallowed, so it always returns normally.
     */
    method SuspendReconfiguration(millis: int)
      modifies this`sleeps
      ensures sleeps == old(sleeps) + (if millis <= 0 then [] else [millis])
    {
      if millis <= 0 {
        return;
      }
      sleeps := sleeps + [millis];
    }

    method InitializeBackOffStrategy() returns (strategy: BackOffProcessEngineStrategy)
      requires Valid()
      modifies this`strategiesBuilt, this`attemptsBeforeLastBuild
      ensures fresh(strategy) && strategy.Valid()
      ensures strategiesBuilt == old(strategiesBuilt) + 1 && attemptsBeforeLastBuild == attemptsStarted
      ensures strategy.baseBackOffTime == baseBackOffTime && strategy.backOffFactor == backOffFactor
      ensures strategy.maxBackOffTime == maxBackOffTime && strategy.applyJitter == applyJitter
      ensures strategy.backOffLevel == 0
      ensures strategy.maxBackOffLevel == MaxBackOffLevel(baseBackOffTime, backOffFactor, maxBackOffTime)
    {
      strategy := new BackOffProcessEngineStrategy(baseBackOffTime, backOffFactor, maxBackOffTime, applyJitter);
      strategiesBuilt, attemptsBeforeLastBuild := strategiesBuilt + 1, attemptsStarted;
    }
  }
}
