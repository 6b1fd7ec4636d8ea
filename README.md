# Process engine bootstrap reconfiguration, in Dafny

When a process engine starts, it runs a reconfiguration command that checks two
advisory lock properties and requests the singleton history-cleanup job. Other
engines may share the same database and try the same thing at the same time.
So the command is run in a retry loop, `BootstrapEngineReconfigurationRunnable`.
The loop retries only on an `OptimisticLockingException`, and waits between
attempts for the time a `BackOffProcessEngineStrategy` computes.

The project has four modules:

- `BackOffMath` (`backoff_math.dfy`): exact stand-ins for the floating-point
  helpers. `Pow` is an integer power. `FloorLog` is the integer logarithm that
  `(int) log(factor, n)` computes. `SaturateToLong`, `TruncateTowardZero` and
  `LongCast` are Java's narrowing of a `double` to `long`.
- `BackOff` (`backoff_strategy.dfy`): the class `BackOffProcessEngineStrategy`
  with the same fields as the Java class. It also has the spec functions
  `MaxBackOffLevel` (the level fixed at construction) and `ComputedWait` (the
  wait below the plateau), and lemmas about the schedule they describe.
- `Reconfiguration` (`reconfiguration_runnable.dfy`): the class
  `BootstrapEngineReconfigurationRunnable`. Its `Run` is driven by a script of
  turns. Turn `i` records three things: whether `stop()` was called before the
  loop's `i`-th check of its flag, what the executor did with the `i`-th
  attempt (`Success`, `OptimisticLockingException`, or `OtherException`), and
  the value `Math.random()` would give in that turn. Sleeps are recorded in a
  `sleeps` field instead of being performed.
- `BootstrapCommand` (`bootstrap_command.dfy`): the command as a pure function.
  The store is seen as the set of property ids it holds plus the set of table
  names it has metadata for. The result is the ordered list of the command's
  effects: its two possible warnings and the job request.

What the code does, and its doc-comment does not say: nothing in the strategy
ever assigns `backOffLevel`. So a strategy built by `run()` stays at level 0,
every `getWaitTime()` returns 0, and the loop retries at once after every
conflict. `Run` proves this: `sleeps` is unchanged and the strategy's factor
never moves. The class comment says the level grows with each call. Its
formula for the maximum level also shows `+ 1` where the code adds 2. The
model follows the code in both places.

A level that grows by one with each failed attempt is not in the code. Neither
is a sleep that `stop()` can cut short. The model has neither.

## Model

| member | source | states |
|---|---|---|
| `BackOffMath.FloorLog` | engine/src/main/java/org/camunda/bpm/engine/impl/processengine/BackOffProcessEngineStrategy.java:88-90 | The integer logarithm: `factor^k <= n < factor^(k+1)` for the `k` returned. |
| `BackOffMath.Pow` | engine/src/main/java/org/camunda/bpm/engine/impl/processengine/BackOffProcessEngineStrategy.java:105 | `Math.pow` with an integral exponent, computed exactly; a positive base gives a positive power. |
| `BackOffMath.FloorLogUnique` | engine/src/main/java/org/camunda/bpm/engine/impl/processengine/BackOffProcessEngineStrategy.java:78 | Any exponent that brackets `n` between two consecutive powers is the one `FloorLog` returns. So the floor-log is well defined. |
| `BackOffMath.SaturateToLong` | engine/src/main/java/org/camunda/bpm/engine/impl/processengine/BackOffProcessEngineStrategy.java:105 | A `(long)` cast always gives a long. It is the identity on longs and saturates at `Long.MAX_VALUE` and `Long.MIN_VALUE` beyond them. |
| `BackOffMath.TruncateTowardZero` | engine/src/main/java/org/camunda/bpm/engine/impl/processengine/BackOffProcessEngineStrategy.java:108 | Casting a `double` rounds toward zero. The result is within one unit of `x`, on the zero side. |
| `BackOffMath.LongCast` | engine/src/main/java/org/camunda/bpm/engine/impl/processengine/BackOffProcessEngineStrategy.java:108 | The `(long)` narrowing in the compound assignment always gives a long. For a non-negative value below `Long.MAX_VALUE` it is the largest integer not above that value. |
| `BackOff.MaxBackOffLevel` | engine/src/main/java/org/camunda/bpm/engine/impl/processengine/BackOffProcessEngineStrategy.java:71-86 | A degenerate configuration (base ≤ 0, max ≤ 0, factor ≤ 0, or max < base) gives 0. Otherwise the level `L` is at least 2 and `factor^(L-2) <= max / base < factor^(L-1)`, with long division. |
| `BackOff.BackOffProcessEngineStrategy.constructor` | engine/src/main/java/org/camunda/bpm/engine/impl/processengine/BackOffProcessEngineStrategy.java:53-60 | Stores the four settings, leaves the level at 0, and sets `maxBackOffLevel` to `MaxBackOffLevel` of the settings. |
| `BackOff.BackOffProcessEngineStrategy.InitMaxBackOffLevel` | engine/src/main/java/org/camunda/bpm/engine/impl/processengine/BackOffProcessEngineStrategy.java:71-86 | Writes only `maxBackOffLevel`, and sets it to `MaxBackOffLevel` of the settings. |
| `BackOff.BackOffProcessEngineStrategy.GetWaitTime` | engine/src/main/java/org/camunda/bpm/engine/impl/processengine/BackOffProcessEngineStrategy.java:92-102 | Level 0 returns 0 and changes nothing. A non-zero level at or past `maxBackOffLevel` returns exactly `maxBackOffTime` and changes nothing; when `maxBackOffLevel` is 0 this covers every level ≥ 1. Any other level returns the computed wait and increments the factor by exactly 1. Only the factor can change, so `maxBackOffLevel` and `backOffLevel` never do. |
| `BackOff.BackOffProcessEngineStrategy.CalculateWaitTime` | engine/src/main/java/org/camunda/bpm/engine/impl/processengine/BackOffProcessEngineStrategy.java:104-114 | Returns `ComputedWait` for the factor it had on entry, and leaves the factor one higher. |
| `BackOff.ComputedWait` | engine/src/main/java/org/camunda/bpm/engine/impl/processengine/BackOffProcessEngineStrategy.java:105-109 | The wait of a level below the plateau, with or without jitter, is always a long. With a positive base and factor (and a random value ≥ 0) it is at least 1 ms, so such a level would always make the loop sleep. |
| `BackOff.WaitBelowPlateauWithinMax` | engine/src/main/java/org/camunda/bpm/engine/impl/processengine/BackOffProcessEngineStrategy.java:104-105 | Take a level from 1 to `maxBackOffLevel - 1` and the factor as configured. The wait there is exactly `base * factor^(level-1)`, so the long cast loses nothing. It is positive and at most `maxBackOffTime`. |
| `BackOff.PlateauLevelWouldExceedMax` | engine/src/main/java/org/camunda/bpm/engine/impl/processengine/BackOffProcessEngineStrategy.java:80-81 | At `maxBackOffLevel`, the geometric formula would exceed `maxBackOffTime`. So the plateau begins at the first level whose uncapped wait is too long. |
| `BackOff.WaitsIncreaseBelowPlateau` | engine/src/main/java/org/camunda/bpm/engine/impl/processengine/BackOffProcessEngineStrategy.java:22-28 | With the factor as configured, the waits of levels 1 to `maxBackOffLevel - 1` strictly increase. |
| `BackOff.JitterDoublesWait` | engine/src/main/java/org/camunda/bpm/engine/impl/processengine/BackOffProcessEngineStrategy.java:107-109 | With jitter, a non-negative computed wait `w` becomes `(long)(w + (r + w))` for `r` in [0, 1). That equals `2 * w`, narrowed to a long. |
| `BackOff.ExampleSchedule` | engine/src/main/java/org/camunda/bpm/engine/impl/processengine/BackOffProcessEngineStrategy.java:78-81 | Base 500, factor 2, max 6000: the maximum level is 5, and levels 1 to 4 compute 500, 1000, 2000 and 4000. |
| `Reconfiguration.FirstEnd` | engine/src/main/java/org/camunda/bpm/engine/impl/processengine/BootstrapEngineReconfigurationRunnable.java:52-61 | The first turn that ends the loop, meaning a stop request, a success or a non-conflict exception. Every earlier turn is an unstopped conflict. |
| `Reconfiguration.FirstEndAtFirstSuccess` | engine/src/main/java/org/camunda/bpm/engine/impl/processengine/BootstrapEngineReconfigurationRunnable.java:52-55 | Suppose there are no stop requests and only conflicts come before a success. Then the loop ends at that success, after its index plus one attempts. |
| `Reconfiguration.BootstrapEngineReconfigurationRunnable.constructor` | engine/src/main/java/org/camunda/bpm/engine/impl/processengine/BootstrapEngineReconfigurationRunnable.java:39-45 | The flag starts unset and `optimisticLockingException` starts null. No sleep has happened, and no attempt has started and no strategy has been built. |
| `Reconfiguration.BootstrapEngineReconfigurationRunnable.Run` | engine/src/main/java/org/camunda/bpm/engine/impl/processengine/BootstrapEngineReconfigurationRunnable.java:47-62 | Exactly one fresh strategy is built. It is built while the count of started attempts still equals its value at entry, so it comes before every attempt of the run; that count then grows by exactly `attempts`. Let `k` be the first turn that ends the loop. A stop at `k` gives `k` attempts; otherwise there are `k + 1`. A non-conflict exception at `k` escapes; the flag is then set only if a stop request landed during that attempt (turn `k + 1`). Every other end returns with the flag set. `optimisticLockingException` holds the last conflict, or keeps its old value when there was none; a success does not clear it. The strategy stays at level 0 with its factor unchanged, so no sleep happens. A flag already set means no attempt is made at all. |
| `Reconfiguration.BootstrapEngineReconfigurationRunnable.Stop` | engine/src/main/java/org/camunda/bpm/engine/impl/processengine/BootstrapEngineReconfigurationRunnable.java:64-66 | Sets the flag and changes nothing else. |
| `Reconfiguration.BootstrapEngineReconfigurationRunnable.SuspendReconfiguration` | engine/src/main/java/org/camunda/bpm/engine/impl/processengine/BootstrapEngineReconfigurationRunnable.java:68-78 | A non-positive duration returns at once, with no sleep. A positive one records exactly one sleep of that length. The call always returns normally and does not look at the flag. |
| `Reconfiguration.BootstrapEngineReconfigurationRunnable.InitializeBackOffStrategy` | engine/src/main/java/org/camunda/bpm/engine/impl/processengine/BootstrapEngineReconfigurationRunnable.java:80-82 | Returns a fresh strategy built from the configured settings, at level 0, counts one more strategy build, and records the number of attempts started so far at the moment of the build. |
| `BootstrapCommand.CheckDeploymentLockExists` | engine/src/main/java/org/camunda/bpm/engine/impl/processengine/BootstrapProcessEngineCommand.java:33-38 | Emits exactly the `noDeploymentLockPropertyFound` warning when `deployment.lock` is missing, and nothing when it is present. |
| `BootstrapCommand.CheckHistoryCleanupLockExists` | engine/src/main/java/org/camunda/bpm/engine/impl/processengine/BootstrapProcessEngineCommand.java:40-45 | Emits exactly the `noHistoryCleanupLockPropertyFound` warning when `history.cleanup.job.lock` is missing, and nothing when it is present. |
| `BootstrapCommand.CreateHistoryCleanupJob` | engine/src/main/java/org/camunda/bpm/engine/impl/processengine/BootstrapProcessEngineCommand.java:27-31 | Requests `cleanUpHistoryAsync` once if and only if `ACT_RU_JOB` has table metadata. |
| `BootstrapCommand.Execute` | engine/src/main/java/org/camunda/bpm/engine/impl/processengine/BootstrapProcessEngineCommand.java:17-25 | Always completes, whatever the lock lookups find. Each warning appears if and only if its lock is missing. The job request appears if and only if the job table exists. The effects come in step order (deployment check, cleanup check, job creation) with none repeated. |
| `BootstrapCommand.JobRequestIgnoresLocks` | engine/src/main/java/org/camunda/bpm/engine/impl/processengine/BootstrapProcessEngineCommand.java:27-31 | Whether the job is requested depends only on the job table, never on the lock properties. |

## Left out

- Floating point. The factor is a Java `float`; here it is an integer. `Math.log10`, `Math.pow` and `double` products are exact. Rounding errors, such as a logarithm that lands just below an integer, are not modelled.
- Degenerate factors. When capping is enabled, a factor of 1 divides by `log10(1) = 0`, and a factor between 0 and 1 has a negative logarithm. Both are excluded by `WellFormedConfig`, so `MaxBackOffLevel` and the strategy's constructor require a factor ≥ 2 in that case.
- `BackOff.ComputedWait` treats a wait beyond `Long.MAX_VALUE` as saturating, the way `(long)` does. It does not model the loss of precision when a large long is converted to a `double`.
- `Math.random()` is an input. Each call of `GetWaitTime` takes its value as a parameter in [0, 1), and `Run` takes one per turn.
- The strategy's constructor that reads `ProcessEngineConfiguration` (BackOffProcessEngineStrategy.java:62-69). The runnable instead holds the four back-off settings that configuration would supply.
- Threads. `Thread.sleep` becomes an entry in `sleeps`, and the `volatile` flag becomes a plain field. A cross-thread `stop()` becomes a stop request in a turn: a request in turn `i + 1` was made after attempt `i` began. A stop during a successful or conflicting attempt, or during a sleep, is only seen at the next check. A stop during an attempt that throws is applied before the exception leaves `run()`. A stop made after `run()` has ended is not part of a run.
- `Reconfiguration.BootstrapEngineReconfigurationRunnable.Run` requires that the script contains a turn that ends the loop, unless the flag is already set. An executor that reports conflicts forever, with no stop, keeps the Java loop running forever. A Dafny method must terminate, so that case is not modelled.
- The collaborators are abstract. `CommandExecutor`, `PropertyManager`, `ManagementService.getTableMetaData` and `HistoryService.cleanUpHistoryAsync` do not appear, and the script stands in for the executor. Nothing is assumed about what `cleanUpHistoryAsync` does, including whether it is idempotent. Nothing links a turn's outcome to what `BootstrapCommand.Execute` does against a store.
- Logging. The `EnginePersistenceLogger` warnings appear only as returned effects.
- The multi-threaded test `ConcurrentProcessEngineJobExecutorHistoryCleanupJobTest` is not part of this model.
