# CPU input boost: the boost arbitration engine

This project models the arbitration core of the CPU input-boost driver
(`drivers/cpufreq/cpu_input_boost.c`). The driver raises a CPU's minimum
frequency (`policy->min`) for three reasons:

- user input (the input boost cycle, which boosts CPU0 and possibly one late CPU);
- a task migrating onto a CPU (the migration boost, computed by a per-CPU sync thread);
- the display waking up (the framebuffer boost: BOOST, then WAITING for 900 ms).

The cpufreq policy notifier `do_cpu_boost` arbitrates between the three.

The model is imperative, like the driver:

- `CpuInputBoost.BoostEngine` is one class. Its `const info: array<BoostPolicy>` is `boost_info`, one record per possible CPU. Its fields are the driver's globals and tunables.
- Each kernel entry point is one method: the policy notifier, the input, framebuffer and migration notifiers, one pass of the migration sync thread, the three delayed-work callbacks, and the sysfs writes after parsing.
- A delayed work is a `Work` value: `Idle` or `Queued(delayMs)`. The environment fires a work by calling its callback method, which requires the work to be queued. `Queue` follows `queue_delayed_work`: an already queued work keeps its original delay.
- `cancel_*_sync` sets a work back to `Idle`.
- The current time, the set of online CPUs and the results of `cpufreq_get_policy` are parameters. A failed lookup is `None`.
- Each call to `cpufreq_update_policy` is appended to the ghost log `updates`.
- `BoostArith` holds the driver's `unsigned int` arithmetic. It wraps modulo 2^32 where a product can overflow: `ib_duration_ms * 3` at line 149 and `dest_policy.max * task_load` at line 336.

Every state-changing method preserves `BoostEngine.Valid()`, which states:

- a cycle never admits more CPUs than it targets (`ibNrCpusBoosted <= ibNrCpusToBoost <= 2`);
- the display boost has its work queued exactly while it is on: with delay 0 in BOOST, 900 ms in WAITING;
- a CPU's migration floor is nonzero exactly while its removal work is queued;
- a boosted CPU always has its restore work queued;
- a per-CPU state is never WAITING, a stored task load is at most 100, and a stored migration source is a possible CPU.

CPU ids come from the kernel's masks, so every method that takes the online set requires it to hold only possible CPU ids (`PossibleCpus`), and `MigrationNotify` requires its source to be a possible CPU.

The scenario methods in `scenarios.dfy` derive the driver's documented behaviour from the contracts alone:

- a single-core input cycle with a late second CPU;
- migration floors with load gating on and off;
- a double unblank within the display window;
- stop-and-clear idempotence;
- admission into an interrupted cycle after a disable.

Where the driver's behaviour is easy to misread, the model follows the code:

- Late admission in `do_cpu_boost` (lines 238-250) checks neither `enabled` nor whether this CPU was already counted. After `enabled` is set to 0, a CPU whose `min` is above the hardware minimum is still admitted into an interrupted cycle (`AdmissionAfterDisable`).
- With load gating off, the stored load is 0 (line 403), so the migration floor is the source's current frequency. It is not `dest.max * load / 100`.
- Stop and clear does not reset the cycle counters, `suspended` or the migration mailboxes.
- The end of the display cooldown (line 199) unboosts every CPU and clears `ib_running`, but leaves their restore works queued. So "boosted implies restore queued" holds, and the converse does not.
- `enabled`, `load_based_syncs`, `migration_boost_ms` and `migration_load_threshold` accept 0 (lines 511, 564, 578, 592). Only `ib_freqs` and `ib_duration_ms` reject it.

## Model

| member | source | states |
|---|---|---|
| BoostArith.NrCpusToBoost | drivers/cpufreq/cpu_input_boost.c:143 | a cycle targets one or two CPUs, and two exactly when one CPU is online |
| BoostArith.AdjustedDuration | drivers/cpufreq/cpu_input_boost.c:145-149 | the adjusted duration never exceeds the configured one, even when `ib_duration_ms * 3` wraps; it leaves room for the 10 ms grace without wrapping; without wrap it is the floor of duration * 3 / (3 + online) |
| BoostArith.AdjustedDurationAntitone | drivers/cpufreq/cpu_input_boost.c:145-149 | more online CPUs never give a longer input boost |
| BoostArith.MigrationRequest | drivers/cpufreq/cpu_input_boost.c:336-337 | the requested floor is at least the source's current frequency and equals it when the load is 0; its load part never exceeds load% of the destination maximum; for a load of at most 100 it never exceeds the larger of the destination maximum and the source frequency; without wrap it is max(max * load / 100, cur) |
| BoostArith.ToU32 | drivers/cpufreq/cpu_input_boost.c:387 | the implicit `int` to `unsigned int` conversion in the threshold comparison keeps values in range and adds 2^32 to negative ones |
| CpuInputBoost.BoostEngine.constructor | drivers/cpufreq/cpu_input_boost.c:55-67 | a new engine is disabled, with every tunable 0, every record zeroed and nothing queued |
| CpuInputBoost.BoostEngine.CpuBoost | drivers/cpufreq/cpu_input_boost.c:212-256 | the policy is left alone when disabled with `min` at the hardware minimum, and for every event other than ADJUST. A display boost yields `max` and touches no input state. Otherwise the floor before the migration step is the hardware minimum, min(max, ib_freq[0]) or min(max, ib_freq[1]). A late admission (CPU other than 0, count below target, positive remaining time) boosts this CPU, adds exactly 1 to the count and queues its restore for the remaining time. A migration floor above the floor replaces it by min(max, floor). With hardware minimum <= max, the result lies between the pre-migration floor and `max` |
| CpuInputBoost.BoostEngine.InputEvent | drivers/cpufreq/cpu_input_boost.c:423-431 | the event is ignored while a cycle runs, while disabled or while the display boost is on. Otherwise it sets `ib_running` and queues the cycle start, so a repeated event changes nothing |
| CpuInputBoost.BoostEngine.BoostCpu0 | drivers/cpufreq/cpu_input_boost.c:70-80 | CPU0 becomes boosted and is counted once; its policy re-evaluation is logged; its restore is queued for the given duration unless already queued; the start time is now |
| CpuInputBoost.BoostEngine.RunBoostWork | drivers/cpufreq/cpu_input_boost.c:131-162 | the cycle start targets NrCpusToBoost(online) CPUs with AdjustedDuration(duration, online) <= duration; it leaves only CPU0 boosted and counted (count 1), with its restore at adjusted + 10 ms and the start time recorded; other CPUs are unchanged |
| CpuInputBoost.BoostEngine.UnboostCpu | drivers/cpufreq/cpu_input_boost.c:83-92 | only this CPU's input boost ends; a policy re-evaluation is logged only when it is online |
| CpuInputBoost.BoostEngine.AnyCpuBoosted | drivers/cpufreq/cpu_input_boost.c:173-178 | the scan answers true exactly when some possible CPU is boosted |
| CpuInputBoost.BoostEngine.FireRestoreWork | drivers/cpufreq/cpu_input_boost.c:165-182 | a restore unboosts only its own CPU; it clears `ib_running` when no CPU remains boosted and leaves it unchanged otherwise |
| CpuInputBoost.BoostEngine.UnboostAllCpus | drivers/cpufreq/cpu_input_boost.c:94-109 | every CPU ends unboosted with its other fields unchanged; the online ones are re-evaluated in CPU order; `ib_running` is cleared |
| CpuInputBoost.BoostEngine.FbBlankBoost | drivers/cpufreq/cpu_input_boost.c:263-291 | the event is ignored while disabled or when it is not a blank event. A blank other than unblank only sets `suspended`. An unblank clears it, and starts BOOST with the work queued at once only from UNBOOST, so the work is never queued twice |
| CpuInputBoost.BoostEngine.FireFbBoostWork | drivers/cpufreq/cpu_input_boost.c:185-201 | from BOOST, every online CPU is re-evaluated and the work goes to WAITING, re-queued for 900 ms, with no input state touched. From WAITING, the display boost ends, every CPU is unboosted and `ib_running` is cleared |
| CpuInputBoost.BoostEngine.MigrationNotify | drivers/cpufreq/cpu_input_boost.c:373-417 | the destination's mailbox is overwritten (last write wins) only when enabled with a nonzero migration duration, not suspended, no display boost, the load passes the gate and the sync thread is not migrating itself. The stored load is 0 with gating off; with gating on it lies in (threshold, 100] |
| CpuInputBoost.BoostEngine.MigSyncIteration | drivers/cpufreq/cpu_input_boost.c:316-368 | the mailbox is drained. A failed lookup or a request at or below the hardware minimum leaves the floor and its removal alone. Otherwise an online destination gets floor = MigrationRequest and its removal re-queued for the migration duration, and an offline one ends with floor 0 and no removal. Source and destination re-evaluations are logged only for online CPUs |
| CpuInputBoost.BoostEngine.FireRemovalWork | drivers/cpufreq/cpu_input_boost.c:298-304 | the removal resets this CPU's migration floor to 0 and re-evaluates its policy |
| CpuInputBoost.BoostEngine.StopRemoveAllBoosts | drivers/cpufreq/cpu_input_boost.c:112-128 | stop leaves the display boost off and every work cancelled, with every CPU unboosted and every migration floor 0. `ib_running` is false. Mailboxes, counters and tunables are untouched. A second call changes no record |
| CpuInputBoost.BoostEngine.WriteEnabled | drivers/cpufreq/cpu_input_boost.c:502-517 | an unparsed write fails and changes nothing. Any parsed value is stored; 0 also stops and clears everything. A nonzero value changes no boost state |
| CpuInputBoost.BoostEngine.WriteIbFreqs | drivers/cpufreq/cpu_input_boost.c:519-536 | the write succeeds exactly when both values parsed and both are nonzero, and only then are the two frequencies replaced |
| CpuInputBoost.BoostEngine.WriteIbDurationMs | drivers/cpufreq/cpu_input_boost.c:538-553 | the write succeeds exactly when a nonzero value parsed, and only then is the duration replaced |
| CpuInputBoost.BoostEngine.WriteLoadBasedSyncs | drivers/cpufreq/cpu_input_boost.c:555-567 | any parsed value is accepted and stored as the boolean value != 0 |
| CpuInputBoost.BoostEngine.WriteMigrationBoostMs | drivers/cpufreq/cpu_input_boost.c:569-581 | any parsed value, 0 included, is stored |
| CpuInputBoost.BoostEngine.WriteMigrationLoadThreshold | drivers/cpufreq/cpu_input_boost.c:583-595 | any parsed value, 0 included, is stored |

## Left out

- Input device matching, connect and disconnect (lines 433-497): kernel registration and allocation.
- Module initialisation and notifier, workqueue and thread registration (lines 662-717). The constructor gives only the zero-initialised state those leave behind.
- The sysfs reads (`snprintf`) and the `sscanf` parsing. The write methods take the parse result as an `Option`.
- Concurrency: the sync thread's wait and wake, the spinlock, `get_online_cpus`, and the blocking of `cancel_*_sync`. Each entry point runs atomically. Cancelling a work makes it `Idle`.
- The `being_woken` wake coalescing (lines 411-414): publishing into the mailbox is modelled, the wake-up is not. One pass of the sync thread requires the mailbox to be pending, which is the condition its wait returns on.
- The sync thread's `kthread_should_stop` exit (lines 320-321): the driver never stops its threads.
- The `CPUFREQ_START` branch (lines 220-223): it pins the sync thread to its CPU, which is scheduler affinity. The model returns the policy unchanged, as the code does.
- `cpufreq_update_policy` is only logged. In the kernel it re-runs the policy notifier for that CPU at once; here the governor calls `CpuBoost` separately.
- Time is a parameter `now`. A queued work records the delay it was queued with, not an expiry time, and the caller chooses when and in what order works fire.
- CpuBoost: the remaining time `ib_adj_duration_ms - (now - boost_start_time)` (lines 241-242) is computed on mathematical integers, not through the C `u64`-to-`int` truncation.
- Logging: the `pr_err` for an invalid load (line 391) and the `pr_debug` calls (lines 340 and 399) are not modelled; only the discard or the state change beside them is.
