/**
 * The boost arbitration engine of the CPU input-boost driver.
 *
 * The per-CPU records (`struct boost_policy`) live in an array indexed by CPU
 * id; the driver's globals are fields of one `BoostEngine`. Every kernel
 * entry point is one method: the cpufreq policy notifier, the input and
 * framebuffer notifiers, the migration notifier, one pass of the per-CPU
 * migration sync thread, the delayed-work callbacks, and the sysfs writes
 * after parsing. Delayed works are values of `Work`; the environment "fires"
 * one by calling its callback method, which the workqueue only does for a
 * queued work. The current time, the set of online CPUs and the policies the
 * cpufreq core reports are parameters. Every call to `cpufreq_update_policy`
 * is appended to the ghost log `updates`.
 */
module CpuInputBoost {
  import opened Wrappers
  import opened BoostArith

  /** `enum boost_status`; per-CPU records only ever use Unboost and Boost. */
  datatype BoostStatus = Unboost | Waiting | Boost

  /** A delayed work item: idle, or queued to run after `delayMs`. */
  datatype Work = Idle | Queued(delayMs: nat)

  /**
   * `queue_delayed_work`: queues an idle work item; a work item that is
   * already queued keeps its original expiry.
   */
  function Queue(w: Work, delayMs: nat): (r: Work)
    ensures r.Queued?
    ensures w.Queued? ==> r == w
    ensures w.Idle? ==> r.delayMs == delayMs
  {
    if w.Queued? then w else Queued(delayMs)
  }

  /**
   * One CPU's record: the single-slot migration mailbox (`pending`, `srcCpu`,
   * `taskLoad`), the input boost state, the migration floor, and the input
   * restore and migration removal works.
   */
  datatype BoostPolicy = BoostPolicy(
    pending: bool,
    srcCpu: int,
    taskLoad: U32,
    boostState: BoostStatus,
    migrationFreq: U32,
    restoreWork: Work,
    removalWork: Work)
  {
    /** Everything but the link between an input boost and its restore. */
    ghost predicate ValidExceptRestore() {
      && boostState != Waiting
      && (migrationFreq != 0 <==> removalWork.Queued?)
      && taskLoad <= 100
    }

    /** A boosted CPU always has its restore queued. */
    ghost predicate Valid() {
      ValidExceptRestore() && (boostState == Boost ==> restoreWork.Queued?)
    }
  }

  /** A record as zero-initialised per-CPU data leaves it. */
  const InitialPolicy := BoostPolicy(false, 0, 0, Unboost, 0, Idle, Idle)

  /** A record after `stop_remove_all_boosts`: works cancelled, floors dropped, mailbox kept. */
  function Cleared(p: BoostPolicy): (r: BoostPolicy)
    ensures p.ValidExceptRestore() ==> r.Valid()
    ensures r.pending == p.pending && r.srcCpu == p.srcCpu && r.taskLoad == p.taskLoad
    ensures r.boostState == Unboost && r.migrationFreq == 0
  {
    p.(boostState := Unboost, migrationFreq := 0, restoreWork := Idle, removalWork := Idle)
  }

  /** The policy notifier events the driver tells apart. */
  datatype PolicyEvent = Adjust | Start | OtherPolicyEvent

  /** What `cpufreq_get_policy` reports of one CPU: `min`, `max`, `cur` and `cpuinfo.min_freq`. */
  datatype CpuPolicy = CpuPolicy(min: U32, max: U32, cur: U32, hwMin: U32)

  /** A framebuffer notifier event: a blank event carries the blank level. */
  datatype FbEvent = Blank(level: int) | OtherFbEvent

  const FB_BLANK_UNBLANK: int := 0

  /** The online CPUs below `k`, in increasing order: what a `for_each_possible_cpu` loop reaches. */
  ghost function OnlineBelow(online: set<int>, k: nat): (r: seq<int>)
    ensures forall i :: 0 <= i < |r| ==> r[i] in online && 0 <= r[i] < k
  {
    if k == 0 then [] else OnlineBelow(online, k - 1) + (if k - 1 in online then [k - 1] else [])
  }

  class BoostEngine {
    /** `boost_info`, one record per possible CPU. */
    const info: array<BoostPolicy>

    var ibRunning: bool
    var loadBasedSyncs: bool
    var suspended: bool
    var fbBoost: BoostStatus
    var boostStartTime: int
    var ibAdjDurationMs: U32
    var ibDurationMs: U32
    var ibFreq: seq<U32>
    var enabled: U32
    var migrationBoostMs: U32
    var migrationLoadThreshold: U32
    var ibNrCpusBoosted: U32
    var ibNrCpusToBoost: U32

    /** `boost_work` (the input cycle start) is queued. */
    var boostWorkQueued: bool
    /** `fb_boost_work`. */
    var fbBoostWork: Work

    /** CPUs passed to `cpufreq_update_policy`, oldest first. */
    ghost var updates: seq<int>

    /** The engine's invariant, except that a boosted CPU may have lost its restore. */
    ghost predicate ValidExceptRestore()
      reads this, info
    {
      && info.Length >= 1
      && |ibFreq| == 2
      && ibNrCpusBoosted <= ibNrCpusToBoost <= 2
      && (fbBoost == Unboost <==> fbBoostWork == Idle)
      && (fbBoost == Boost ==> fbBoostWork == Queued(0))
      && (fbBoost == Waiting ==> fbBoostWork == Queued(FB_BOOST_MS))
      && forall c :: 0 <= c < info.Length ==> info[c].ValidExceptRestore() && 0 <= info[c].srcCpu < info.Length
    }

    /** Every id in `cpus` names a possible CPU, as every CPU mask the kernel hands out does. */
    predicate PossibleCpus(cpus: set<int>)
    {
      forall c :: c in cpus ==> 0 <= c < info.Length
    }

    /**
     * The engine's invariant: a cycle never admits more CPUs than it targets,
     * the display boost has its work queued exactly while it is on (at once
     * when BOOST, after 900 ms when WAITING), a migration floor is set exactly
     * while its removal is queued, a boosted CPU has its restore queued, and a
     * stored load is a percentage and a stored migration source is a possible CPU.
     */
    ghost predicate Valid()
      reads this, info
    {
      ValidExceptRestore() && forall c :: 0 <= c < info.Length ==> info[c].Valid()
    }

    /** Nothing boosted and nothing queued, as `stop_remove_all_boosts` leaves it. */
    ghost predicate Stopped()
      reads this, info
    {
      && !boostWorkQueued
      && fbBoost == Unboost
      && fbBoostWork == Idle
      && !ibRunning
      && forall c :: 0 <= c < info.Length ==> Cleared(info[c]) == info[c]
    }

    ghost predicate SomeCpuBoosted()
      reads this, info
    {
      exists c :: 0 <= c < info.Length && info[c].boostState == Boost
    }

    /** `cpu_ib_init` and the zero-initialised statics: disabled, all tunables 0. */
    constructor (nrPossibleCpus: nat)
      requires nrPossibleCpus >= 1
      ensures Valid() && Stopped() && fresh(info)
      ensures info.Length == nrPossibleCpus
      ensures forall c :: 0 <= c < info.Length ==> info[c] == InitialPolicy
      ensures enabled == 0 && ibFreq == [0, 0] && ibDurationMs == 0
      ensures !loadBasedSyncs && migrationBoostMs == 0 && migrationLoadThreshold == 0
      ensures !suspended && ibNrCpusBoosted == 0 && ibNrCpusToBoost == 0
      ensures updates == []
    {
      info := new BoostPolicy[nrPossibleCpus](_ => InitialPolicy);
      ibRunning, loadBasedSyncs, suspended := false, false, false;
      fbBoost := Unboost;
      boostStartTime, ibAdjDurationMs, ibDurationMs := 0, 0, 0;
      ibFreq := [0, 0];
      enabled, migrationBoostMs, migrationLoadThreshold := 0, 0, 0;
      ibNrCpusBoosted, ibNrCpusToBoost := 0, 0;
      boostWorkQueued, fbBoostWork := false, Idle;
      updates := [];
    }

    /********************************* Policy arbitrator *********************************/

    /** `do_cpu_boost` returns before it looks at any boost state. */
    ghost predicate LeavesPolicy(event: PolicyEvent, policy: CpuPolicy)
      reads this
    {
      (enabled == 0 && policy.min == policy.hwMin) || event != Adjust
    }

    /** A CPU other than CPU0 is admitted late into the running input cycle. */
    ghost predicate AdmitsLate(cpu: nat, now: int)
      reads this
    {
      cpu != 0 && ibNrCpusBoosted < ibNrCpusToBoost && ibAdjDurationMs - (now - boostStartTime) > 0
    }

    /** The floor after the input boost steps, before the migration floor may raise it. */
    ghost function InputFloor(cpu: nat, policy: CpuPolicy, now: int): U32
      reads this, info
      requires cpu < info.Length && |ibFreq| == 2
    {
      if AdmitsLate(cpu, now) then Min(policy.max, ibFreq[1])
      else if info[cpu].boostState == Boost then Min(policy.max, ibFreq[if cpu == 0 then 0 else 1])
      else if info[cpu].boostState == Unboost then policy.hwMin
      else policy.min
    }

    /**
     * `do_cpu_boost`: the policy notifier. Returns the new `policy->min`.
     * Outside an ADJUST event, and when disabled with the minimum already at
     * the hardware minimum, the policy is left alone. A display boost forces
     * the maximum. Otherwise the floor is the hardware minimum or the CPU's
     * input frequency, a late-admitted CPU gets the other-CPU frequency, and a
     * higher migration floor raises the result; no step exceeds `policy.max`.
     */
    method CpuBoost(event: PolicyEvent, cpu: nat, policy: CpuPolicy, now: int) returns (newMin: U32)
      requires Valid() && cpu < info.Length
      modifies info, this`ibNrCpusBoosted
      ensures Valid()
      ensures forall c :: 0 <= c < info.Length && c != cpu ==> info[c] == old(info[c])
      ensures old(LeavesPolicy(event, policy)) ==> newMin == policy.min
      ensures !old(LeavesPolicy(event, policy)) && fbBoost != Unboost ==> newMin == policy.max
      ensures old(LeavesPolicy(event, policy)) || fbBoost != Unboost || !old(AdmitsLate(cpu, now)) ==>
        info[cpu] == old(info[cpu]) && ibNrCpusBoosted == old(ibNrCpusBoosted)
      ensures !old(LeavesPolicy(event, policy)) && fbBoost == Unboost && old(AdmitsLate(cpu, now)) ==>
        && ibNrCpusBoosted == old(ibNrCpusBoosted) + 1
        && info[cpu] == old(info[cpu]).(boostState := Boost,
             restoreWork := Queue(old(info[cpu].restoreWork), ibAdjDurationMs - (now - boostStartTime)))
      ensures !old(LeavesPolicy(event, policy)) && fbBoost == Unboost ==>
        var floor := old(InputFloor(cpu, policy, now));
        && floor in {policy.hwMin, Min(policy.max, ibFreq[0]), Min(policy.max, ibFreq[1])}
        && newMin == (if info[cpu].migrationFreq > floor then Min(policy.max, info[cpu].migrationFreq) else floor)
        && (policy.hwMin <= policy.max ==> floor <= newMin <= policy.max)
    {
      newMin := policy.min;
      if enabled == 0 && policy.min == policy.hwMin {
        return;
      }
      if event == Start {
        // Pins this CPU's sync thread to it; scheduler affinity is not modelled.
        return;
      }
      if event != Adjust {
        return;
      }
      if fbBoost != Unboost {
        newMin := policy.max;
        return;
      }
      var b := info[cpu];
      if b.boostState == Unboost {
        newMin := policy.hwMin;
      } else if b.boostState == Boost {
        newMin := Min(policy.max, ibFreq[if cpu != 0 then 1 else 0]);
      }
      if ibNrCpusBoosted < ibNrCpusToBoost && cpu != 0 {
        var durationMs := ibAdjDurationMs - (now - boostStartTime);
        if durationMs > 0 {
          b := b.(boostState := Boost, restoreWork := Queue(b.restoreWork, durationMs));
          info[cpu] := b;
          newMin := Min(policy.max, ibFreq[1]);
          ibNrCpusBoosted := ibNrCpusBoosted + 1;
        }
      }
      if b.migrationFreq > newMin {
        newMin := Min(policy.max, b.migrationFreq);
      }
    }

    /********************************* Input boost *********************************/

    /**
     * `cpu_ib_input_event`: starts a cycle unless one is running, the driver
     * is disabled or the display boost is on. A second event while the cycle
     * runs changes nothing.
     */
    method InputEvent()
      requires Valid()
      modifies this`ibRunning, this`boostWorkQueued
      ensures Valid()
      ensures old(ibRunning) || enabled == 0 || fbBoost != Unboost ==>
        ibRunning == old(ibRunning) && boostWorkQueued == old(boostWorkQueued)
      ensures !(old(ibRunning) || enabled == 0 || fbBoost != Unboost) ==> ibRunning && boostWorkQueued
    {
      if ibRunning || enabled == 0 || fbBoost != Unboost {
        return;
      }
      ibRunning := true;
      boostWorkQueued := true;
    }

    /**
     * `boost_cpu0`: boosts CPU0, counts it, asks for its policy to be
     * re-evaluated, queues its restore and records the cycle's start.
     */
    method BoostCpu0(durationMs: U32, now: int)
      requires Valid() && ibNrCpusBoosted < ibNrCpusToBoost
      modifies info, this`ibNrCpusBoosted, this`boostStartTime, this`updates
      ensures Valid()
      ensures info[0] == old(info[0]).(boostState := Boost, restoreWork := Queue(old(info[0].restoreWork), durationMs))
      ensures forall c :: 1 <= c < info.Length ==> info[c] == old(info[c])
      ensures ibNrCpusBoosted == old(ibNrCpusBoosted) + 1
      ensures updates == old(updates) + [0]
      ensures boostStartTime == now
    {
      info[0] := info[0].(boostState := Boost);
      ibNrCpusBoosted := ibNrCpusBoosted + 1;
      updates := updates + [0];
      info[0] := info[0].(restoreWork := Queue(info[0].restoreWork, durationMs));
      boostStartTime := now;
    }

    /**
     * `ib_boost_main`: the cycle start. Targets two CPUs when exactly one is
     * online and one otherwise, shortens the duration by 3 / (3 + online),
     * and boosts CPU0 for that duration plus the 10 ms grace.
     */
    method RunBoostWork(online: set<int>, now: int)
      requires Valid() && boostWorkQueued && PossibleCpus(online)
      modifies info, this`boostWorkQueued, this`ibNrCpusBoosted, this`ibNrCpusToBoost
      modifies this`ibAdjDurationMs, this`boostStartTime, this`updates
      ensures Valid()
      ensures !boostWorkQueued
      ensures ibNrCpusToBoost == NrCpusToBoost(|online|)
      ensures ibAdjDurationMs == AdjustedDuration(ibDurationMs, |online|) <= ibDurationMs
      ensures ibNrCpusBoosted == 1
      ensures info[0] == old(info[0]).(boostState := Boost,
        restoreWork := Queue(old(info[0].restoreWork), ibAdjDurationMs + CPU0_GRACE_MS))
      ensures forall c :: 1 <= c < info.Length ==> info[c] == old(info[c])
      ensures boostStartTime == now
      ensures updates == old(updates) + [0]
    {
      boostWorkQueued := false;
      ibNrCpusBoosted := 0;
      ibNrCpusToBoost := NrCpusToBoost(|online|);
      ibAdjDurationMs := AdjustedDuration(ibDurationMs, |online|);
      BoostCpu0(ibAdjDurationMs + CPU0_GRACE_MS, now);
    }

    /** `unboost_cpu`: ends one CPU's input boost; its policy is re-evaluated if it is online. */
    method UnboostCpu(cpu: nat, online: set<int>)
      requires ValidExceptRestore() && cpu < info.Length && PossibleCpus(online)
      modifies info, this`updates
      ensures ValidExceptRestore()
      ensures info[cpu] == old(info[cpu]).(boostState := Unboost)
      ensures forall c :: 0 <= c < info.Length && c != cpu ==> info[c] == old(info[c])
      ensures updates == old(updates) + (if cpu in online then [cpu] else [])
    {
      info[cpu] := info[cpu].(boostState := Unboost);
      if cpu in online {
        updates := updates + [cpu];
      }
    }

    /** The scan of `ib_restore_main`: is any CPU still boosted? */
    method AnyCpuBoosted() returns (found: bool)
      ensures found <==> SomeCpuBoosted()
    {
      var c := 0;
      while c < info.Length
        invariant 0 <= c <= info.Length
        invariant forall i :: 0 <= i < c ==> info[i].boostState != Boost
      {
        if info[c].boostState == Boost {
          return true;
        }
        c := c + 1;
      }
      return false;
    }

    /**
     * `ib_restore_main`, the restore work of `cpu` firing: unboosts that CPU
     * only, and ends the cycle only when no CPU is left boosted.
     */
    method FireRestoreWork(cpu: nat, online: set<int>)
      requires Valid() && cpu < info.Length && info[cpu].restoreWork.Queued? && PossibleCpus(online)
      modifies info, this`ibRunning, this`updates
      ensures Valid()
      ensures info[cpu] == old(info[cpu]).(boostState := Unboost, restoreWork := Idle)
      ensures forall c :: 0 <= c < info.Length && c != cpu ==> info[c] == old(info[c])
      ensures updates == old(updates) + (if cpu in online then [cpu] else [])
      ensures SomeCpuBoosted() ==> ibRunning == old(ibRunning)
      ensures !SomeCpuBoosted() ==> !ibRunning
    {
      info[cpu] := info[cpu].(restoreWork := Idle);
      UnboostCpu(cpu, online);
      var boosted := AnyCpuBoosted();
      if boosted {
        return;
      }
      ibRunning := false;
    }

    /**
     * `unboost_all_cpus`: ends every CPU's input boost (their restores stay
     * queued), re-evaluates the online ones and ends the cycle.
     */
    method UnboostAllCpus(online: set<int>)
      requires ValidExceptRestore() && PossibleCpus(online)
      modifies info, this`ibRunning, this`updates
      ensures Valid()
      ensures forall c :: 0 <= c < info.Length ==> info[c] == old(info[c]).(boostState := Unboost)
      ensures !ibRunning
      ensures updates == old(updates) + OnlineBelow(online, info.Length)
    {
      var cpu := 0;
      while cpu < info.Length
        invariant 0 <= cpu <= info.Length
        invariant ValidExceptRestore()
        invariant forall c :: 0 <= c < cpu ==> info[c] == old(info[c]).(boostState := Unboost)
        invariant forall c :: cpu <= c < info.Length ==> info[c] == old(info[c])
        invariant updates == old(updates) + OnlineBelow(online, cpu)
      {
        info[cpu] := info[cpu].(boostState := Unboost);
        if cpu in online {
          updates := updates + [cpu];
        }
        cpu := cpu + 1;
      }
      ibRunning := false;
    }

    /********************************* Framebuffer boost *********************************/

    /**
     * `fb_blank_boost`: a blank other than unblank only records `suspended`;
     * an unblank clears it and starts the display boost unless one is on.
     */
    method FbBlankBoost(event: FbEvent)
      requires Valid()
      modifies this`suspended, this`fbBoost, this`fbBoostWork
      ensures Valid()
      ensures enabled == 0 || event.OtherFbEvent? ==>
        suspended == old(suspended) && fbBoost == old(fbBoost) && fbBoostWork == old(fbBoostWork)
      ensures enabled != 0 && event.Blank? && event.level != FB_BLANK_UNBLANK ==>
        suspended && fbBoost == old(fbBoost) && fbBoostWork == old(fbBoostWork)
      ensures enabled != 0 && event.Blank? && event.level == FB_BLANK_UNBLANK ==>
        && !suspended
        && (old(fbBoost) != Unboost ==> fbBoost == old(fbBoost) && fbBoostWork == old(fbBoostWork))
        && (old(fbBoost) == Unboost ==> fbBoost == Boost && fbBoostWork == Queued(0))
    {
      if enabled == 0 {
        return;
      }
      if !event.Blank? {
        return;
      }
      if event.level != FB_BLANK_UNBLANK {
        suspended := true;
        return;
      } else {
        suspended := false;
      }
      if fbBoost != Unboost {
        return;
      }
      fbBoost := Boost;
      fbBoostWork := Queue(fbBoostWork, 0);
    }

    /**
     * `fb_boost_main`, the display boost work firing: from BOOST it
     * re-evaluates every online CPU and waits 900 ms in WAITING; from WAITING
     * it switches the display boost off and unboosts every CPU.
     */
    method FireFbBoostWork(online: set<int>)
      requires Valid() && fbBoostWork.Queued? && PossibleCpus(online)
      modifies info, this`fbBoost, this`fbBoostWork, this`ibRunning, this`updates
      ensures Valid()
      ensures updates == old(updates) + OnlineBelow(online, info.Length)
      ensures old(fbBoost) == Boost ==>
        && fbBoost == Waiting && fbBoostWork == Queued(FB_BOOST_MS)
        && ibRunning == old(ibRunning)
        && forall c :: 0 <= c < info.Length ==> info[c] == old(info[c])
      ensures old(fbBoost) != Boost ==>
        && fbBoost == Unboost && fbBoostWork == Idle && !ibRunning
        && forall c :: 0 <= c < info.Length ==> info[c] == old(info[c]).(boostState := Unboost)
    {
      fbBoostWork := Idle;
      if fbBoost == Boost {
        var cpu := 0;
        while cpu < info.Length
          invariant 0 <= cpu <= info.Length
          invariant updates == old(updates) + OnlineBelow(online, cpu)
          modifies this`updates
        {
          if cpu in online {
            updates := updates + [cpu];
          }
          cpu := cpu + 1;
        }
        fbBoost := Waiting;
        fbBoostWork := Queue(fbBoostWork, FB_BOOST_MS);
      } else {
        fbBoost := Unboost;
        UnboostAllCpus(online);
      }
    }

    /********************************* Migration boost *********************************/

    /** `boost_migration_notify` publishes the migration into the destination's mailbox. */
    ghost predicate AcceptsMigration(load: int, fromSyncThread: bool)
      reads this
    {
      && enabled != 0 && migrationBoostMs != 0
      && !suspended && fbBoost == Unboost
      && !(loadBasedSyncs && ToU32(load) <= migrationLoadThreshold)
      && !(loadBasedSyncs && (load < 0 || load > 100))
      && !fromSyncThread
    }

    /**
     * `boost_migration_notify`: a migration onto `destCpu` overwrites that
     * CPU's mailbox, storing the load only when load gating is on, when the
     * driver is enabled with a nonzero migration duration, the display is on
     * and not boosting, the load passes the gate and the sync thread is not
     * migrating itself.
     */
    method MigrationNotify(srcCpu: int, destCpu: nat, load: int, fromSyncThread: bool)
      requires Valid() && 0 <= srcCpu < info.Length && destCpu < info.Length
      modifies info
      ensures Valid()
      ensures forall c :: 0 <= c < info.Length && c != destCpu ==> info[c] == old(info[c])
      ensures !AcceptsMigration(load, fromSyncThread) ==> info[destCpu] == old(info[destCpu])
      ensures AcceptsMigration(load, fromSyncThread) ==>
        info[destCpu] == old(info[destCpu]).(pending := true, srcCpu := srcCpu,
                                            taskLoad := if loadBasedSyncs then load else 0)
      ensures AcceptsMigration(load, fromSyncThread) && loadBasedSyncs ==>
        migrationLoadThreshold < load <= 100
    {
      if enabled == 0 || migrationBoostMs == 0 {
        return;
      }
      if suspended || fbBoost != Unboost {
        return;
      }
      if loadBasedSyncs && ToU32(load) <= migrationLoadThreshold {
        return;
      }
      if loadBasedSyncs && (load < 0 || load > 100) {
        return;
      }
      if fromSyncThread {
        return;
      }
      info[destCpu] := info[destCpu].(pending := true, srcCpu := srcCpu,
                                      taskLoad := if loadBasedSyncs then load else 0);
    }

    /**
     * The floor one pass of the sync thread of `destCpu` applies, if any:
     * none when a policy lookup fails or the request does not exceed the
     * destination's hardware minimum.
     */
    ghost function SyncTarget(destCpu: nat, srcPolicy: Option<CpuPolicy>, destPolicy: Option<CpuPolicy>): Option<U32>
      reads this, info
      requires destCpu < info.Length
    {
      if srcPolicy.None? || destPolicy.None? then None
      else
        var req := MigrationRequest(destPolicy.value.max, info[destCpu].taskLoad, srcPolicy.value.cur);
        if req <= destPolicy.value.hwMin then None else Some(req)
    }

    /**
     * One pass of `boost_mig_sync_thread` for `destCpu` after its wait saw the
     * mailbox pending: drains the mailbox, then either leaves the floor alone
     * (failed lookup, request not above the hardware minimum), or sets the
     * floor with its removal queued for `migrationBoostMs` when the
     * destination is online, or drops it when the destination is offline.
     */
    method MigSyncIteration(destCpu: nat, srcPolicy: Option<CpuPolicy>, destPolicy: Option<CpuPolicy>,
                            online: set<int>)
      requires Valid() && destCpu < info.Length && info[destCpu].pending && PossibleCpus(online)
      modifies info, this`updates
      ensures Valid()
      ensures forall c :: 0 <= c < info.Length && c != destCpu ==> info[c] == old(info[c])
      ensures !info[destCpu].pending && info[destCpu].srcCpu == old(info[destCpu].srcCpu)
      ensures old(SyncTarget(destCpu, srcPolicy, destPolicy)).None? ==>
        info[destCpu] == old(info[destCpu]).(pending := false) && updates == old(updates)
      ensures old(SyncTarget(destCpu, srcPolicy, destPolicy)).Some? ==>
        var src := old(info[destCpu].srcCpu);
        && updates == old(updates) + (if src in online then [src] else []) + (if destCpu in online then [destCpu] else [])
        && (destCpu in online ==>
              info[destCpu] == old(info[destCpu]).(pending := false,
                migrationFreq := old(SyncTarget(destCpu, srcPolicy, destPolicy)).value,
                removalWork := Queued(migrationBoostMs)))
        && (destCpu !in online ==>
              info[destCpu] == old(info[destCpu]).(pending := false, migrationFreq := 0, removalWork := Idle))
      ensures info[destCpu].migrationFreq == 0 || info[destCpu].migrationFreq == old(info[destCpu].migrationFreq)
        || (destCpu in online && destPolicy.Some? && info[destCpu].migrationFreq > destPolicy.value.hwMin)
    {
      info[destCpu] := info[destCpu].(pending := false);
      var srcCpu := info[destCpu].srcCpu;
      if srcPolicy.None? {
        return;
      }
      if destPolicy.None? {
        return;
      }
      var reqFreq := MigrationRequest(destPolicy.value.max, info[destCpu].taskLoad, srcPolicy.value.cur);
      if reqFreq <= destPolicy.value.hwMin {
        return;
      }
      info[destCpu] := info[destCpu].(removalWork := Idle);
      info[destCpu] := info[destCpu].(migrationFreq := reqFreq);
      if srcCpu in online {
        updates := updates + [srcCpu];
      }
      if destCpu in online {
        updates := updates + [destCpu];
        info[destCpu] := info[destCpu].(removalWork := Queue(info[destCpu].removalWork, migrationBoostMs));
      } else {
        info[destCpu] := info[destCpu].(migrationFreq := 0);
      }
    }

    /** `do_mig_boost_rem`, the removal work of `cpu` firing: drops its migration floor. */
    method FireRemovalWork(cpu: nat)
      requires Valid() && cpu < info.Length && info[cpu].removalWork.Queued?
      modifies info, this`updates
      ensures Valid()
      ensures info[cpu] == old(info[cpu]).(migrationFreq := 0, removalWork := Idle)
      ensures forall c :: 0 <= c < info.Length && c != cpu ==> info[c] == old(info[c])
      ensures updates == old(updates) + [cpu]
    {
      info[cpu] := info[cpu].(removalWork := Idle);
      info[cpu] := info[cpu].(migrationFreq := 0);
      updates := updates + [cpu];
    }

    /********************************* Stop and clear *********************************/

    /**
     * `stop_remove_all_boosts`: cancels every work, switches the display
     * boost off, drops every migration floor and unboosts every CPU. The
     * mailboxes, the cycle counters and the tunables are left as they were;
     * a second call changes no boost state.
     */
    method StopRemoveAllBoosts(online: set<int>)
      requires Valid() && PossibleCpus(online)
      modifies info, this`boostWorkQueued, this`fbBoostWork, this`fbBoost, this`ibRunning, this`updates
      ensures Valid() && Stopped()
      ensures forall c :: 0 <= c < info.Length ==> info[c] == Cleared(old(info[c]))
      ensures old(Stopped()) ==> forall c :: 0 <= c < info.Length ==> info[c] == old(info[c])
      ensures updates == old(updates) + OnlineBelow(online, info.Length)
    {
      boostWorkQueued := false;
      fbBoostWork := Idle;
      fbBoost := Unboost;
      var cpu := 0;
      while cpu < info.Length
        invariant 0 <= cpu <= info.Length
        invariant ValidExceptRestore()
        invariant forall c :: 0 <= c < cpu ==>
          info[c] == old(info[c]).(migrationFreq := 0, restoreWork := Idle, removalWork := Idle)
        invariant forall c :: cpu <= c < info.Length ==> info[c] == old(info[c])
        modifies info
      {
        info[cpu] := info[cpu].(removalWork := Idle);
        info[cpu] := info[cpu].(restoreWork := Idle);
        info[cpu] := info[cpu].(migrationFreq := 0);
        cpu := cpu + 1;
      }
      UnboostAllCpus(online);
    }

    /********************************* Tunables *********************************/

    /** `enabled_write` after `sscanf`: any value is stored, and 0 stops and clears everything. */
    method WriteEnabled(parsed: Option<U32>, online: set<int>) returns (ok: bool)
      requires Valid() && PossibleCpus(online)
      modifies this`enabled, info, this`boostWorkQueued, this`fbBoostWork, this`fbBoost
      modifies this`ibRunning, this`updates
      ensures Valid()
      ensures ok <==> parsed.Some?
      ensures ok ==> enabled == parsed.value
      ensures !ok ==> enabled == old(enabled)
      ensures ok && enabled == 0 ==>
        Stopped() && forall c :: 0 <= c < info.Length ==> info[c] == Cleared(old(info[c]))
      ensures !(ok && enabled == 0) ==>
        && (forall c :: 0 <= c < info.Length ==> info[c] == old(info[c]))
        && boostWorkQueued == old(boostWorkQueued) && fbBoostWork == old(fbBoostWork)
        && fbBoost == old(fbBoost) && ibRunning == old(ibRunning) && updates == old(updates)
    {
      if parsed.None? {
        return false;
      }
      enabled := parsed.value;
      if enabled == 0 {
        StopRemoveAllBoosts(online);
      }
      return true;
    }

    /** `ib_freqs_write` after `sscanf`: both frequencies must be parsed and nonzero. */
    method WriteIbFreqs(parsed: Option<(U32, U32)>) returns (ok: bool)
      requires Valid()
      modifies this`ibFreq
      ensures Valid()
      ensures ok <==> parsed.Some? && parsed.value.0 != 0 && parsed.value.1 != 0
      ensures ok ==> ibFreq == [parsed.value.0, parsed.value.1]
      ensures !ok ==> ibFreq == old(ibFreq)
    {
      if parsed.None? {
        return false;
      }
      var (freq0, freq1) := parsed.value;
      if freq0 == 0 || freq1 == 0 {
        return false;
      }
      ibFreq := [freq0, freq1];
      return true;
    }

    /** `ib_duration_ms_write` after `sscanf`: the duration must be parsed and nonzero. */
    method WriteIbDurationMs(parsed: Option<U32>) returns (ok: bool)
      requires Valid()
      modifies this`ibDurationMs
      ensures Valid()
      ensures ok <==> parsed.Some? && parsed.value != 0
      ensures ok ==> ibDurationMs == parsed.value
      ensures !ok ==> ibDurationMs == old(ibDurationMs)
    {
      if parsed.None? || parsed.value == 0 {
        return false;
      }
      ibDurationMs := parsed.value;
      return true;
    }

    /** `load_based_syncs_write` after `sscanf`: any value, stored as a C `bool`. */
    method WriteLoadBasedSyncs(parsed: Option<U32>) returns (ok: bool)
      requires Valid()
      modifies this`loadBasedSyncs
      ensures Valid()
      ensures ok <==> parsed.Some?
      ensures ok ==> loadBasedSyncs == (parsed.value != 0)
      ensures !ok ==> loadBasedSyncs == old(loadBasedSyncs)
    {
      if parsed.None? {
        return false;
      }
      loadBasedSyncs := parsed.value != 0;
      return true;
    }

    /** `migration_boost_ms_write` after `sscanf`: any value, 0 included (it turns migration boost off). */
    method WriteMigrationBoostMs(parsed: Option<U32>) returns (ok: bool)
      requires Valid()
      modifies this`migrationBoostMs
      ensures Valid()
      ensures ok <==> parsed.Some?
      ensures ok ==> migrationBoostMs == parsed.value
      ensures !ok ==> migrationBoostMs == old(migrationBoostMs)
    {
      if parsed.None? {
        return false;
      }
      migrationBoostMs := parsed.value;
      return true;
    }

    /** `migration_load_threshold_write` after `sscanf`: any value, 0 included. */
    method WriteMigrationLoadThreshold(parsed: Option<U32>) returns (ok: bool)
      requires Valid()
      modifies this`migrationLoadThreshold
      ensures Valid()
      ensures ok <==> parsed.Some?
      ensures ok ==> migrationLoadThreshold == parsed.value
      ensures !ok ==> migrationLoadThreshold == old(migrationLoadThreshold)
    {
      if parsed.None? {
        return false;
      }
      migrationLoadThreshold := parsed.value;
      return true;
    }
  }
}
