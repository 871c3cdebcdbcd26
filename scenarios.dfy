/**
 * Client scenarios: sequences of entry-point calls whose outcomes follow from
 * the engine's contracts alone. Frequencies are in kHz, times in ms.
 */
module BoostScenarios {
  import opened Wrappers
  import opened BoostArith
  import opened CpuInputBoost

  /** A policy whose minimum sits at the hardware minimum of 300 MHz. */
  function IdlePolicy(max: U32, cur: U32): CpuPolicy
  {
    CpuPolicy(300000, max, cur, 300000)
  }

  /** A fresh engine for `nrCpus` CPUs, enabled, with input frequencies of 1497.6 and 1190.4 MHz for 1000 ms. */
  method EnabledEngine(nrCpus: nat, online: set<int>) returns (e: BoostEngine)
    requires nrCpus >= 1 && forall c :: c in online ==> 0 <= c < nrCpus
    ensures fresh(e) && fresh(e.info) && e.Valid() && e.Stopped()
    ensures e.info.Length == nrCpus && forall c :: 0 <= c < nrCpus ==> e.info[c] == InitialPolicy
    ensures e.enabled == 1 && e.ibFreq == [1497600, 1190400] && e.ibDurationMs == 1000
    ensures !e.suspended && !e.loadBasedSyncs && e.migrationBoostMs == 0
    ensures e.ibNrCpusBoosted == 0 && e.ibNrCpusToBoost == 0
  {
    e := new BoostEngine(nrCpus);
    var ok := e.WriteEnabled(Some(1), online);
    ok := e.WriteIbFreqs(Some((1497600, 1190400)));
    ok := e.WriteIbDurationMs(Some(1000));
  }

  /**
   * One CPU online, an input event: the cycle targets two CPUs for 750 ms and
   * CPU0 is boosted at once; a second event changes nothing.
   */
  method SingleCoreCycleStart()
  {
    var e := EnabledEngine(4, {0});
    e.InputEvent();
    assert e.ibRunning && e.boostWorkQueued;
    e.InputEvent();
    assert e.ibRunning && e.boostWorkQueued;

    e.RunBoostWork({0}, 0);
    assert e.ibNrCpusToBoost == 2 && e.ibNrCpusBoosted == 1;
    assert e.ibAdjDurationMs == 750;
    assert e.info[0].restoreWork == Queued(760);

    var min0 := e.CpuBoost(Adjust, 0, IdlePolicy(2457600, 300000), 5);
    assert min0 == 1497600;
  }

  /**
   * CPU1 comes online within the adjusted duration and is admitted for the
   * remaining time; a third CPU is not.
   */
  method SingleCoreLateAdmission()
  {
    var e := EnabledEngine(4, {0});
    e.InputEvent();
    e.RunBoostWork({0}, 0);

    var min1 := e.CpuBoost(Adjust, 1, IdlePolicy(2457600, 300000), 100);
    assert min1 == 1190400;
    assert e.info[1].boostState == Boost && e.info[1].restoreWork == Queued(650);
    assert e.ibNrCpusBoosted == 2;

    var min2 := e.CpuBoost(Adjust, 2, IdlePolicy(2457600, 300000), 120);
    assert min2 == 300000 && e.info[2].boostState == Unboost;
  }

  /** The two boosted CPUs restore independently; the cycle ends with the later restore. */
  method SingleCoreRestores()
  {
    var e := EnabledEngine(2, {0});
    e.InputEvent();
    e.RunBoostWork({0}, 0);
    var min1 := e.CpuBoost(Adjust, 1, IdlePolicy(2457600, 300000), 100);

    e.FireRestoreWork(1, {0, 1});
    assert e.info[0].boostState == Boost;
    assert e.ibRunning;
    e.FireRestoreWork(0, {0, 1});
    assert !e.ibRunning;
  }

  /** The adjusted duration of a 1000 ms boost for 1, 2, 4 and 8 online CPUs. */
  method AdjustedDurations()
  {
    assert AdjustedDuration(1000, 1) == 750;
    assert AdjustedDuration(1000, 2) == 600;
    assert AdjustedDuration(1000, 4) == 428;
    assert AdjustedDuration(1000, 8) == 272;
    assert NrCpusToBoost(1) == 2 && NrCpusToBoost(4) == 1;
  }

  /**
   * A task at 80% load migrates from CPU0 (running at 1.2 GHz) to CPU2 (2.0 GHz
   * maximum) with load gating off: the stored load is 0, so the floor is the
   * source's 1.2 GHz, with its removal queued for the migration duration.
   */
  method MigrationBoostUngated()
  {
    var online := {0, 1, 2, 3};
    var e := EnabledEngine(4, online);
    var ok := e.WriteMigrationBoostMs(Some(1000));

    e.MigrationNotify(0, 2, 80, false);
    assert e.info[2].pending && e.info[2].srcCpu == 0 && e.info[2].taskLoad == 0;
    e.MigSyncIteration(2, Some(IdlePolicy(2457600, 1200000)), Some(IdlePolicy(2000000, 300000)), online);
    assert e.info[2].migrationFreq == 1200000 && e.info[2].removalWork == Queued(1000);
    var min2 := e.CpuBoost(Adjust, 2, IdlePolicy(2000000, 300000), 10);
    assert min2 == 1200000;
  }

  /**
   * The same migration with load gating on and a threshold of 10: the floor
   * is 80% of 2.0 GHz, until the removal fires.
   */
  method MigrationBoostGated()
  {
    var online := {0, 1, 2, 3};
    var e := EnabledEngine(4, online);
    var ok := e.WriteMigrationBoostMs(Some(1000));
    ok := e.WriteLoadBasedSyncs(Some(1));
    ok := e.WriteMigrationLoadThreshold(Some(10));

    e.MigrationNotify(0, 2, 80, false);
    assert e.info[2].taskLoad == 80;
    e.MigSyncIteration(2, Some(IdlePolicy(2457600, 1200000)), Some(IdlePolicy(2000000, 300000)), online);
    assert e.info[2].migrationFreq == 1600000;
    e.FireRemovalWork(2);
    assert e.info[2].migrationFreq == 0;
  }

  /**
   * A load at the threshold is not published, and a request to an offline
   * CPU never leaves a floor behind.
   */
  method MigrationBoostRejected()
  {
    var e := EnabledEngine(4, {0, 1, 2});
    var ok := e.WriteMigrationBoostMs(Some(1000));
    ok := e.WriteLoadBasedSyncs(Some(1));
    ok := e.WriteMigrationLoadThreshold(Some(10));

    e.MigrationNotify(0, 3, 10, false);
    assert !e.info[3].pending;
    e.MigrationNotify(0, 3, 90, false);
    e.MigSyncIteration(3, Some(IdlePolicy(2457600, 1200000)), Some(IdlePolicy(2000000, 300000)), {0, 1, 2});
    assert e.info[3].migrationFreq == 0 && e.info[3].removalWork == Idle;
  }

  /**
   * The display unblanks, blanks and unblanks again within the first
   * window: the second unblank does not re-queue the boost work. The boost
   * forces every policy to its maximum until the cooldown ends.
   */
  method DisplayBoost()
  {
    var online := {0, 1};
    var e := EnabledEngine(4, online);

    e.FbBlankBoost(Blank(FB_BLANK_UNBLANK));
    assert e.fbBoost == Boost && e.fbBoostWork == Queued(0);
    e.FbBlankBoost(Blank(4));
    assert e.suspended && e.fbBoost == Boost;
    e.FbBlankBoost(Blank(FB_BLANK_UNBLANK));
    assert !e.suspended && e.fbBoost == Boost && e.fbBoostWork == Queued(0);

    e.FireFbBoostWork(online);
    assert e.fbBoost == Waiting && e.fbBoostWork == Queued(FB_BOOST_MS);
    e.FbBlankBoost(Blank(FB_BLANK_UNBLANK));
    assert e.fbBoostWork == Queued(FB_BOOST_MS);

    e.InputEvent();
    assert !e.ibRunning;
    var min1 := e.CpuBoost(Adjust, 1, IdlePolicy(2457600, 300000), 0);
    assert min1 == 2457600;

    e.FireFbBoostWork(online);
    assert e.fbBoost == Unboost && e.fbBoostWork == Idle;
    min1 := e.CpuBoost(Adjust, 1, IdlePolicy(2457600, 300000), 0);
    assert min1 == 300000;
  }

  /** Writing 0 to `enabled` clears every boost, and a second write changes nothing. */
  method StopAndClear()
  {
    var online := {0};
    var e := EnabledEngine(2, online);
    e.InputEvent();
    e.RunBoostWork(online, 0);
    e.FbBlankBoost(Blank(FB_BLANK_UNBLANK));

    var ok := e.WriteEnabled(Some(0), online);
    assert e.Stopped();
    assert e.info[0].boostState == Unboost && e.info[0].restoreWork == Idle;
    assert e.fbBoost == Unboost && !e.ibRunning;
    assert e.ibNrCpusBoosted == 1 && e.ibNrCpusToBoost == 2;
    var before := e.info[..];
    ok := e.WriteEnabled(Some(0), online);
    assert e.info[..] == before;
  }

  /**
   * Stop and clear keeps the cycle counters, so a CPU whose minimum sits
   * above the hardware minimum is still admitted into the interrupted cycle
   * while the driver is disabled.
   */
  method AdmissionAfterDisable()
  {
    var online := {0};
    var e := EnabledEngine(2, online);
    e.InputEvent();
    e.RunBoostWork(online, 0);
    var ok := e.WriteEnabled(Some(0), online);

    var min1 := e.CpuBoost(Adjust, 1, CpuPolicy(500000, 2457600, 500000, 300000), 100);
    assert min1 == 1190400 && e.info[1].boostState == Boost && e.enabled == 0;
  }
}
