/** From a sensor delta to the control loop's next pass (crates/plugins/autopilot/src/lib.rs,
    state.rs). */
module AutopilotSensing {
  import opened Basics
  import opened Deltas
  import opened AutopilotProvider
  import opened AutopilotInputs
  import opened AutopilotLoop
  import opened AutopilotRuns

  lemma LastIsSensed(s: Shared, d: Delta, i: int, j: int, path: string, seen: int)
    requires ShowsLast(d, i, j, path)
    ensures Known(SenseDelta(s, d, |d.updates|, seen), path) == (Some(d.updates[i].values[j].value.n), Some(seen))
  {
    DeltaIsSensed(s, d, seen, path);
    var known := Known(SenseDelta(s, d, |d.updates|, seen), path);
    if k, l :| ShowsLast(d, k, l, path) && known == (Some(d.updates[k].values[l].value.n), Some(seen)) {
      assert k == i && l == j;
    }
  }

  /** Where a pass finds the reading `x` of a path. */
  predicate Finds(cfg: Config, s: Shared, snap: Snapshot, path: string, x: real, age: int) {
    && (path == "navigation.rateOfTurn" ==> snap.yawRate == Some(x))
    && (path == "navigation.crossTrackError" ==> snap.xte == Some(x))
    && (path == "navigation.attitude.roll" ==> snap.heel == Some(x))
    && (path == "environment.wind.speedApparent" ==> snap.windSpeed == Some(x))
    && (path == "navigation.speedThroughWater" ==> snap.speed == Some(x))
    && (path == "navigation.speedOverGround" && "navigation.speedThroughWater" !in s.sensors ==> snap.speed == Some(x))
    && (path == "navigation.headingMagnetic" ==> snap.heading == Some(x) && snap.headingAge == Some(age as real / 1_000_000_000.0))
    && (path == "navigation.headingTrue" && "navigation.headingMagnetic" !in s.sensors ==> snap.heading == Some(x))
    && (path == "steering.rudderAngle" ==> snap.actualRudder == Some(x))
  }

  lemma SnapshotFinds(cfg: Config, s: Shared, path: string, x: real, seen: int, now: int)
    requires seen <= now && Known(s, path) == (Some(x), Some(seen))
    ensures Finds(cfg, s, TakeSnapshot(cfg, s, now), path, x, now - seen)
  {}

  /** The mode's own sensor, whose age decides whether it has timed out. */
  lemma PrimaryFound(cfg: Config, s: Shared, x: real, seen: int, now: int)
    requires seen <= now && Known(s, SensorPath(s.mode)) == (Some(x), Some(seen))
    ensures var snap := TakeSnapshot(cfg, s, now);
            snap.primary == Some(x) && (snap.timedOut <==> now - seen >= (cfg.sensorTimeoutSecs + 1) * 1_000_000_000)
  {}

  /** Main result: the last number a delta shows at a path is what the pass that wakes next
      finds in its place, with its age; a mode's own sensor has then timed out exactly if it
      is a whole second more than the limit old. The true heading and the speed over ground
      are found only where the magnetic heading and the speed through water are missing. */
  lemma SensedReachesLoop(cfg: Config, l: Local, s: Shared, d: Delta, i: int, j: int, path: string, seen: int, now: int)
    requires ShowsLast(d, i, j, path) && seen <= now
    ensures var after, x := SenseDelta(s, d, |d.updates|, seen), d.updates[i].values[j].value.n;
            var snap := Wake(cfg, l, after, now).1.snap;
            && Finds(cfg, after, snap, path, x, now - seen)
            && (path == SensorPath(s.mode) ==>
                  snap.primary == Some(x) && (snap.timedOut <==> now - seen >= (cfg.sensorTimeoutSecs + 1) * 1_000_000_000))
  {
    var after, x := SenseDelta(s, d, |d.updates|, seen), d.updates[i].values[j].value.n;
    LastIsSensed(s, d, i, j, path, seen);
    DeltaKeepsControls(s, d, |d.updates|, seen);
    SnapshotFinds(cfg, after, path, x, seen, now);
    if path == SensorPath(s.mode) {
      PrimaryFound(cfg, after, x, seen, now);
    }
  }
}
