/** The autopilot's shared state and the provider calls that change it
    (crates/plugins/autopilot/src/state.rs and provider.rs). Instants are nanoseconds
    of a monotone clock. The build includes the `experimental` mode. */
module AutopilotProvider {
  import opened Basics
  import opened Deltas
  import opened JsonModel
  import opened AutopilotControl

  const SECOND := 1_000_000_000

  datatype Mode = Compass | Wind | WindTrue | Route

  function ParseMode(s: string): Option<Mode> {
    match s
    case "compass" => Some(Compass)
    case "wind" => Some(Wind)
    case "wind_true" => Some(WindTrue)
    case "route" => Some(Route)
    case _ => None
  }

  function ModeName(m: Mode): string {
    match m
    case Compass => "compass"
    case Wind => "wind"
    case WindTrue => "wind_true"
    case Route => "route"
  }

  lemma ParseIffName(s: string, m: Mode)
    ensures ParseMode(s) == Some(m) <==> s == ModeName(m)
  {}

  const HEADING_MAGNETIC := "navigation.headingMagnetic"
  const HEADING_TRUE := "navigation.headingTrue"
  const RUDDER_ANGLE := "steering.rudderAngle"

  function SensorPath(m: Mode): string {
    match m
    case Compass => HEADING_MAGNETIC
    case Wind => "environment.wind.angleApparent"
    case WindTrue => "environment.wind.angleTrue"
    case Route => "navigation.course.calcValues.bearingTrackTrue"
  }

  predicate IsWindMode(m: Mode) {
    m == Wind || m == WindTrue
  }

  /** A value of the mutable state behind the lock. */
  datatype Shared = Shared(
    enabled: bool,
    mode: Mode,
    target: Option<real>,
    dodge: Option<real>,
    lastRudder: real,
    lastError: real,
    lastTick: Option<int>,
    sensors: map<string, real>,
    seen: map<string, int>,
    actualRudder: Option<real>,
    actualRudderSeen: Option<int>)

  function NewShared(mode: Mode): Shared {
    Shared(false, mode, None, None, 0.0, 0.0, None, map[], map[], None, None)
  }

  /** Whole seconds elapsed; instants in the future count as now. */
  function ElapsedSecs(since: int, now: int): nat {
    if now < since then 0 else (now - since) / SECOND
  }

  function TimedOut(s: Shared, timeoutSecs: nat, now: int): bool {
    match Get(s.seen, SensorPath(s.mode))
    case Some(last) => ElapsedSecs(last, now) > timeoutSecs
    case None => true
  }

  /** One numeric value of a delta: rudder feedback counts only from other sources. */
  function Sense(s: Shared, src: Source, pv: PathValue, now: int): Shared {
    match AsNum(pv.value)
    case None => s
    case Some(v) =>
      if pv.path == RUDDER_ANGLE then
        if OwnSource(src) then s else s.(actualRudder := Some(v), actualRudderSeen := Some(now))
      else s.(sensors := s.sensors[pv.path := v], seen := s.seen[pv.path := now])
  }

  predicate OwnSource(src: Source) {
    src.kind == "Plugin" && src.sourceLabel == "autopilot"
  }

  function SenseUpdate(s: Shared, u: Update, n: nat, now: int): Shared
    requires n <= |u.values|
  {
    if n == 0 then s else Sense(SenseUpdate(s, u, n - 1, now), u.source, u.values[n - 1], now)
  }

  function SenseDelta(s: Shared, d: Delta, n: nat, now: int): Shared
    requires n <= |d.updates|
  {
    if n == 0 then s
    else SenseUpdate(SenseDelta(s, d, n - 1, now), d.updates[n - 1], |d.updates[n - 1].values|, now)
  }

  class AutopilotState {
    var enabled: bool
    var mode: Mode
    var target: Option<real>
    var dodge: Option<real>
    var lastRudder: real
    var lastError: real
    var lastTick: Option<int>
    var sensors: map<string, real>
    var seen: map<string, int>
    var actualRudder: Option<real>
    var actualRudderSeen: Option<int>

    function State(): Shared
      reads this
    {
      Shared(enabled, mode, target, dodge, lastRudder, lastError, lastTick, sensors, seen, actualRudder, actualRudderSeen)
    }

    constructor (mode: Mode)
      ensures State() == NewShared(mode)
    {
      enabled, this.mode, target, dodge := false, mode, None, None;
      lastRudder, lastError, lastTick := 0.0, 0.0, None;
      sensors, seen := map[], map[];
      actualRudder, actualRudderSeen := None, None;
    }

    method UpdateSensor(path: string, value: real, now: int)
      modifies this
      ensures State() == old(State()).(sensors := old(sensors)[path := value], seen := old(seen)[path := now])
    {
      sensors := sensors[path := value];
      seen := seen[path := now];
    }

    method CurrentSensor() returns (r: Option<real>)
      ensures r == Get(sensors, SensorPath(mode))
    {
      r := Get(sensors, SensorPath(mode));
    }

    method SensorTimedOut(timeoutSecs: nat, now: int) returns (r: bool)
      ensures r == TimedOut(State(), timeoutSecs, now)
    {
      match Get(seen, SensorPath(mode)) {
        case Some(last) => r := ElapsedSecs(last, now) > timeoutSecs;
        case None => r := true;
      }
    }

    /** The subscription callback, which holds the write lock for the whole delta. */
    method OnDelta(d: Delta, now: int)
      modifies this
      ensures State() == SenseDelta(old(State()), d, |d.updates|, now)
    {
      for i := 0 to |d.updates|
        invariant State() == SenseDelta(old(State()), d, i, now)
      {
        OnUpdate(d.updates[i], now);
      }
    }

    method OnUpdate(u: Update, now: int)
      modifies this
      ensures State() == SenseUpdate(old(State()), u, |u.values|, now)
    {
      for j := 0 to |u.values|
        invariant State() == SenseUpdate(old(State()), u, j, now)
      {
        var v := AsNum(u.values[j].value);
        if v.Some? {
          if u.values[j].path == RUDDER_ANGLE {
            if !OwnSource(u.source) {
              actualRudder, actualRudderSeen := v, Some(now);
            }
          } else {
            UpdateSensor(u.values[j].path, v.value, now);
          }
        }
      }
    }
  }

  // ----- provider calls -----

  datatype Tack = Port | Starboard

  datatype PluginError = Runtime(message: string) | NotFound(message: string) | BadRequest(message: string)

  type Reply = Result<(), PluginError>

  /** A call of the provider. `CourseCurrentPoint` carries what the store answers
      for the bearing to the next waypoint. */
  datatype Call =
    | Engage
    | Disengage
    | SetState(state: string)
    | SetMode(mode: string)
    | SetTarget(value: real)
    | AdjustTarget(delta: real)
    | TackTo(side: Tack)
    | GybeTo(side: Tack)
    | Dodge(offset: Option<real>)
    | CourseCurrentPoint(stored: Result<Option<Json>, PluginError>)
    | CourseNextPoint

  function OrZero(x: Option<real>): real {
    if x.Some? then x.value else 0.0
  }

  function Side(current: real, side: Tack): real {
    var magnitude := Max(Abs(current), 0.1);
    if side == Port then -magnitude else magnitude
  }

  function SwitchSide(s: Shared, side: Tack, what: string): (Shared, Reply) {
    var current := OrZero(s.target);
    if !IsWindMode(s.mode) then (s, Err(BadRequest(what + " requires wind mode")))
    else if Abs(Side(current, side) - current) < 0.01 then (s, Err(Runtime("already on that " + what)))
    else (s.(target := Some(Side(current, side)), lastError := 0.0), Ok(()))
  }

  function EnterMode(s: Shared, mode: Mode): Shared {
    s.(mode := mode, lastError := 0.0, lastTick := None)
  }

  function Serve(s: Shared, c: Call): (Shared, Reply) {
    match c
    case Engage => (s.(enabled := true), Ok(()))
    case Disengage => (s.(enabled := false, lastTick := None), Ok(()))
    case SetState(state) =>
      if state == "enabled" then (s.(enabled := true), Ok(()))
      else if state == "disabled" then (s.(enabled := false, lastTick := None), Ok(()))
      else (s, Err(Runtime("unknown autopilot state: " + state)))
    case SetMode(mode) =>
      (match ParseMode(mode)
       case None => (s, Err(NotFound("unknown autopilot mode: " + mode)))
       case Some(m) => (EnterMode(s, m), Ok(())))
    case SetTarget(value) => (s.(target := Some(value)), Ok(()))
    case AdjustTarget(delta) => (s.(target := Some(NormalizeAngle(OrZero(s.target) + delta))), Ok(()))
    case TackTo(side) => SwitchSide(s, side, "tack")
    case GybeTo(side) => SwitchSide(s, side, "gybe")
    case Dodge(offset) => (s.(dodge := offset), Ok(()))
    case CourseCurrentPoint(stored) =>
      if stored.Err? then (s, Err(stored.error))
      else if stored.value.None? || AsNum(stored.value.value).None? then
        (s, Err(BadRequest("no active course — set a destination first")))
      else (EnterMode(s, Route).(target := AsNum(stored.value.value), enabled := true), Ok(()))
    case CourseNextPoint =>
      ((if s.mode != Route then EnterMode(s, Route) else s).(enabled := true), Ok(()))
  }

  class ProviderHandle {
    const state: AutopilotState

    constructor (state: AutopilotState)
      ensures this.state == state
    {
      this.state := state;
    }

    method Engage()
      modifies state
      ensures state.State() == Serve(old(state.State()), Call.Engage).0
    {
      state.enabled := true;
    }

    method Disengage()
      modifies state
      ensures state.State() == Serve(old(state.State()), Call.Disengage).0
    {
      state.enabled := false;
      state.lastTick := None;
    }

    method SetState(name: string) returns (r: Reply)
      modifies state
      ensures (state.State(), r) == Serve(old(state.State()), Call.SetState(name))
    {
      if name == "enabled" {
        state.enabled := true;
      } else if name == "disabled" {
        state.enabled := false;
        state.lastTick := None;
      } else {
        return Err(Runtime("unknown autopilot state: " + name));
      }
      r := Ok(());
    }

    method SetMode(name: string) returns (r: Reply)
      modifies state
      ensures (state.State(), r) == Serve(old(state.State()), Call.SetMode(name))
    {
      var m := ParseMode(name);
      if m.None? {
        return Err(NotFound("unknown autopilot mode: " + name));
      }
      state.mode := m.value;
      state.lastError := 0.0;
      state.lastTick := None;
      r := Ok(());
    }

    method SetTarget(value: real)
      modifies state
      ensures state.State() == Serve(old(state.State()), Call.SetTarget(value)).0
    {
      state.target := Some(value);
    }

    method AdjustTarget(delta: real)
      modifies state
      ensures state.State() == Serve(old(state.State()), Call.AdjustTarget(delta)).0
    {
      var wrapped := NormalizeByLoop(OrZero(state.target) + delta);
      state.target := Some(wrapped);
    }

    method Tack(side: Tack) returns (r: Reply)
      modifies state
      ensures (state.State(), r) == Serve(old(state.State()), TackTo(side))
    {
      if !IsWindMode(state.mode) {
        return Err(BadRequest("tack" + " requires wind mode"));
      }
      r := Turn(side, "tack");
    }

    method Gybe(side: Tack) returns (r: Reply)
      modifies state
      ensures (state.State(), r) == Serve(old(state.State()), GybeTo(side))
    {
      if !IsWindMode(state.mode) {
        return Err(BadRequest("gybe" + " requires wind mode"));
      }
      r := Turn(side, "gybe");
    }

    /** The common part of tack and gybe. */
    method Turn(side: Tack, what: string) returns (r: Reply)
      requires IsWindMode(state.mode)
      modifies state
      ensures (state.State(), r) == SwitchSide(old(state.State()), side, what)
    {
      var current := OrZero(state.target);
      var magnitude := Max(Abs(current), 0.1);
      var newTarget := if side == Port then -magnitude else magnitude;
      if Abs(newTarget - current) < 0.01 {
        return Err(Runtime("already on that " + what));
      }
      state.target := Some(newTarget);
      state.lastError := 0.0;
      r := Ok(());
    }

    method Dodge(offset: Option<real>)
      modifies state
      ensures state.State() == Serve(old(state.State()), Call.Dodge(offset)).0
    {
      state.dodge := offset;
    }

    method CourseCurrentPoint(stored: Result<Option<Json>, PluginError>) returns (r: Reply)
      modifies state
      ensures (state.State(), r) == Serve(old(state.State()), Call.CourseCurrentPoint(stored))
    {
      if stored.Err? {
        return Err(stored.error);
      }
      var bearing := if stored.value.None? then None else AsNum(stored.value.value);
      if bearing.None? {
        return Err(BadRequest("no active course — set a destination first"));
      }
      state.mode := Route;
      state.target := bearing;
      state.enabled := true;
      state.lastError := 0.0;
      state.lastTick := None;
      r := Ok(());
    }

    method CourseNextPoint()
      modifies state
      ensures state.State() == Serve(old(state.State()), Call.CourseNextPoint).0
    {
      if state.mode != Route {
        state.mode := Route;
        state.lastError := 0.0;
        state.lastTick := None;
      }
      state.enabled := true;
    }
  }

  // ----- what the calls mean -----

  /** The calls that can switch the autopilot on, and those that switch it off. */
  predicate Enables(c: Call) {
    || c == Call.Engage || c == Call.SetState("enabled") || c == Call.CourseNextPoint
    || (c.CourseCurrentPoint? && c.stored.Ok? && c.stored.value.Some? && AsNum(c.stored.value.value).Some?)
  }

  predicate Disables(c: Call) {
    c == Call.Disengage || c == Call.SetState("disabled")
  }

  /** No other call touches the switch, no call touches rudder or sensors, a failing
      call changes nothing, and only calls that restart timing forget the last tick. */
  lemma CallEffects(s: Shared, c: Call)
    ensures var (n, r) := Serve(s, c);
            && n.enabled == (if Enables(c) then true else if Disables(c) then false else s.enabled)
            && n.lastRudder == s.lastRudder && n.sensors == s.sensors && n.seen == s.seen
            && n.actualRudder == s.actualRudder
            && (r.Err? ==> n == s)
            && (n.lastTick == s.lastTick || n.lastTick == None)
            && (Disables(c) ==> n.lastTick == None)
            && (n.mode != s.mode ==> n.lastTick == None && n.lastError == 0.0)
  {}

  /** A tack that is accepted goes to the wanted side and keeps the angle off the
      wind, at least 0.1; it is refused exactly when already within 0.01 of it. */
  lemma TackSemantics(s: Shared, side: Tack)
    requires IsWindMode(s.mode)
    ensures var (n, r) := Serve(s, TackTo(side));
            var current := OrZero(s.target);
            var offWind := if side == Port then -current else current;
            && (r.Err? <==> offWind > 0.09)
            && (r.Ok? ==> n.target.Some?
                          && (side == Port <==> n.target.value < 0.0)
                          && Abs(n.target.value) == Max(Abs(current), 0.1))
  {}

  /** Tacking over and back restores any target that was at least 0.1 off the wind. */
  lemma TackBackRestores(s: Shared, side: Tack)
    requires IsWindMode(s.mode) && Serve(s, TackTo(side)).1.Ok?
    ensures var over := Serve(s, TackTo(side)).0;
            var (back, r) := Serve(over, TackTo(if side == Port then Starboard else Port));
            r.Ok? && (back.target == Some(OrZero(s.target)) <==> Abs(OrZero(s.target)) >= 0.1)
  {}
}
