/**
 * Tokens and registration over several sessions.  A phone asks for a token on one connection, may be
 * registered on another, and becomes usable only after it has registered; the driver keeps a pointer
 * from each session to its device and one from each device to its session, which can disagree.
 */
module Registration {
  import opened Common

  type Id = nat
  type Name = string

  datatype Reg = Failed | TimedOut | Cleaning | Unregistered | Token | Progress | Ok

  datatype TokenState = NoToken | Acked | Rejected

  /** `heard`: heard from within the keepalive window; `running`: its thread can still be cancelled;
    * `gone`: its thread has cleaned up. */
  datatype Session = Session(device: Option<Name>, stopped: bool, heard: bool, running: bool, gone: bool)

  datatype Device = Device(state: Reg, session: Option<Id>, token: TokenState, time: int)

  datatype Dialect = Sccp | Spcp

  datatype Reply =
    | TokenAck(dialect: Dialect)
    | TokenReject(dialect: Dialect, wait: int)
    | RegisterAck
    | RegisterReject

  /** `sent` and `handled` are histories: the answers, and for each call of a handler that needs a device
    * that device with its state at the time. */
  datatype World = World(
    sessions: map<Id, Session>,
    devices: map<Name, Device>,
    sent: seq<(Id, Reply)>,
    handled: seq<(Name, Reg)>)

  /** What a fallback script says, if it can be run at all. */
  datatype Verdict = SaysNothing | SaysAck | SaysWait(seconds: int) | SaysOther

  datatype Fallback = Unset | False | True | Odd | Even | Script(verdict: Verdict) | Unknown

  /** Configuration, clock, and what is found out on the way; `ended`: another session's thread, when
    * cancelled, cleans up in time. */
  datatype Env = Env(
    now: int, reload: bool, inRange: bool, fallback: Fallback, backoff: int,
    found: bool, anonymous: bool, made: bool, retained: bool, allowed: bool, ended: bool)

  datatype Event =
    | Accept(s: Id)
    | Hear(s: Id, recently: bool)
    | TokenRequest(s: Id, name: Name, env: Env)
    | SpcpTokenRequest(s: Id, name: Name, env: Env)
    | Register(s: Id, name: Name, env: Env)
    | Message(s: Id, finished: bool, fails: bool, env: Env)
    | Unregister(s: Id)
    | Break(s: Id, timeout: bool)
    | Exit(s: Id)
    | CleanDevice(name: Name, env: Env)

  // ---------------------------------------------------------------------------------------------
  // Sessions and devices

  function SetState(w: World, d: Name, state: Reg): World {
    if d in w.devices then w.(devices := w.devices[d := w.devices[d].(state := state)]) else w
  }

  function SetSession(w: World, d: Name, session: Option<Id>): World {
    if d in w.devices then w.(devices := w.devices[d := w.devices[d].(session := session)]) else w
  }

  function Touch(w: World, d: Name, now: int): World {
    if d in w.devices then w.(devices := w.devices[d := w.devices[d].(time := now)]) else w
  }

  function SetToken(w: World, d: Name, token: TokenState): World {
    if d in w.devices then w.(devices := w.devices[d := w.devices[d].(token := token)]) else w
  }

  function DeviceOf(w: World, s: Id): Option<Name> {
    if s in w.sessions then w.sessions[s].device else None
  }

  function SessionOf(w: World, d: Name): Option<Id> {
    if d in w.devices then w.devices[d].session else None
  }

  function Answer(w: World, s: Id, r: Reply): World {
    w.(sent := w.sent + [(s, r)])
  }

  /** The session gives up its device, which is then not registered; the device keeps its pointer. */
  function RemoveDevice(w: World, s: Id): World {
    if DeviceOf(w, s).Some? then
      SetState(w.(sessions := w.sessions[s := w.sessions[s].(device := None)]), w.sessions[s].device.value, Unregistered)
    else
      w
  }

  /** The session takes a device, giving up the one it has. */
  function TakeDevice(w: World, s: Id, d: Name, retained: bool): World {
    if s !in w.sessions || w.sessions[s].device == Some(d) then w
    else
      var w1 := RemoveDevice(w, s);
      if retained then
        SetSession(w1.(sessions := w1.sessions[s := w1.sessions[s].(device := Some(d))]), d, Some(s))
      else
        w1
  }

  /** A session's own thread stops it and marks whatever device it has. */
  function Stop(w: World, s: Id, state: Reg): World {
    if s in w.sessions then
      var w1 := w.(sessions := w.sessions[s := w.sessions[s].(stopped := true)]);
      if w.sessions[s].device.Some? then SetState(w1, w.sessions[s].device.value, state) else w1
    else
      w
  }

  /** The clean-up at the end of a session's thread. */
  function Leave(w: World, s: Id): World {
    if s in w.sessions && !w.sessions[s].gone then
      var d := w.sessions[s].device;
      var w1 := RemoveDevice(if d.Some? then SetSession(w, d.value, None) else w, s);
      w1.(sessions := w1.sessions[s := w1.sessions[s].(stopped := true, running := false, gone := true)])
    else
      w
  }

  /** Cancelling another session's thread and waiting, not for ever, for its clean-up. */
  function EndThread(w: World, s: Id, ended: bool): World {
    if s in w.sessions && w.sessions[s].running then
      if ended then Leave(w, s) else w.(sessions := w.sessions[s := w.sessions[s].(running := false)])
    else
      w
  }

  predicate CrossDevice(w: World, s: Id, d: Name) {
    || (DeviceOf(w, s).Some? && DeviceOf(w, s) != Some(d))
    || (SessionOf(w, d).Some? && SessionOf(w, d) != Some(s))
  }

  function CleanUp(w: World, s: Id, previous: Option<Id>, ended: bool): World {
    if previous.Some? && previous.value != s then EndThread(w, previous.value, ended) else w
  }

  predicate IsAlive(w: World, s: Id) {
    s in w.sessions && !w.sessions[s].stopped && !w.sessions[s].gone && w.sessions[s].heard
  }

  // ---------------------------------------------------------------------------------------------
  // Tokens

  function Backoff(env: Env): int {
    if env.backoff >= 30 then env.backoff else 60
  }

  predicate EndsOdd(name: Name) {
    name != "" && name[|name| - 1] as int % 2 != 0
  }

  /** Whether this server takes the phone. */
  predicate Takes(fallback: Fallback, name: Name) {
    match fallback
    case False => false
    case Odd => EndsOdd(name)
    case Even => !EndsOdd(name)
    case Script(verdict) => !(verdict.SaysWait? && verdict.seconds > 30)
    case _ => true
  }

  /** How long a phone that is not taken is to wait: a script can say so itself. */
  function Patience(env: Env): int {
    if env.fallback.Script? && env.fallback.verdict.SaysWait? && env.fallback.verdict.seconds > 30 then
      env.fallback.verdict.seconds
    else
      Backoff(env)
  }

  predicate Registered(w: World, d: Name) {
    d in w.devices && w.devices[d].state == Ok
  }

  /** The device is registered on another session that is still talking. */
  predicate Busy(w: World, s: Id, d: Name) {
    && Registered(w, d)
    && SessionOf(w, d).Some?
    && SessionOf(w, d).value != s
    && IsAlive(w, SessionOf(w, d).value)
  }

  predicate Hasty(w: World, d: Name, env: Env) {
    d in w.devices && w.devices[d].state == Token && env.now - w.devices[d].time < Backoff(env)
  }

  predicate Stale(w: World, s: Id, d: Name) {
    d in w.devices && (CrossDevice(w, s, d) || (w.devices[d].state != Failed && w.devices[d].state != Unregistered))
  }

  /** What both kinds of token request do about a known device with a past; None means: go on. */
  function Defend(w: World, s: Id, d: Name, env: Env, dialect: Dialect): Option<World> {
    if Hasty(w, d, env) then
      Some(Answer(Touch(w, d, env.now), s, TokenReject(Sccp, Backoff(env))))
    else if Busy(w, s, d) then
      Some(Stop(Answer(Touch(w, d, env.now), s, TokenReject(dialect, Backoff(env))), s, Failed))
    else if Stale(w, s, d) then
      var w1 := CleanUp(Touch(w, d, env.now), s, SessionOf(w, d), env.ended);
      Some(SetSession(Stop(Answer(w1, s, TokenReject(dialect, 10)), s, Failed), d, None))
    else
      None
  }

  /** A device that is not in memory yet may be found in the configuration or made up. */
  function FindOrMake(w: World, d: Name, env: Env): World {
    var w1 := Look(w, d, env.found);
    if d !in w1.devices && env.anonymous then Enter(w1, d) else w1
  }

  /** A search that includes the configuration. */
  function Look(w: World, d: Name, found: bool): World {
    if d !in w.devices && found then Enter(w, d) else w
  }

  function Enter(w: World, d: Name): World {
    w.(devices := w.devices[d := Device(Unregistered, None, NoToken, 0)])
  }

  /** The second half of a token request: the session takes the device and the answer is decided. */
  function Grant(w: World, s: Id, d: Name, env: Env, dialect: Dialect): World {
    var w1 := TakeDevice(w, s, d, env.retained);
    if DeviceOf(w1, s) != Some(d) then
      Touch(Answer(w1, s, TokenReject(dialect, Backoff(env))), d, env.now)
    else
      var w2 := SetToken(w1, d, Rejected);
      if !env.allowed then
        Touch(Answer(SetState(w2, d, Failed), s, TokenReject(dialect, Backoff(env))), d, env.now)
      else
        var ack := dialect == Spcp || Takes(env.fallback, d);
        var w3 := SetState(w2, d, Token);
        var w4 := Answer(w3, s, if ack then TokenAck(dialect) else TokenReject(dialect, Patience(env)));
        Touch(SetToken(w4, d, if ack then Acked else Rejected), d, env.now)
  }

  function RequestToken(w: World, s: Id, d: Name, env: Env): World {
    if env.reload then Answer(w, s, TokenReject(Sccp, 10))
    else if env.fallback == False then Answer(w, s, TokenReject(Sccp, Backoff(env)))
    else match Defend(w, s, d, env, Sccp)
      case Some(w1) => w1
      case None =>
        var w1 := FindOrMake(w, d, env);
        if d !in w1.devices then Answer(w1, s, TokenReject(Sccp, Backoff(env))) else Grant(w1, s, d, env, Sccp)
  }

  function RequestSpcpToken(w: World, s: Id, d: Name, env: Env): World {
    if env.reload then Answer(w, s, TokenReject(Sccp, 10))
    else if !env.inRange then Answer(w, s, RegisterReject)
    else match Defend(w, s, d, env, Spcp)
      case Some(w1) => w1
      case None =>
        var w1 := FindOrMake(w, d, env);
        if d !in w1.devices then Answer(w1, s, TokenReject(Spcp, 60)) else Grant(w1, s, d, env, Spcp)
  }

  // ---------------------------------------------------------------------------------------------
  // Registering

  /** A register that fails stops the session and forgets the device's session. */
  function GiveUp(w: World, s: Id, d: Name): World {
    SetSession(Stop(Answer(w, s, RegisterReject), s, Failed), d, None)
  }

  predicate Outdated(w: World, s: Id, d: Name, env: Env) {
    d in w.devices &&
    var state := w.devices[d].state;
    CrossDevice(w, s, d) || state == Progress || state == Ok || (state == Token && env.now - w.devices[d].time > 60)
  }

  function RegisterPhone(w: World, s: Id, d: Name, env: Env): World {
    if env.reload || d == "" then Answer(w, s, RegisterReject)
    else
      var found := Look(w, d, env.found);
      if Outdated(found, s, d, env) then
        GiveUp(SetState(CleanUp(found, s, SessionOf(found, d), env.ended), d, Failed), s, d)
      else
        Admit(found, s, d, env)
  }

  /** The second half: a device that is still unknown may be made up, and the session takes it. */
  function Admit(w: World, s: Id, d: Name, env: Env): World {
    if d !in w.devices && env.anonymous && !env.made then
      GiveUp(w, s, d)
    else
      var w1 := if d !in w.devices && env.anonymous then Enter(w, d) else w;
      if d !in w1.devices then Answer(w1, s, RegisterReject)
      else
        var w2 := TakeDevice(w1, s, d, env.retained);
        if DeviceOf(w2, s) != Some(d) then GiveUp(w2, s, d)
        else if !env.allowed then GiveUp(SetState(w2, d, Failed), s, d)
        else Touch(SetState(Answer(SetToken(w2, d, NoToken), s, RegisterAck), d, Progress), d, env.now)
  }

  // ---------------------------------------------------------------------------------------------
  // Other messages

  predicate Usable(state: Reg) {
    state == Progress || state == Ok
  }

  /** The device a handler that needs one is given, if any. */
  function Handed(w: World, s: Id): Option<Name> {
    var d := DeviceOf(w, s);
    if s in w.sessions && !w.sessions[s].stopped && !w.sessions[s].gone && d.Some? && d.value in w.devices
       && !CrossDevice(w, s, d.value) && Usable(w.devices[d.value].state)
    then d else None
  }

  /** A message whose handler needs a device; the one that ends the registration makes it usable. */
  function HandleMessage(w: World, s: Id, finished: bool, fails: bool, env: Env): World {
    var d := DeviceOf(w, s);
    match Handed(w, s)
    case Some(name) =>
      var w1 := w.(handled := w.handled + [(name, w.devices[name].state)]);
      var w2 := if fails then Stop(w1, s, Failed) else w1;
      if finished && w2.devices[name].state == Progress then Touch(SetState(w2, name, Ok), name, env.now) else w2
    case None =>
      if s in w.sessions && !w.sessions[s].stopped && !w.sessions[s].gone && d.Some? && CrossDevice(w, s, d.value) then
        CleanUp(w, s, SessionOf(w, d.value), env.ended)
      else
        w
  }

  function CleanPhone(w: World, d: Name, env: Env): World {
    if d !in w.devices then w
    else
      var w1 := SetState(w, d, Cleaning);
      var p := SessionOf(w, d);
      var w2 := if p.Some? then EndThread(SetSession(RemoveDevice(w1, p.value), d, None), p.value, env.ended) else w1;
      SetState(w2, d, Unregistered)
  }

  function Step(w: World, e: Event): World {
    match e
    case Accept(s) =>
      if s in w.sessions then w else w.(sessions := w.sessions[s := Session(None, false, true, true, false)])
    case Hear(s, recently) =>
      if s in w.sessions then w.(sessions := w.sessions[s := w.sessions[s].(heard := recently)]) else w
    case TokenRequest(s, d, env) => RequestToken(w, s, d, env)
    case SpcpTokenRequest(s, d, env) => RequestSpcpToken(w, s, d, env)
    case Register(s, d, env) => RegisterPhone(w, s, d, env)
    case Message(s, finished, fails, env) => HandleMessage(w, s, finished, fails, env)
    case Unregister(s) => Stop(w, s, Unregistered)
    case Break(s, timeout) => Stop(w, s, if timeout then TimedOut else Failed)
    case Exit(s) => Leave(w, s)
    case CleanDevice(d, env) => CleanPhone(w, d, env)
  }

  function Run(w: World, events: seq<Event>): World
    decreases |events|
  {
    if events == [] then w else Run(Step(w, events[0]), events[1..])
  }
}
