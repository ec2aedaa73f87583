/**
 * The exact answer to every token request and every register, and what each event leaves behind, said in
 * the fields of sessions and devices and nothing else.
 */
module RegistrationAnswers {
  import opened Common
  import opened Registration
  import opened RegistrationRuns

  // ---------------------------------------------------------------------------------------------
  // What the answers turn on

  /** The session has another device, or the device another session. */
  predicate Tied(w: World, s: Id, d: Name) {
    || (s in w.sessions && w.sessions[s].device.Some? && w.sessions[s].device.value != d)
    || (d in w.devices && w.devices[d].session.Some? && w.devices[d].session.value != s)
  }

  /** The session has the device already, or takes it. */
  predicate Taken(w: World, s: Id, d: Name, env: Env) {
    s in w.sessions && (w.sessions[s].device == Some(d) || env.retained)
  }

  /** The device may register on the session as far as its past goes: nobody else is tied to either, it is neither
    * registering nor registered, and a token it was granted is no older than a minute. */
  predicate MayRegister(w: World, s: Id, d: Name, env: Env) {
    if d in w.devices then
      && !Tied(w, s, d)
      && w.devices[d].state != Progress && w.devices[d].state != Ok
      && (w.devices[d].state == Token ==> env.now - w.devices[d].time <= 60)
    else if env.found then !Tied(w, s, d)
    else env.anonymous && env.made
  }

  /** The register of a phone is acknowledged. */
  predicate Welcome(w: World, s: Id, d: Name, env: Env) {
    !env.reload && d != "" && MayRegister(w, s, d, env) && Taken(w, s, d, env) && env.allowed
  }

  // ---------------------------------------------------------------------------------------------
  // Registering

  /** A register is acknowledged if and only if there is no reload, the phone has a name, its past allows it, the
    * session takes it, and its address is allowed; it is rejected otherwise, and answered once. */
  lemma RegisterAnswer(w: World, s: Id, d: Name, env: Env)
    ensures Step(w, Register(s, d, env)).sent
         == w.sent + [(s, if Welcome(w, s, d, env) then RegisterAck else RegisterReject)]
  {
    var found := Look(w, d, env.found);
    hide CleanUp, GiveUp, Admit;
    if Outdated(found, s, d, env) {
      var c := SetState(CleanUp(found, s, SessionOf(found, d), env.ended), d, Failed);
      CleanUpAnswersNothing(found, s, SessionOf(found, d), env.ended);
      GivenUpIsRejected(c, s, d);
    } else {
      AdmissionAnswer(found, s, d, env);
    }
  }

  lemma GivenUpIsRejected(w: World, s: Id, d: Name)
    ensures GiveUp(w, s, d).sent == w.sent + [(s, RegisterReject)]
  {
  }

  lemma AdmissionAnswer(w: World, s: Id, d: Name, env: Env)
    ensures
      var known := d in w.devices || (env.anonymous && env.made);
      Admit(w, s, d, env).sent
        == w.sent + [(s, if known && Taken(w, s, d, env) && env.allowed then RegisterAck else RegisterReject)]
  {
    hide GiveUp, TakeDevice;
    var w1 := if d !in w.devices && env.anonymous then Enter(w, d) else w;
    var w2 := TakeDevice(w1, s, d, env.retained);
    Takes1(w1, s, d, env.retained);
    TakeAnswersNothing(w1, s, d, env.retained);
    GivenUpIsRejected(w, s, d);
    GivenUpIsRejected(w2, s, d);
    GivenUpIsRejected(SetState(w2, d, Failed), s, d);
  }

  /** What taking a device changes: the session's pointer, the device's, and the device given up. */
  lemma Takes1(w: World, s: Id, d: Name, retained: bool)
    ensures
      var w' := TakeDevice(w, s, d, retained);
      && (s in w'.sessions <==> s in w.sessions)
      && (s in w.sessions && (w.sessions[s].device == Some(d) || retained) ==>
            w'.sessions[s] == w.sessions[s].(device := Some(d)))
      && (s in w.sessions && w.sessions[s].device != Some(d) && !retained ==>
            w'.sessions[s] == w.sessions[s].(device := None))
      && (d in w'.devices <==> d in w.devices)
      && (d in w.devices ==>
            w'.devices[d] == if s in w.sessions && w.sessions[s].device != Some(d) && retained
                             then w.devices[d].(session := Some(s)) else w.devices[d])
  {
  }

  /** An acknowledged phone is registering on that session from then on, without its token. */
  lemma AcknowledgedIsRegistering(w: World, s: Id, d: Name, env: Env)
    requires Welcome(w, s, d, env)
    ensures
      var w' := Step(w, Register(s, d, env));
      && s in w'.sessions && w'.sessions[s] == w.sessions[s].(device := Some(d))
      && d in w'.devices
      && w'.devices[d] == Device(Progress,
                                 if w.sessions[s].device == Some(d) then
                                   if d in w.devices then w.devices[d].session else None
                                 else Some(s),
                                 NoToken, env.now)
  {
    var found := Look(w, d, env.found);
    var w1 := if d !in found.devices && env.anonymous then Enter(found, d) else found;
    hide TakeDevice;
    Takes1(w1, s, d, env.retained);
  }

  /** A known phone that is not acknowledged loses its session: the session stops, and the device is tied to nobody and
    * has failed, unless the session did not take it: then it is in the state it was. */
  lemma RejectedIsForgotten(w: World, s: Id, d: Name, env: Env)
    requires !env.reload && d != "" && !Welcome(w, s, d, env) && (d in w.devices || env.found)
    requires s in w.sessions
    ensures
      var w' := Step(w, Register(s, d, env));
      && s in w'.sessions && w'.sessions[s].stopped
      && d in w'.devices && w'.devices[d].session == None
      && w'.devices[d].state ==
           if !MayRegister(w, s, d, env) || Taken(w, s, d, env) then Failed
           else if d in w.devices then w.devices[d].state else Unregistered
  {
    hide CleanUp, GiveUp, TakeDevice;
    var found := Look(w, d, env.found);
    if Outdated(found, s, d, env) {
      var c := CleanUp(found, s, SessionOf(found, d), env.ended);
      CleaningLeaves(found, s, SessionOf(found, d), env.ended);
      GivenUpIsForgotten(SetState(c, d, Failed), s, d);
    } else {
      var w2 := TakeDevice(found, s, d, env.retained);
      Takes1(found, s, d, env.retained);
      GivenUpIsForgotten(w2, s, d);
      GivenUpIsForgotten(SetState(w2, d, Failed), s, d);
    }
  }

  lemma GivenUpIsForgotten(w: World, s: Id, d: Name)
    requires s in w.sessions && d in w.devices
    ensures
      var w' := GiveUp(w, s, d);
      && s in w'.sessions && w'.sessions[s] == w.sessions[s].(stopped := true)
      && d in w'.devices
      && w'.devices[d] == w.devices[d].(session := None,
                                        state := if w.sessions[s].device == Some(d) then Failed else w.devices[d].state)
  {
  }

  /** Another session's thread is cleaned up; this session and the devices stay. */
  lemma CleaningLeaves(w: World, s: Id, q: Option<Id>, ended: bool)
    ensures
      var w' := CleanUp(w, s, q, ended);
      && (s in w'.sessions <==> s in w.sessions) && (s in w.sessions ==> w'.sessions[s] == w.sessions[s])
      && w'.devices.Keys == w.devices.Keys
  {
  }

  /**
   A granted token is good for a minute. Once a phone was granted a token on a session, its register on that
   session is acknowledged within sixty seconds, whatever happened in between, if that left the device and the
   session's pointer alone and the server is not reloading and allows the address.
   */
  lemma TokenThenRegister(w: World, s: Id, d: Name, env: Env, between: seq<Event>, later: Env)
    requires Step(w, TokenRequest(s, d, env)).sent == w.sent + [(s, TokenAck(Sccp))]
    requires d != "" && !later.reload && later.allowed && later.now - env.now <= 60
    ensures
      var granted := Step(w, TokenRequest(s, d, env));
      var v := Run(granted, between);
      && d in granted.devices && s in granted.sessions
      && (d in v.devices && v.devices[d] == granted.devices[d]
          && s in v.sessions && v.sessions[s].device == granted.sessions[s].device ==>
            Step(v, Register(s, d, later)).sent == v.sent + [(s, RegisterAck)])
  {
    var granted := Step(w, TokenRequest(s, d, env));
    TokenAnswer(w, s, d, env);
    assert granted.sent[|w.sent|] == (s, TokenAck(Sccp)) == (s, ToToken(w, s, d, env));
    GrantedToken(w, s, d, env);
    hide Step, Run;
    RegisterAnswer(Run(granted, between), s, d, later);
  }

  // ---------------------------------------------------------------------------------------------
  // Tokens

  /** How long a rejected phone waits, unless something else is said. */
  function Wait(env: Env): int {
    if env.backoff < 30 then 60 else env.backoff
  }

  /** A token was granted so shortly before that the phone would have to wait. */
  predicate TooSoon(w: World, d: Name, env: Env) {
    d in w.devices && w.devices[d].state == Token && env.now < w.devices[d].time + Wait(env)
  }

  /** The device is registered on another session, which was not stopped, still has its thread, and was heard. */
  predicate InUse(w: World, s: Id, d: Name) {
    && d in w.devices && w.devices[d].state == Ok && w.devices[d].session.Some?
    && var q := w.devices[d].session.value;
       q != s && q in w.sessions && !w.sessions[q].stopped && !w.sessions[q].gone && w.sessions[q].heard
  }

  /** The device has a past that has to be cleaned up. */
  predicate HasPast(w: World, s: Id, d: Name) {
    d in w.devices && (Tied(w, s, d) || w.devices[d].state !in {Failed, Unregistered})
  }

  /** What the fallback says of a phone of that name: nothing, or how long it is to wait. */
  function Turned(name: Name, env: Env): Option<int> {
    var odd := name != "" && name[|name| - 1] as int % 2 == 1;
    match env.fallback
    case Odd => if odd then None else Some(Wait(env))
    case Even => if odd then Some(Wait(env)) else None
    case False => Some(Wait(env))
    case Script(SaysWait(seconds)) => if seconds > 30 then Some(seconds) else None
    case _ => None
  }

  /** The answer to a token request, test by test. */
  function ToToken(w: World, s: Id, d: Name, env: Env): Reply {
    if env.reload then TokenReject(Sccp, 10)
    else if env.fallback == False || TooSoon(w, d, env) || InUse(w, s, d) then TokenReject(Sccp, Wait(env))
    else if HasPast(w, s, d) then TokenReject(Sccp, 10)
    else if (d !in w.devices && !env.found && !env.anonymous) || !Taken(w, s, d, env) || !env.allowed then
      TokenReject(Sccp, Wait(env))
    else if Turned(d, env).Some? then TokenReject(Sccp, Turned(d, env).value)
    else TokenAck(Sccp)
  }

  /** The answer in the other dialect, which asks no fallback but looks at the address first. */
  function ToSpcpToken(w: World, s: Id, d: Name, env: Env): Reply {
    if env.reload then TokenReject(Sccp, 10)
    else if !env.inRange then RegisterReject
    else if TooSoon(w, d, env) then TokenReject(Sccp, Wait(env))
    else if InUse(w, s, d) then TokenReject(Spcp, Wait(env))
    else if HasPast(w, s, d) then TokenReject(Spcp, 10)
    else if d !in w.devices && !env.found && !env.anonymous then TokenReject(Spcp, 60)
    else if !Taken(w, s, d, env) || !env.allowed then TokenReject(Spcp, Wait(env))
    else TokenAck(Spcp)
  }

  /** Every token request is answered once, and this is the answer. */
  lemma TokenAnswer(w: World, s: Id, d: Name, env: Env)
    ensures Step(w, TokenRequest(s, d, env)).sent == w.sent + [(s, ToToken(w, s, d, env))]
  {
    hide Grant, Defend;
    var w1 := FindOrMake(w, d, env);
    DefenceAnswer(w, s, d, env, Sccp);
    GrantAnswer(w1, s, d, env, Sccp);
  }

  lemma SpcpTokenAnswer(w: World, s: Id, d: Name, env: Env)
    ensures Step(w, SpcpTokenRequest(s, d, env)).sent == w.sent + [(s, ToSpcpToken(w, s, d, env))]
  {
    hide Grant, Defend;
    var w1 := FindOrMake(w, d, env);
    DefenceAnswer(w, s, d, env, Spcp);
    GrantAnswer(w1, s, d, env, Spcp);
  }

  lemma DefenceAnswer(w: World, s: Id, d: Name, env: Env, dialect: Dialect)
    ensures
      var r := Defend(w, s, d, env, dialect);
      && (r.Some? <==> TooSoon(w, d, env) || InUse(w, s, d) || HasPast(w, s, d))
      && (r.Some? ==>
            r.value.sent == w.sent + [(s, if TooSoon(w, d, env) then TokenReject(Sccp, Wait(env))
                                          else TokenReject(dialect, if InUse(w, s, d) then Wait(env) else 10))])
  {
    hide CleanUp, Stop, SetSession;
    var t := Touch(w, d, env.now);
    var c := CleanUp(t, s, SessionOf(w, d), env.ended);
    CleanUpAnswersNothing(t, s, SessionOf(w, d), env.ended);
    StopAnswersNothing(Answer(t, s, TokenReject(dialect, Backoff(env))), s, Failed, d, None);
    StopAnswersNothing(Answer(c, s, TokenReject(dialect, 10)), s, Failed, d, None);
    StopAnswersNothing(Stop(Answer(c, s, TokenReject(dialect, 10)), s, Failed), s, Failed, d, None);
  }

  lemma GrantAnswer(w: World, s: Id, d: Name, env: Env, dialect: Dialect)
    ensures
      Grant(w, s, d, env, dialect).sent
        == w.sent + [(s, if !Taken(w, s, d, env) || !env.allowed then TokenReject(dialect, Wait(env))
                         else if dialect == Sccp && Turned(d, env).Some? then TokenReject(Sccp, Turned(d, env).value)
                         else TokenAck(dialect))]
  {
    hide TakeDevice;
    Takes1(w, s, d, env.retained);
    TakeAnswersNothing(w, s, d, env.retained);
  }

  /** A phone whose token is granted has it on that session from then on, counted from now; neither is tied to anybody
    * else. */
  lemma GrantedToken(w: World, s: Id, d: Name, env: Env)
    requires ToToken(w, s, d, env) == TokenAck(Sccp)
    ensures
      var w' := Step(w, TokenRequest(s, d, env));
      && s in w'.sessions && w'.sessions[s] == w.sessions[s].(device := Some(d))
      && d in w'.devices && w'.devices[d].state == Token && w'.devices[d].token == Acked
      && w'.devices[d].time == env.now && !Tied(w', s, d)
  {
    hide TakeDevice, Defend;
    DefenceAnswer(w, s, d, env, Sccp);
    Takes1(FindOrMake(w, d, env), s, d, env.retained);
  }

  /** One that the fallback turns away has its device as well, with the token rejected. */
  lemma TurnedAwayToken(w: World, s: Id, d: Name, env: Env)
    requires !env.reload && env.fallback != False && !TooSoon(w, d, env) && !InUse(w, s, d) && !HasPast(w, s, d)
    requires (d in w.devices || env.found || env.anonymous) && Taken(w, s, d, env)
    ensures
      var w' := Step(w, TokenRequest(s, d, env));
      && s in w'.sessions && w'.sessions[s] == w.sessions[s].(device := Some(d))
      && d in w'.devices && w'.devices[d].time == env.now
      && w'.devices[d].state == (if env.allowed then Token else Failed)
      && w'.devices[d].token == (if env.allowed && Turned(d, env).None? then Acked else Rejected)
  {
    hide TakeDevice, Defend;
    DefenceAnswer(w, s, d, env, Sccp);
    Takes1(FindOrMake(w, d, env), s, d, env.retained);
  }

  /** A request that comes too soon only restarts the wait. */
  lemma TooSoonWaitsAgain(w: World, s: Id, d: Name, env: Env)
    requires !env.reload && env.fallback != False && TooSoon(w, d, env)
    ensures Step(w, TokenRequest(s, d, env))
         == w.(sent := w.sent + [(s, TokenReject(Sccp, Wait(env)))],
               devices := w.devices[d := w.devices[d].(time := env.now)])
  {
  }

  /** A request for a device in use stops the session that asks, which marks the device it has as failed. */
  lemma InUseStopsTheOther(w: World, s: Id, d: Name, env: Env)
    requires !env.reload && env.fallback != False && InUse(w, s, d) && s in w.sessions
    ensures
      var w' := Step(w, TokenRequest(s, d, env));
      var mine := w.sessions[s].device;
      && w'.sessions == w.sessions[s := w.sessions[s].(stopped := true)]
      && w'.devices.Keys == w.devices.Keys
      && forall x :: x in w.devices ==>
           w'.devices[x].state == (if mine == Some(x) then Failed else w.devices[x].state)
           && w'.devices[x].session == w.devices[x].session
  {
  }

  /** The session whose thread is cancelled: it gives up its device and is gone, or is left without a thread. */
  predicate ThreadEnded(w: World, w': World, q: Id, ended: bool)
    requires q in w.sessions
  {
    && q in w'.sessions
    && w'.sessions[q] ==
         if !w.sessions[q].running then w.sessions[q]
         else if !ended then w.sessions[q].(running := false)
         else if w.sessions[q].gone then w.sessions[q]
         else Session(None, true, w.sessions[q].heard, false, true)
  }

  /** A request for a device with a past ends the session the device is tied to, stops the one that asks, and leaves the
    * device to nobody. */
  lemma PastIsCleanedUp(w: World, s: Id, d: Name, env: Env)
    requires !env.reload && env.fallback != False && !TooSoon(w, d, env) && !InUse(w, s, d) && HasPast(w, s, d)
    requires s in w.sessions
    ensures
      var w' := Step(w, TokenRequest(s, d, env));
      && s in w'.sessions && w'.sessions[s] == w.sessions[s].(stopped := true)
      && d in w'.devices && w'.devices[d].session == None
      && (w.devices[d].session.Some? && w.devices[d].session.value in w.sessions && w.devices[d].session.value != s ==>
            ThreadEnded(w, w', w.devices[d].session.value, env.ended))
  {
    hide CleanUp;
    var t := Touch(w, d, env.now);
    CleaningLeaves(t, s, SessionOf(w, d), env.ended);
    CleaningEnds(t, s, SessionOf(w, d), env.ended);
  }

  lemma CleaningEnds(w: World, s: Id, q: Option<Id>, ended: bool)
    ensures q.Some? && q.value != s && q.value in w.sessions ==>
              ThreadEnded(w, CleanUp(w, s, q, ended), q.value, ended)
  {
  }

  /** A register that fails on its past ends that session too. */
  lemma RegisterEndsTheOther(w: World, s: Id, d: Name, env: Env)
    requires !env.reload && d in w.devices && d != "" && !MayRegister(w, s, d, env)
    requires w.devices[d].session.Some? && w.devices[d].session.value in w.sessions && w.devices[d].session.value != s
    ensures ThreadEnded(w, Step(w, Register(s, d, env)), w.devices[d].session.value, env.ended)
  {
    hide CleanUp;
    CleaningEnds(w, s, SessionOf(w, d), env.ended);
  }

  // ---------------------------------------------------------------------------------------------
  // The other events

  /** The session is served: it runs, its device is usable, and neither is tied to anybody else. */
  predicate Served(w: World, s: Id) {
    && s in w.sessions && !w.sessions[s].stopped && !w.sessions[s].gone
    && w.sessions[s].device.Some? && w.sessions[s].device.value in w.devices
    && var device := w.devices[w.sessions[s].device.value];
       (device.session == None || device.session == Some(s)) && device.state in {Progress, Ok}
  }

  /** A message reaches its handler if and only if the session is served. The one that ends the registration makes the
    * device registered from then on; a handler that fails stops the session and fails the device. */
  lemma MessageIsHandled(w: World, s: Id, finished: bool, fails: bool, env: Env)
    ensures
      var w' := Step(w, Message(s, finished, fails, env));
      if Served(w, s) then
        var d := w.sessions[s].device.value;
        var device := w.devices[d];
        w' == w.(handled := w.handled + [(d, device.state)],
                 sessions := w.sessions[s := w.sessions[s].(stopped := fails)],
                 devices := w.devices[d := if fails then device.(state := Failed)
                                           else if finished && device.state == Progress then
                                             device.(state := Ok, time := env.now)
                                           else device])
      else w'.handled == w.handled && w'.sent == w.sent
  {
    if Served(w, s) {
      var d := w.sessions[s].device.value;
      assert w.sessions[s := w.sessions[s]] == w.sessions && w.devices[d := w.devices[d]] == w.devices;
      assert w.devices[d := w.devices[d].(state := Ok)][d := w.devices[d].(state := Ok, time := env.now)]
          == w.devices[d := w.devices[d].(state := Ok, time := env.now)];
    }
  }

  /** A message on a session whose device is tied to another session ends that one; any other message that is not handled
    * changes nothing. */
  lemma UnservedMessage(w: World, s: Id, finished: bool, fails: bool, env: Env)
    requires !Served(w, s)
    ensures
      var w' := Step(w, Message(s, finished, fails, env));
      if s in w.sessions && !w.sessions[s].stopped && !w.sessions[s].gone && w.sessions[s].device.Some?
         && w.sessions[s].device.value in w.devices && w.devices[w.sessions[s].device.value].session.Some?
         && w.devices[w.sessions[s].device.value].session.value != s
         && w.devices[w.sessions[s].device.value].session.value in w.sessions
      then ThreadEnded(w, w', w.devices[w.sessions[s].device.value].session.value, env.ended)
      else w' == w
  {
    if s in w.sessions && w.sessions[s].device.Some? {
      CleaningEnds(w, s, SessionOf(w, w.sessions[s].device.value), env.ended);
    }
  }

  /** Unregistering, a broken connection and a timeout stop the session and mark the device it has. */
  lemma StopMarksTheDevice(w: World, s: Id, e: Event)
    requires e == Unregister(s) || e == Break(s, false) || e == Break(s, true)
    ensures
      var w' := Step(w, e);
      var state := if e.Unregister? then Unregistered else if e.timeout then TimedOut else Failed;
      if s !in w.sessions then w' == w
      else
        && w'.sessions == w.sessions[s := w.sessions[s].(stopped := true)]
        && w'.devices == (if w.sessions[s].device.Some? && w.sessions[s].device.value in w.devices then
               w.devices[w.sessions[s].device.value := w.devices[w.sessions[s].device.value].(state := state)]
             else w.devices)
        && w'.sent == w.sent && w'.handled == w.handled
  {
  }

  /** The end of a session's thread leaves its device unregistered and tied to nobody. */
  lemma ExitUnties(w: World, s: Id)
    ensures
      var w' := Step(w, Exit(s));
      if s !in w.sessions || w.sessions[s].gone then w' == w
      else
        && w'.sessions == w.sessions[s := Session(None, true, w.sessions[s].heard, false, true)]
        && w'.devices == (if w.sessions[s].device.Some? && w.sessions[s].device.value in w.devices then
               w.devices[w.sessions[s].device.value :=
                 w.devices[w.sessions[s].device.value].(session := None, state := Unregistered)]
             else w.devices)
        && w'.sent == w.sent && w'.handled == w.handled
  {
    if s in w.sessions && w.sessions[s].device.Some? && w.sessions[s].device.value in w.devices {
      var d := w.sessions[s].device.value;
      assert w.devices[d := w.devices[d].(session := None)][d := w.devices[d].(session := None, state := Unregistered)]
          == w.devices[d := w.devices[d].(session := None, state := Unregistered)];
    }
  }

  /** Cleaning a device up leaves it unregistered and its session without it. */
  lemma CleanedDevice(w: World, d: Name, env: Env)
    requires d in w.devices
    ensures
      var w' := Step(w, CleanDevice(d, env));
      var q := w.devices[d].session;
      && d in w'.devices && w'.devices[d] == w.devices[d].(state := Unregistered, session := None)
      && (q.Some? && q.value in w.sessions ==> q.value in w'.sessions && w'.sessions[q.value].device == None)
      && w'.sent == w.sent && w'.handled == w.handled
  {
  }

  /** A new connection has no device; hearing from a phone changes nothing else. */
  lemma ConnectionStarts(w: World, s: Id, recently: bool)
    ensures Step(w, Accept(s)) ==
            if s in w.sessions then w else w.(sessions := w.sessions[s := Session(None, false, true, true, false)])
    ensures Step(w, Hear(s, recently)) ==
            if s in w.sessions then w.(sessions := w.sessions[s := w.sessions[s].(heard := recently)]) else w
  {
  }
}
