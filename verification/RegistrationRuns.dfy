/**
 * What holds of tokens and registration over whole runs: one answer for each token request, no loss of
 * a registered phone to a token request on another connection, and one way into service.
 */
module RegistrationRuns {
  import opened Common
  import opened Registration

  // ---------------------------------------------------------------------------------------------
  // Answers

  predicate IsTokenAnswer(r: Reply, dialect: Dialect) {
    r == TokenAck(dialect) || (r.TokenReject? && r.dialect == dialect)
  }

  /** The step answers the session, once. */
  predicate AnswersOnce(w: World, w': World, s: Id) {
    |w'.sent| == |w.sent| + 1 && w'.sent[..|w.sent|] == w.sent && w'.sent[|w.sent|].0 == s
  }

  lemma EndThreadAnswersNothing(w: World, s: Id, ended: bool)
    ensures EndThread(w, s, ended).sent == w.sent && EndThread(w, s, ended).handled == w.handled
  {
  }

  lemma StopAnswersNothing(w: World, s: Id, state: Reg, d: Name, p: Option<Id>)
    ensures Stop(w, s, state).sent == w.sent && Stop(w, s, state).handled == w.handled
    ensures SetSession(w, d, p).sent == w.sent && SetSession(w, d, p).handled == w.handled
  {
  }

  lemma CleanUpAnswersNothing(w: World, s: Id, q: Option<Id>, ended: bool)
    ensures CleanUp(w, s, q, ended).sent == w.sent && CleanUp(w, s, q, ended).handled == w.handled
  {
    hide EndThread;
    if q.Some? {
      EndThreadAnswersNothing(w, q.value, ended);
    }
  }

  lemma AnswerIsOne(w: World, v: World, s: Id, r: Reply)
    requires v.sent == w.sent
    ensures AnswersOnce(w, Answer(v, s, r), s) && Answer(v, s, r).sent[|w.sent|].1 == r
  {
  }

  lemma DefendAnswers(w: World, s: Id, d: Name, env: Env, dialect: Dialect)
    ensures Hasty(w, d, env) ==> Defend(w, s, d, env, dialect).Some?
    ensures
      var r := Defend(w, s, d, env, dialect);
      r.Some? ==>
        && AnswersOnce(w, r.value, s)
        && r.value.sent[|w.sent|].1.TokenReject? && r.value.sent[|w.sent|].1.wait >= 10
        && r.value.sent[|w.sent|].1.dialect == if Hasty(w, d, env) then Sccp else dialect
  {
    hide CleanUp, Stop, Answer, SetSession, Stale, Busy, Hasty;
    var t := Touch(w, d, env.now);
    var c := CleanUp(t, s, SessionOf(w, d), env.ended);
    CleanUpAnswersNothing(t, s, SessionOf(w, d), env.ended);
    AnswerIsOne(w, t, s, TokenReject(Sccp, Backoff(env)));
    AnswerIsOne(w, t, s, TokenReject(dialect, Backoff(env)));
    AnswerIsOne(w, c, s, TokenReject(dialect, 10));
    StopAnswersNothing(Answer(t, s, TokenReject(dialect, Backoff(env))), s, Failed, d, None);
    var stopped := Stop(Answer(c, s, TokenReject(dialect, 10)), s, Failed);
    StopAnswersNothing(Answer(c, s, TokenReject(dialect, 10)), s, Failed, d, None);
    StopAnswersNothing(stopped, s, Failed, d, None);
  }

  lemma GrantAnswers(w: World, s: Id, d: Name, env: Env, dialect: Dialect)
    ensures
      var w' := Grant(w, s, d, env, dialect);
      && AnswersOnce(w, w', s)
      && IsTokenAnswer(w'.sent[|w.sent|].1, dialect)
      && (w'.sent[|w.sent|].1.TokenReject? ==> w'.sent[|w.sent|].1.wait >= 30)
  {
    hide TakeDevice;
    assert TakeDevice(w, s, d, env.retained).sent == w.sent by { TakeAnswersNothing(w, s, d, env.retained); }
  }

  lemma TakeAnswersNothing(w: World, s: Id, d: Name, retained: bool)
    ensures TakeDevice(w, s, d, retained).sent == w.sent && TakeDevice(w, s, d, retained).handled == w.handled
  {
  }

  /** Every token request gets exactly one answer, an acknowledgement or a rejection to come back later. */
  lemma TokenRequestAnsweredOnce(w: World, s: Id, d: Name, env: Env)
    ensures
      var w' := Step(w, TokenRequest(s, d, env));
      && AnswersOnce(w, w', s)
      && IsTokenAnswer(w'.sent[|w.sent|].1, Sccp)
      && (w'.sent[|w.sent|].1.TokenReject? ==> w'.sent[|w.sent|].1.wait >= 10)
  {
    hide Defend, Grant;
    DefendAnswers(w, s, d, env, Sccp);
    GrantAnswers(FindOrMake(w, d, env), s, d, env, Sccp);
  }

  /** So does every token request of the other dialect, but the answer is in that dialect only if the
    * request gets past the reload, the address check and the test for a token sent just before. */
  lemma SpcpTokenRequestAnsweredOnce(w: World, s: Id, d: Name, env: Env)
    ensures
      var w' := Step(w, SpcpTokenRequest(s, d, env));
      && AnswersOnce(w, w', s)
      && (IsTokenAnswer(w'.sent[|w.sent|].1, Spcp) <==> !env.reload && env.inRange && !Hasty(w, d, env))
      && (w'.sent[|w.sent|].1 == RegisterReject <==> !env.reload && !env.inRange)
  {
    hide Defend, Grant;
    DefendAnswers(w, s, d, env, Spcp);
    GrantAnswers(FindOrMake(w, d, env), s, d, env, Spcp);
  }

  /** Two servers, one for odd and one for even names, split the phones between them: exactly one of them
    * acknowledges a phone that nothing else speaks against. */
  lemma ClusterSplits(w: World, v: World, s: Id, t: Id, d: Name, env: Env)
    requires d !in w.devices && d !in v.devices && s in w.sessions && t in v.sessions
    requires !env.reload && env.found && env.retained && env.allowed
    ensures
      var odd := Step(w, TokenRequest(s, d, env.(fallback := Odd)));
      var even := Step(v, TokenRequest(t, d, env.(fallback := Even)));
      && |odd.sent| == |w.sent| + 1 && |even.sent| == |v.sent| + 1
      && (odd.sent[|w.sent|] == (s, TokenAck(Sccp)) <==> EndsOdd(d))
      && (even.sent[|v.sent|] == (t, TokenAck(Sccp)) <==> !EndsOdd(d))
  {
    hide Grant;
    GrantDecides(w, s, d, env.(fallback := Odd));
    GrantDecides(v, t, d, env.(fallback := Even));
  }

  lemma GrantDecides(w: World, s: Id, d: Name, env: Env)
    requires d !in w.devices && s in w.sessions && env.found && env.retained && env.allowed
    ensures
      var w' := Grant(FindOrMake(w, d, env), s, d, env, Sccp);
      w'.sent == w.sent + [(s, if Takes(env.fallback, d) then TokenAck(Sccp) else TokenReject(Sccp, Patience(env)))]
  {
    var w1 := FindOrMake(w, d, env);
    TakeAnswersNothing(w1, s, d, true);
    assert DeviceOf(TakeDevice(w1, s, d, true), s) == Some(d);
    hide TakeDevice, Takes, FindOrMake;
  }

  // ---------------------------------------------------------------------------------------------
  // A registered phone is left alone

  /** State and session of the device are what they were. */
  predicate Spared(w: World, w': World, d: Name) {
    d in w.devices && d in w'.devices
    && w'.devices[d].state == w.devices[d].state && w'.devices[d].session == w.devices[d].session
  }

  /** A token request for a device that is busy on another session is refused at once, and it costs the
    * device its registration exactly if the asking session holds that device as well. */
  lemma BusyDeviceIsSpared(w: World, s: Id, d: Name, env: Env)
    requires Busy(w, s, d)
    ensures Spared(w, Step(w, TokenRequest(s, d, env)), d) <==>
            (env.reload || env.fallback == False || DeviceOf(w, s) != Some(d))
    ensures Spared(w, Step(w, SpcpTokenRequest(s, d, env)), d) <==>
            (env.reload || !env.inRange || DeviceOf(w, s) != Some(d))
  {
    hide Grant, CleanUp;
  }

  lemma StopSpares(w: World, s: Id, state: Reg, d: Name)
    requires d in w.devices && DeviceOf(w, s) != Some(d)
    ensures Spared(w, Stop(w, s, state), d)
  {
  }

  /** Cancelling another session ends what is left of its thread, and that thread gives up the device. */
  predicate Ends(w: World, s: Id, q: Option<Id>, ended: bool, d: Name) {
    && q.Some? && q.value != s && q.value in w.sessions && ended
    && w.sessions[q.value].running && !w.sessions[q.value].gone && w.sessions[q.value].device == Some(d)
  }

  lemma CleanUpSpares(w: World, s: Id, q: Option<Id>, ended: bool, d: Name)
    requires Registered(w, d)
    ensures Spared(w, CleanUp(w, s, q, ended), d) <==> !Ends(w, s, q, ended, d)
    ensures Ends(w, s, q, ended, d) ==> StateOf(CleanUp(w, s, q, ended), d) == Unregistered
    ensures DeviceOf(CleanUp(w, s, q, ended), s) == DeviceOf(w, s) && d in CleanUp(w, s, q, ended).devices
  {
  }

  /** The request is for a name whose device is tied to another session, a live thread that holds d, and it
    * comes to cleaning up that session. */
  predicate Hits(w: World, s: Id, x: Name, env: Env, d: Name) {
    !Hasty(w, x, env) && !Busy(w, s, x) && Stale(w, s, x) && Ends(w, s, SessionOf(w, x), env.ended, d)
  }

  lemma DefendSpares(w: World, s: Id, x: Name, env: Env, dialect: Dialect, d: Name)
    requires Registered(w, d) && d != x && DeviceOf(w, s) != Some(d)
    ensures Defend(w, s, x, env, dialect).Some? ==>
              (Spared(w, Defend(w, s, x, env, dialect).value, d) <==> !Hits(w, s, x, env, d))
    ensures Hits(w, s, x, env, d) ==> Defend(w, s, x, env, dialect).Some?
  {
    var t := Touch(w, x, env.now);
    assert Spared(w, t, d) && t.sessions == w.sessions && SessionOf(t, x) == SessionOf(w, x);
    hide Stop, CleanUp, Busy, Hasty, Stale;
    CleanUpSpares(t, s, SessionOf(w, x), env.ended, d);
    var c := CleanUp(t, s, SessionOf(w, x), env.ended);
    StopSpares(Answer(c, s, TokenReject(dialect, 10)), s, Failed, d);
    StopSpares(Answer(t, s, TokenReject(dialect, Backoff(env))), s, Failed, d);
  }

  lemma GrantSpares(w: World, s: Id, x: Name, env: Env, dialect: Dialect, d: Name)
    requires Registered(w, d) && d != x
    ensures Spared(w, Grant(w, s, x, env, dialect), d) <==> DeviceOf(w, s) != Some(d)
  {
    hide TakeDevice;
    TakeSpares(w, s, x, env.retained, d);
  }

  lemma TakeSpares(w: World, s: Id, x: Name, retained: bool, d: Name)
    requires Registered(w, d) && d != x
    ensures d in TakeDevice(w, s, x, retained).devices
    ensures Spared(w, TakeDevice(w, s, x, retained), d) <==> DeviceOf(w, s) != Some(d)
    ensures DeviceOf(w, s) == Some(d) ==> StateOf(TakeDevice(w, s, x, retained), d) == Unregistered
  {
  }

  /** The asking session itself holds d: whatever it does to that session costs d its registration. */
  lemma DefendCosts(w: World, s: Id, x: Name, env: Env, dialect: Dialect, d: Name)
    requires Registered(w, d) && d != x && DeviceOf(w, s) == Some(d)
    ensures
      var r := Defend(w, s, x, env, dialect);
      && (r.Some? <==> x in w.devices)
      && (r.Some? ==> (Spared(w, r.value, d) <==> Hasty(w, x, env)))
  {
    var t := Touch(w, x, env.now);
    var c := CleanUp(t, s, SessionOf(w, x), env.ended);
    assert t.sessions == w.sessions && d in t.devices && DeviceOf(c, s) == Some(d) && d in c.devices;
    StopCosts(Answer(t, s, TokenReject(dialect, Backoff(env))), s, d);
    StopCosts(Answer(c, s, TokenReject(dialect, 10)), s, d);
    hide Stop, CleanUp, Busy, Hasty;
  }

  lemma StopCosts(w: World, s: Id, d: Name)
    requires d in w.devices && DeviceOf(w, s) == Some(d)
    ensures StateOf(Stop(w, s, Failed), d) == Failed
  {
  }

  /** When a token request that gets as far as the devices leaves d alone. */
  predicate Survives(w: World, s: Id, x: Name, env: Env, d: Name) {
    if DeviceOf(w, s) == Some(d) then
      x != d && (Hasty(w, x, env) || (x !in w.devices && !env.found && !env.anonymous))
    else
      x == d || !Hits(w, s, x, env, d)
  }

  /** A token request, under whatever name, leaves the state and the session of a phone that is registered
    * and alive on another session as they are if and only if it is refused before the devices are looked
    * at; or the asking session does not hold that phone, and does not come to cleaning up the session that
    * does; or, if it does hold it, the name is not its own and is in haste or unknown. */
  lemma RegisteredPhoneIsSpared(w: World, s: Id, x: Name, env: Env, d: Name)
    requires Busy(w, s, d)
    ensures Spared(w, Step(w, TokenRequest(s, x, env)), d) <==>
            (env.reload || env.fallback == False || Survives(w, s, x, env, d))
    ensures Spared(w, Step(w, SpcpTokenRequest(s, x, env)), d) <==>
            (env.reload || !env.inRange || Survives(w, s, x, env, d))
  {
    if x == d {
      BusyDeviceIsSpared(w, s, d, env);
    } else {
      var w1 := FindOrMake(w, x, env);
      assert Registered(w1, d) && w1.sessions == w.sessions && w1.devices[d] == w.devices[d];
      assert x in w1.devices <==> x in w.devices || env.found || env.anonymous;
      if DeviceOf(w, s) == Some(d) {
        DefendCosts(w, s, x, env, Sccp, d);
        DefendCosts(w, s, x, env, Spcp, d);
        assert Hasty(w, x, env) ==> x in w.devices;
      } else {
        DefendSpares(w, s, x, env, Sccp, d);
        DefendSpares(w, s, x, env, Spcp, d);
      }
      GrantSpares(w1, s, x, env, Sccp, d);
      GrantSpares(w1, s, x, env, Spcp, d);
      hide Defend, Grant, FindOrMake, Hits, Hasty, Busy;
    }
  }

  /** Each device's session has that device. */
  ghost predicate Straight(w: World) {
    forall d :: d in w.devices && w.devices[d].session.Some? ==> DeviceOf(w, w.devices[d].session.value) == Some(d)
  }

  /** With straight pointers only the session that holds the phone can do it harm. */
  lemma StraightIsSpared(w: World, s: Id, x: Name, env: Env, d: Name)
    requires Straight(w) && Busy(w, s, d) && DeviceOf(w, s) != Some(d)
    ensures Spared(w, Step(w, TokenRequest(s, x, env)), d) && Spared(w, Step(w, SpcpTokenRequest(s, x, env)), d)
  {
    RegisteredPhoneIsSpared(w, s, x, env, d);
    assert x in w.devices && w.devices[x].session.Some? ==> DeviceOf(w, w.devices[x].session.value) == Some(x);
    hide Step, Busy;
  }

  // ---------------------------------------------------------------------------------------------
  // One way into service

  function StateOf(w: World, d: Name): Reg {
    if d in w.devices then w.devices[d].state else Unregistered
  }

  predicate InService(w: World, d: Name) {
    Usable(StateOf(w, d))
  }

  /** A step that brings no device into service. */
  ghost predicate NoneGained(w: World, w': World) {
    forall d: Name :: InService(w', d) ==> StateOf(w', d) == StateOf(w, d)
  }

  lemma GainTransitive(w: World, w1: World, w2: World)
    requires NoneGained(w, w1) && NoneGained(w1, w2)
    ensures NoneGained(w, w2)
  {
    forall d: Name | InService(w2, d) ensures StateOf(w2, d) == StateOf(w, d) {
      assert InService(w1, d);
    }
  }

  lemma SmallStepsGainNone(w: World, s: Id, d: Name, ended: bool, state: Reg)
    requires !Usable(state)
    ensures NoneGained(w, SetState(w, d, state)) && NoneGained(w, RemoveDevice(w, s))
    ensures NoneGained(w, Stop(w, s, state)) && NoneGained(w, Leave(w, s)) && NoneGained(w, EndThread(w, s, ended))
  {
  }

  lemma CleanUpGainsNone(w: World, s: Id, q: Option<Id>, ended: bool)
    ensures NoneGained(w, CleanUp(w, s, q, ended))
  {
    if q.Some? {
      SmallStepsGainNone(w, q.value, "", ended, Failed);
    }
    hide EndThread;
  }

  lemma TakeGainsNone(w: World, s: Id, d: Name, retained: bool)
    ensures NoneGained(w, TakeDevice(w, s, d, retained))
  {
  }

  lemma DefendGainsNone(w: World, s: Id, d: Name, env: Env, dialect: Dialect)
    ensures Defend(w, s, d, env, dialect).Some? ==> NoneGained(w, Defend(w, s, d, env, dialect).value)
  {
    hide Stop, CleanUp;
    var t := Touch(w, d, env.now);
    assert NoneGained(w, t);
    var c := CleanUp(t, s, SessionOf(w, d), env.ended);
    CleanUpGainsNone(t, s, SessionOf(w, d), env.ended);
    GainTransitive(w, t, c);
    var c1, t1 := Answer(c, s, TokenReject(dialect, 10)), Answer(t, s, TokenReject(dialect, Backoff(env)));
    assert NoneGained(c, c1) && NoneGained(t, t1);
    GainTransitive(w, c, c1);
    GainTransitive(w, t, t1);
    SmallStepsGainNone(c1, s, d, env.ended, Failed);
    SmallStepsGainNone(t1, s, d, env.ended, Failed);
    GainTransitive(w, c1, Stop(c1, s, Failed));
    GainTransitive(w, t1, Stop(t1, s, Failed));
    assert NoneGained(Stop(c1, s, Failed), SetSession(Stop(c1, s, Failed), d, None));
    GainTransitive(w, Stop(c1, s, Failed), SetSession(Stop(c1, s, Failed), d, None));
  }

  lemma GrantGainsNone(w: World, s: Id, d: Name, env: Env, dialect: Dialect)
    ensures NoneGained(w, Grant(w, s, d, env, dialect))
  {
    TakeGainsNone(w, s, d, env.retained);
    hide TakeDevice;
  }

  lemma FindGainsNone(w: World, d: Name, env: Env)
    ensures NoneGained(w, FindOrMake(w, d, env))
  {
  }

  lemma TokenGainsNone(w: World, s: Id, d: Name, env: Env)
    ensures NoneGained(w, RequestToken(w, s, d, env)) && NoneGained(w, RequestSpcpToken(w, s, d, env))
  {
    DefendGainsNone(w, s, d, env, Sccp);
    DefendGainsNone(w, s, d, env, Spcp);
    FindGainsNone(w, d, env);
    GrantGainsNone(FindOrMake(w, d, env), s, d, env, Sccp);
    GrantGainsNone(FindOrMake(w, d, env), s, d, env, Spcp);
    hide Defend, Grant, FindOrMake;
  }

  lemma GiveUpGainsNone(w: World, s: Id, d: Name)
    ensures NoneGained(w, GiveUp(w, s, d))
  {
    SmallStepsGainNone(Answer(w, s, RegisterReject), s, d, true, Failed);
    hide Stop;
  }

  /** A register brings into service only the device it names, as in progress, and acknowledges it. */
  lemma RegisterGains(w: World, s: Id, d: Name, env: Env)
    ensures
      var w' := RegisterPhone(w, s, d, env);
      && (forall x: Name :: x != d && InService(w', x) ==> StateOf(w', x) == StateOf(w, x))
      && (InService(w', d) && StateOf(w', d) != StateOf(w, d) ==> StateOf(w', d) == Progress && (s, RegisterAck) in w'.sent)
  {
    hide CleanUp, Admit, GiveUp, Look;
    var w0 := Look(w, d, env.found);
    assert NoneGained(w, w0) && w0.sent == w.sent by { LookGainsNone(w, d, env.found); }
    CleanUpGainsNone(w0, s, SessionOf(w0, d), env.ended);
    GiveUpGainsNone(SetState(CleanUp(w0, s, SessionOf(w0, d), env.ended), d, Failed), s, d);
    AdmitGains(w0, s, d, env);
  }

  lemma LookGainsNone(w: World, d: Name, found: bool)
    ensures NoneGained(w, Look(w, d, found)) && Look(w, d, found).sent == w.sent
    ensures NoneGained(w, Enter(w, d))
  {
  }

  lemma AdmitGains(w: World, s: Id, d: Name, env: Env)
    ensures
      var w' := Admit(w, s, d, env);
      && (forall x: Name :: x != d && InService(w', x) ==> StateOf(w', x) == StateOf(w, x))
      && (InService(w', d) && StateOf(w', d) != StateOf(w, d) ==> StateOf(w', d) == Progress && (s, RegisterAck) in w'.sent)
  {
    hide TakeDevice, GiveUp, Enter;
    GiveUpGainsNone(w, s, d);
    LookGainsNone(w, d, true);
    var w1 := if d !in w.devices && env.anonymous then Enter(w, d) else w;
    TakeGainsNone(w1, s, d, env.retained);
    var w2 := TakeDevice(w1, s, d, env.retained);
    GiveUpGainsNone(w2, s, d);
    GiveUpGainsNone(SetState(w2, d, Failed), s, d);
  }

  lemma CleanPhoneGainsNone(w: World, d: Name, env: Env)
    ensures NoneGained(w, CleanPhone(w, d, env))
  {
    hide RemoveDevice, EndThread;
    var w1 := SetState(w, d, Cleaning);
    var p := SessionOf(w, d);
    if p.Some? {
      SmallStepsGainNone(w1, p.value, d, env.ended, Cleaning);
      var w2 := SetSession(RemoveDevice(w1, p.value), d, None);
      assert NoneGained(w, w1) && NoneGained(RemoveDevice(w1, p.value), w2);
      GainTransitive(w, w1, RemoveDevice(w1, p.value));
      GainTransitive(w, RemoveDevice(w1, p.value), w2);
      SmallStepsGainNone(w2, p.value, d, env.ended, Cleaning);
      var w3 := EndThread(w2, p.value, env.ended);
      GainTransitive(w, w2, w3);
      assert NoneGained(w3, SetState(w3, d, Unregistered));
      GainTransitive(w, w3, SetState(w3, d, Unregistered));
    }
  }

  /** A device becomes registered only in a message that ends the registration, handled for a device that
    * was in progress; and it gets there only by its own register, which is acknowledged. */
  lemma ServiceOnlyByRegister(w: World, e: Event, d: Name)
    ensures
      var w' := Step(w, e);
      && (StateOf(w', d) == Ok && StateOf(w, d) != Ok ==>
            StateOf(w, d) == Progress && e.Message? && e.finished && Handed(w, e.s) == Some(d))
      && (StateOf(w', d) == Progress && StateOf(w, d) != Progress ==>
            e.Register? && e.name == d && (e.s, RegisterAck) in w'.sent)
  {
    hide RequestToken, RequestSpcpToken, RegisterPhone, Stop, Leave, CleanPhone, CleanUp, Handed;
    match e
    case Accept(s) =>
    case Hear(s, recently) =>
    case TokenRequest(s, x, env) => TokenGainsNone(w, s, x, env);
    case SpcpTokenRequest(s, x, env) => TokenGainsNone(w, s, x, env);
    case Register(s, x, env) => RegisterGains(w, s, x, env);
    case Message(s, finished, fails, env) => MessageGains(w, s, finished, fails, env, d);
    case Unregister(s) => SmallStepsGainNone(w, s, d, true, Unregistered);
    case Break(s, timeout) =>
      SmallStepsGainNone(w, s, d, true, TimedOut);
      SmallStepsGainNone(w, s, d, true, Failed);
    case Exit(s) => SmallStepsGainNone(w, s, d, true, Failed);
    case CleanDevice(x, env) => CleanPhoneGainsNone(w, x, env);
  }

  lemma MessageGains(w: World, s: Id, finished: bool, fails: bool, env: Env, d: Name)
    ensures
      var w' := HandleMessage(w, s, finished, fails, env);
      && (StateOf(w', d) == Ok && StateOf(w, d) != Ok ==>
            StateOf(w, d) == Progress && finished && Handed(w, s) == Some(d))
      && (StateOf(w', d) == Progress ==> StateOf(w, d) == Progress)
  {
    hide Stop, CleanUp;
    if DeviceOf(w, s).Some? {
      CleanUpGainsNone(w, s, SessionOf(w, DeviceOf(w, s).value), env.ended);
    }
    if Handed(w, s).Some? {
      var name := Handed(w, s).value;
      var w1 := w.(handled := w.handled + [(name, w.devices[name].state)]);
      SmallStepsGainNone(w1, s, name, true, Failed);
      var w2 := if fails then Stop(w1, s, Failed) else w1;
      assert NoneGained(w, w1);
      GainTransitive(w, w1, w2);
      assert name in w2.devices by { StopKeepsDevices(w1, s); }
      assert InService(w2, d) ==> StateOf(w2, d) == StateOf(w, d);
      assert InService(w2, name) ==> StateOf(w2, name) == StateOf(w, name);
    } else if DeviceOf(w, s).Some? {
      var c := CleanUp(w, s, SessionOf(w, DeviceOf(w, s).value), env.ended);
      assert InService(c, d) ==> StateOf(c, d) == StateOf(w, d);
    }
  }

  lemma StopKeepsDevices(w: World, s: Id)
    ensures Stop(w, s, Failed).devices.Keys == w.devices.Keys
  {
  }

  const EMPTY: World := World(map[], map[], [], [])

  lemma {:induction false} RunLast(w: World, events: seq<Event>)
    requires events != []
    ensures Run(w, events) == Step(Run(w, events[..|events| - 1]), events[|events| - 1])
    decreases |events|
  {
    hide Step;
    if |events| > 1 {
      assert events[..|events| - 1][1..] == events[1..][..|events| - 2];
      RunLast(Step(w, events[0]), events[1..]);
    } else {
      assert events[1..] == [] && events[..0] == [];
    }
  }

  /** Over every run, a device in service has at some time sent its own register, which was acknowledged,
    * and has not been out of service since. */
  lemma {:induction false} ServiceSinceRegister(events: seq<Event>, d: Name) returns (i: nat)
    requires InService(Run(EMPTY, events), d)
    ensures i < |events| && events[i].Register? && events[i].name == d
    ensures (events[i].s, RegisterAck) in Run(EMPTY, events[..i + 1]).sent
    ensures StateOf(Run(EMPTY, events[..i + 1]), d) == Progress
    ensures forall j :: i < j <= |events| ==> InService(Run(EMPTY, events[..j]), d)
    decreases |events|
  {
    hide Step;
    if events == [] {
      assert false;
    }
    var n := |events| - 1;
    var before := events[..n];
    RunLast(EMPTY, events);
    assert events[..|events|] == events;
    ServiceOnlyByRegister(Run(EMPTY, before), events[n], d);
    if InService(Run(EMPTY, before), d) {
      i := ServiceSinceRegister(before, d);
      assert before[..i + 1] == events[..i + 1];
      forall j | i < j <= |events| ensures InService(Run(EMPTY, events[..j]), d) {
        if j <= n {
          assert before[..j] == events[..j];
        }
      }
    } else {
      i := n;
    }
  }

  lemma DefendHandlesNothing(w: World, s: Id, d: Name, env: Env, dialect: Dialect)
    ensures Defend(w, s, d, env, dialect).Some? ==> Defend(w, s, d, env, dialect).value.handled == w.handled
    ensures Grant(w, s, d, env, dialect).handled == w.handled
  {
    hide CleanUp, Stop, SetSession, TakeDevice;
    TakeAnswersNothing(w, s, d, env.retained);
    var t := Touch(w, d, env.now);
    var c := Answer(CleanUp(t, s, SessionOf(w, d), env.ended), s, TokenReject(dialect, 10));
    CleanUpAnswersNothing(t, s, SessionOf(w, d), env.ended);
    StopAnswersNothing(Answer(t, s, TokenReject(dialect, Backoff(env))), s, Failed, d, None);
    StopAnswersNothing(c, s, Failed, d, None);
    StopAnswersNothing(Stop(c, s, Failed), s, Failed, d, None);
  }

  lemma RegisterHandlesNothing(w: World, s: Id, d: Name, env: Env)
    ensures RegisterPhone(w, s, d, env).handled == w.handled
  {
    hide CleanUp, GiveUp, Admit;
    var w0 := Look(w, d, env.found);
    CleanUpAnswersNothing(w0, s, SessionOf(w0, d), env.ended);
    GiveUpHandlesNothing(SetState(CleanUp(w0, s, SessionOf(w0, d), env.ended), d, Failed), s, d);
    AdmitHandlesNothing(w0, s, d, env);
  }

  lemma AdmitHandlesNothing(w: World, s: Id, d: Name, env: Env)
    ensures Admit(w, s, d, env).handled == w.handled
  {
    hide TakeDevice, GiveUp;
    var w1 := if d !in w.devices && env.anonymous then Enter(w, d) else w;
    TakeAnswersNothing(w1, s, d, env.retained);
    var w2 := TakeDevice(w1, s, d, env.retained);
    GiveUpHandlesNothing(w, s, d);
    GiveUpHandlesNothing(w2, s, d);
    GiveUpHandlesNothing(SetState(w2, d, Failed), s, d);
  }

  lemma GiveUpHandlesNothing(w: World, s: Id, d: Name)
    ensures GiveUp(w, s, d).handled == w.handled
  {
  }

  lemma CleanPhoneHandlesNothing(w: World, d: Name, env: Env)
    ensures CleanPhone(w, d, env).handled == w.handled
  {
    hide EndThread;
    if SessionOf(w, d).Some? {
      var p := SessionOf(w, d).value;
      EndThreadAnswersNothing(SetSession(RemoveDevice(SetState(w, d, Cleaning), p), d, None), p, env.ended);
    }
  }

  /** A handler that needs a device runs only for a device in progress or registered, and only for the
    * session that device belongs to, if it belongs to any. */
  lemma HandlersNeedService(w: World, e: Event)
    ensures
      var w' := Step(w, e);
      || w'.handled == w.handled
      || exists d: Name :: e.Message? && DeviceOf(w, e.s) == Some(d) && InService(w, d)
           && SessionOf(w, d) in {None, Some(e.s)} && w'.handled == w.handled + [(d, StateOf(w, d))]
  {
    hide Defend, Grant, RegisterPhone, CleanPhone, EndThread, Handed;
    match e
    case TokenRequest(s, d, env) =>
      DefendHandlesNothing(w, s, d, env, Sccp);
      DefendHandlesNothing(FindOrMake(w, d, env), s, d, env, Sccp);
    case SpcpTokenRequest(s, d, env) =>
      DefendHandlesNothing(w, s, d, env, Spcp);
      DefendHandlesNothing(FindOrMake(w, d, env), s, d, env, Spcp);
    case Register(s, d, env) => RegisterHandlesNothing(w, s, d, env);
    case CleanDevice(d, env) => CleanPhoneHandlesNothing(w, d, env);
    case Message(s, finished, fails, env) =>
      HandedIsUsable(w, s);
      if DeviceOf(w, s).Some? && SessionOf(w, DeviceOf(w, s).value).Some? {
        EndThreadAnswersNothing(w, SessionOf(w, DeviceOf(w, s).value).value, env.ended);
      }
      if Handed(w, s).Some? {
        var d := Handed(w, s).value;
        assert Step(w, e).handled == w.handled + [(d, StateOf(w, d))];
      }
    case _ =>
  }

  lemma HandedIsUsable(w: World, s: Id)
    ensures Handed(w, s).Some? ==>
              && Handed(w, s) == DeviceOf(w, s) && InService(w, Handed(w, s).value) && Handed(w, s).value in w.devices
              && SessionOf(w, Handed(w, s).value) in {None, Some(s)}
  {
  }

  // ---------------------------------------------------------------------------------------------
  // Crooked pointers

  const FINE: Env := Env(100, false, true, Unset, 60, true, false, true, true, true, true)

  lemma Unroll(w: World, e: seq<Event>)
    requires |e| == 5
    ensures Run(w, e) == Step(Step(Step(Step(Step(w, e[0]), e[1]), e[2]), e[3]), e[4])
  {
    hide Step;
    var w1 := Step(w, e[0]);
    var w2 := Step(w1, e[1]);
    var w3 := Step(w2, e[2]);
    var w4 := Step(w3, e[3]);
    assert Run(w, e) == Run(w1, e[1..]);
    assert e[1..][1..] == e[2..] && e[2..][1..] == e[3..] && e[3..][1..] == e[4..] && e[4..][1..] == [];
    assert Run(w1, e[1..]) == Run(w2, e[2..]);
    assert Run(w2, e[2..]) == Run(w3, e[3..]);
    assert Run(w3, e[3..]) == Run(w4, e[4..]);
    assert Run(w4, e[4..]) == Run(Step(w4, e[4]), []);
  }

  /** An unconfigured phone, for which a device is made up. */
  const MADE: Env := FINE.(found := false, anonymous := true)

  /** A session that has one device registers under another name if and only if that name is neither known nor
    * configured, and a device is made up for it. */
  lemma SecondNameIsMadeUp(w: World, s: Id, d: Name, env: Env)
    requires DeviceOf(w, s).Some? && DeviceOf(w, s) != Some(d)
    ensures
      var w' := Step(w, Register(s, d, env));
      && AnswersOnce(w, w', s)
      && (w'.sent[|w.sent|].1 == RegisterAck <==>
            && !env.reload && d != "" && d !in w.devices && !env.found
            && env.anonymous && env.made && env.retained && env.allowed)
  {
    hide CleanUp, GiveUp, Admit, NoneGained;
    var w0 := Look(w, d, env.found);
    var c := SetState(CleanUp(w0, s, SessionOf(w0, d), env.ended), d, Failed);
    CleanUpAnswersNothing(w0, s, SessionOf(w0, d), env.ended);
    GiveUpAnswers(w, c, s, d);
    if d !in w0.devices {
      AdmitAnswers(w0, s, d, env);
    } else {
      assert Outdated(w0, s, d, env);
    }
  }

  lemma GiveUpAnswers(w: World, v: World, s: Id, d: Name)
    requires v.sent == w.sent
    ensures AnswersOnce(w, GiveUp(v, s, d), s) && GiveUp(v, s, d).sent[|w.sent|].1 == RegisterReject
  {
    var a := Answer(v, s, RegisterReject);
    StopAnswersNothing(a, s, Failed, d, None);
    StopAnswersNothing(Stop(a, s, Failed), s, Failed, d, None);
  }

  lemma AdmitAnswers(w: World, s: Id, d: Name, env: Env)
    requires d !in w.devices && DeviceOf(w, s).Some? && DeviceOf(w, s) != Some(d)
    ensures
      var w' := Admit(w, s, d, env);
      && AnswersOnce(w, w', s)
      && (w'.sent[|w.sent|].1 == RegisterAck <==> env.anonymous && env.made && env.retained && env.allowed)
  {
    hide TakeDevice, GiveUp;
    var w1 := if env.anonymous then Enter(w, d) else w;
    TakeAnswersNothing(w1, s, d, env.retained);
    var w2 := TakeDevice(w1, s, d, env.retained);
    assert DeviceOf(w2, s) == Some(d) <==> env.retained by { TakeTakes(w1, s, d, env.retained); }
    GiveUpAnswers(w, w, s, d);
    GiveUpAnswers(w, w2, s, d);
    GiveUpAnswers(w, SetState(w2, d, Failed), s, d);
  }

  lemma TakeTakes(w: World, s: Id, d: Name, retained: bool)
    requires DeviceOf(w, s).Some? && DeviceOf(w, s) != Some(d)
    ensures DeviceOf(TakeDevice(w, s, d, retained), s) == Some(d) <==> retained
  {
  }

  /** Such a session leaves its first device pointing at it; a token request for that first name, from another
    * session, then ends the session of the phone in service. */
  lemma SecondNameLosesRegistration()
    ensures
      var w := Run(EMPTY, [Accept(1), Accept(2), Register(1, "E", FINE), Register(1, "D", MADE),
                           Message(1, true, false, FINE)]);
      && Busy(w, 2, "D") && DeviceOf(w, 2) == None && !Straight(w)
      && !InService(Step(w, TokenRequest(2, "E", FINE)), "D")
  {
    var e := [Accept(1), Accept(2), Register(1, "E", FINE), Register(1, "D", MADE), Message(1, true, false, FINE)];
    var w2 := EMPTY.(sessions := map[1 := NEW, 2 := NEW]);
    var w3 := Step(w2, e[2]);
    var w4 := Step(w3, e[3]);
    var w5 := Step(w4, e[4]);
    TwoAccepted();
    hide Step, Straight;
    Unroll(EMPTY, e);
    FirstRegister(w2);
    SecondRegister(w3);
    Finished(w4);
    AnotherAsks(w5);
  }

  const NEW: Session := Session(None, false, true, true, false)

  lemma TwoAccepted()
    ensures Step(Step(EMPTY, Accept(1)), Accept(2)) == EMPTY.(sessions := map[1 := NEW, 2 := NEW])
  {
  }

  lemma FirstRegister(w: World)
    requires w == EMPTY.(sessions := map[1 := NEW, 2 := NEW])
    ensures
      var w' := Step(w, Register(1, "E", FINE));
      && w'.sessions == map[1 := NEW.(device := Some("E")), 2 := NEW]
      && w'.devices == map["E" := Device(Progress, Some(1), NoToken, 100)]
  {
  }

  lemma Finished(w: World)
    requires w.sessions == map[1 := NEW.(device := Some("D")), 2 := NEW]
    requires w.devices == map["E" := Device(Unregistered, Some(1), NoToken, 100), "D" := Device(Progress, Some(1), NoToken, 100)]
    ensures
      var w' := Step(w, Message(1, true, false, FINE));
      && w'.sessions == w.sessions
      && w'.devices == w.devices["D" := Device(Ok, Some(1), NoToken, 100)]
      && Busy(w', 2, "D") && DeviceOf(w', 2) == None && !Straight(w')
  {
    var w' := Step(w, Message(1, true, false, FINE));
    assert Handed(w, 1) == Some("D");
    assert w'.devices["E"].session == Some(1) && DeviceOf(w', 1) == Some("D");
  }

  lemma SecondRegister(w: World)
    requires 1 in w.sessions && w.sessions[1] == Session(Some("E"), false, true, true, false)
    requires w.devices == map["E" := Device(Progress, Some(1), NoToken, 100)]
    ensures
      var w' := Step(w, Register(1, "D", MADE));
      && w'.sessions == w.sessions[1 := Session(Some("D"), false, true, true, false)]
      && w'.devices == map["E" := Device(Unregistered, Some(1), NoToken, 100), "D" := Device(Progress, Some(1), NoToken, 100)]
  {
  }

  lemma AnotherAsks(w: World)
    requires 1 in w.sessions && w.sessions[1] == Session(Some("D"), false, true, true, false)
    requires "E" in w.devices && w.devices["E"] == Device(Unregistered, Some(1), NoToken, 100)
    requires "D" in w.devices && DeviceOf(w, 2) == None
    ensures !InService(Step(w, TokenRequest(2, "E", FINE)), "D")
  {
    assert Stale(w, 2, "E");
    var t := Touch(w, "E", 100);
    assert !InService(Leave(t, 1), "D");
  }
}
