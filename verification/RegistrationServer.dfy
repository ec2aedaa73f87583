/** The handlers for tokens, registration and other messages, updating sessions and devices in place. */
module RegistrationServer {
  import opened Common
  import R = Registration
  import RegistrationRuns

  class Server {
    var sessions: map<R.Id, R.Session>
    var devices: map<R.Name, R.Device>
    var sent: seq<(R.Id, R.Reply)>
    var handled: seq<(R.Name, R.Reg)>

    function View(): R.World
      reads this
    {
      R.World(sessions, devices, sent, handled)
    }

    constructor ()
      ensures View() == R.World(map[], map[], [], [])
    {
      sessions, devices, sent, handled := map[], map[], [], [];
    }

    method SetRegistrationState(d: R.Name, state: R.Reg)
      modifies this`devices
      ensures View() == R.SetState(old(View()), d, state)
    {
      if d in devices { devices := devices[d := devices[d].(state := state)]; }
    }

    method SetSession(d: R.Name, s: Option<R.Id>)
      modifies this`devices
      ensures View() == R.SetSession(old(View()), d, s)
    {
      if d in devices { devices := devices[d := devices[d].(session := s)]; }
    }

    method SetTime(d: R.Name, now: int)
      modifies this`devices
      ensures View() == R.Touch(old(View()), d, now)
    {
      if d in devices { devices := devices[d := devices[d].(time := now)]; }
    }

    method SetToken(d: R.Name, token: R.TokenState)
      modifies this`devices
      ensures View() == R.SetToken(old(View()), d, token)
    {
      if d in devices { devices := devices[d := devices[d].(token := token)]; }
    }

    method Send(s: R.Id, r: R.Reply)
      modifies this`sent
      ensures View() == R.Answer(old(View()), s, r)
    {
      sent := sent + [(s, r)];
    }

    method RemoveDevice(s: R.Id)
      modifies this
      ensures View() == R.RemoveDevice(old(View()), s)
    {
      if s in sessions && sessions[s].device.Some? {
        var d := sessions[s].device.value;
        SetRegistrationState(d, R.Unregistered);
        sessions := sessions[s := sessions[s].(device := None)];
      }
    }

    method RetainDevice(s: R.Id, d: R.Name, retained: bool)
      modifies this
      ensures View() == R.TakeDevice(old(View()), s, d, retained)
      ensures old(s in sessions) ==> s in sessions
    {
      if s !in sessions || sessions[s].device == Some(d) { return; }
      RemoveDevice(s);
      if retained {
        sessions := sessions[s := sessions[s].(device := Some(d))];
        SetSession(d, Some(s));
      }
    }

    method StopThread(s: R.Id, state: R.Reg)
      modifies this
      ensures View() == R.Stop(old(View()), s, state)
    {
      if s !in sessions { return; }
      sessions := sessions[s := sessions[s].(stopped := true)];
      if sessions[s].device.Some? {
        SetRegistrationState(sessions[s].device.value, state);
      }
    }

    method DeviceThreadExit(s: R.Id)
      modifies this
      ensures View() == R.Leave(old(View()), s)
    {
      if s !in sessions || sessions[s].gone { return; }
      if sessions[s].device.Some? { SetSession(sessions[s].device.value, None); }
      RemoveDevice(s);
      sessions := sessions[s := sessions[s].(stopped := true, running := false, gone := true)];
    }

    method EndDeviceThread(s: R.Id, ended: bool)
      modifies this
      ensures View() == R.EndThread(old(View()), s, ended)
    {
      if s !in sessions || !sessions[s].running { return; }
      if ended {
        DeviceThreadExit(s);
      } else {
        sessions := sessions[s := sessions[s].(running := false)];
      }
    }

    method CrossDeviceCleanup(s: R.Id, previous: Option<R.Id>, ended: bool)
      modifies this
      ensures View() == R.CleanUp(old(View()), s, previous, ended)
    {
      if previous.Some? && previous.value != s {
        EndDeviceThread(previous.value, ended);
      }
    }

    method DefendDevice(s: R.Id, d: R.Name, env: R.Env, dialect: R.Dialect) returns (done: bool)
      modifies this
      ensures done == R.Defend(old(View()), s, d, env, dialect).Some?
      ensures View() == if done then R.Defend(old(View()), s, d, env, dialect).value else old(View())
    {
      hide R.CleanUp, R.Stop, R.IsAlive, R.Backoff, R.CrossDevice;
      if d !in devices { return false; }
      var state := devices[d].state;
      if state == R.Token && env.now - devices[d].time < R.Backoff(env) {
        SetTime(d, env.now);
        Send(s, R.TokenReject(R.Sccp, R.Backoff(env)));
        return true;
      }
      var p := devices[d].session;
      if p.Some? && p.value != s && state == R.Ok && R.IsAlive(View(), p.value) {
        SetTime(d, env.now);
        Send(s, R.TokenReject(dialect, R.Backoff(env)));
        StopThread(s, R.Failed);
        return true;
      }
      if R.CrossDevice(View(), s, d) || (state != R.Failed && state != R.Unregistered) {
        SetTime(d, env.now);
        CrossDeviceCleanup(s, p, env.ended);
        Send(s, R.TokenReject(dialect, 10));
        StopThread(s, R.Failed);
        SetSession(d, None);
        return true;
      }
      done := false;
    }

    /** Searches memory and configuration. */
    method Look(d: R.Name, found: bool)
      modifies this`devices
      ensures View() == R.Look(old(View()), d, found)
    {
      if d !in devices && found { Enter(d); }
    }

    method Enter(d: R.Name)
      modifies this`devices
      ensures View() == R.Enter(old(View()), d)
    {
      devices := devices[d := R.Device(R.Unregistered, None, R.NoToken, 0)];
    }

    method FindDevice(d: R.Name, env: R.Env) returns (known: bool)
      modifies this`devices
      ensures View() == R.FindOrMake(old(View()), d, env)
      ensures known == (d in devices)
    {
      Look(d, env.found);
      if d !in devices && env.anonymous { Enter(d); }
      known := d in devices;
    }

    method GrantToken(s: R.Id, d: R.Name, env: R.Env, dialect: R.Dialect)
      modifies this
      ensures View() == R.Grant(old(View()), s, d, env, dialect)
    {
      hide R.TakeDevice;
      RetainDevice(s, d, env.retained);
      if s !in sessions || sessions[s].device != Some(d) {
        Send(s, R.TokenReject(dialect, R.Backoff(env)));
        SetTime(d, env.now);
        return;
      }
      SetToken(d, R.Rejected);
      if !env.allowed {
        SetRegistrationState(d, R.Failed);
        Send(s, R.TokenReject(dialect, R.Backoff(env)));
        SetTime(d, env.now);
        return;
      }
      var ack := dialect == R.Spcp || R.Takes(env.fallback, d);
      SetRegistrationState(d, R.Token);
      if ack {
        Send(s, R.TokenAck(dialect));
        SetToken(d, R.Acked);
      } else {
        Send(s, R.TokenReject(dialect, R.Patience(env)));
        SetToken(d, R.Rejected);
      }
      SetTime(d, env.now);
    }

    method HandleTokenRequest(s: R.Id, d: R.Name, env: R.Env)
      modifies this
      ensures View() == R.RequestToken(old(View()), s, d, env)
      ensures RegistrationRuns.AnswersOnce(old(View()), View(), s)
      ensures forall p :: R.Busy(old(View()), s, p) ==>
                (RegistrationRuns.Spared(old(View()), View(), p) <==>
                   (env.reload || env.fallback == R.False || RegistrationRuns.Survives(old(View()), s, d, env, p)))
    {
      ghost var was := View();
      Request(s, d, env);
      hide R.RequestToken, R.Busy, RegistrationRuns.Spared, RegistrationRuns.Survives, RegistrationRuns.AnswersOnce;
      RegistrationRuns.TokenRequestAnsweredOnce(was, s, d, env);
      forall p | R.Busy(was, s, p)
        ensures RegistrationRuns.Spared(was, View(), p) <==>
                (env.reload || env.fallback == R.False || RegistrationRuns.Survives(was, s, d, env, p))
      {
        RegistrationRuns.RegisteredPhoneIsSpared(was, s, d, env, p);
      }
    }

    method Request(s: R.Id, d: R.Name, env: R.Env)
      modifies this
      ensures View() == R.RequestToken(old(View()), s, d, env)
    {
      hide R.Defend, R.Grant;
      if env.reload {
        Send(s, R.TokenReject(R.Sccp, 10));
        return;
      }
      if env.fallback == R.False {
        Send(s, R.TokenReject(R.Sccp, R.Backoff(env)));
        return;
      }
      var done := DefendDevice(s, d, env, R.Sccp);
      if done { return; }
      var known := FindDevice(d, env);
      if !known {
        Send(s, R.TokenReject(R.Sccp, R.Backoff(env)));
        return;
      }
      GrantToken(s, d, env, R.Sccp);
    }

    method HandleSpcpTokenReq(s: R.Id, d: R.Name, env: R.Env)
      modifies this
      ensures View() == R.RequestSpcpToken(old(View()), s, d, env)
    {
      hide R.Defend, R.Grant;
      if env.reload {
        Send(s, R.TokenReject(R.Sccp, 10));
        return;
      }
      if !env.inRange {
        Send(s, R.RegisterReject);
        return;
      }
      var done := DefendDevice(s, d, env, R.Spcp);
      if done { return; }
      var known := FindDevice(d, env);
      if !known {
        Send(s, R.TokenReject(R.Spcp, 60));
        return;
      }
      GrantToken(s, d, env, R.Spcp);
    }

    method RefuseRegister(s: R.Id, d: R.Name)
      modifies this
      ensures View() == R.GiveUp(old(View()), s, d)
    {
      Send(s, R.RegisterReject);
      StopThread(s, R.Failed);
      SetSession(d, None);
    }

    method HandleRegister(s: R.Id, d: R.Name, env: R.Env)
      modifies this
      ensures View() == R.RegisterPhone(old(View()), s, d, env)
    {
      hide R.CleanUp, R.GiveUp, R.Admit;
      if env.reload || d == "" {
        Send(s, R.RegisterReject);
        return;
      }
      Look(d, env.found);
      if R.Outdated(View(), s, d, env) {
        CrossDeviceCleanup(s, devices[d].session, env.ended);
        SetRegistrationState(d, R.Failed);
        RefuseRegister(s, d);
        return;
      }
      Admit(s, d, env);
    }

    method Admit(s: R.Id, d: R.Name, env: R.Env)
      modifies this
      ensures View() == R.Admit(old(View()), s, d, env)
    {
      hide R.TakeDevice, R.GiveUp;
      if d !in devices && env.anonymous {
        if !env.made {
          RefuseRegister(s, d);
          return;
        }
        Enter(d);
      }
      if d !in devices {
        Send(s, R.RegisterReject);
        return;
      }
      RetainDevice(s, d, env.retained);
      if s !in sessions || sessions[s].device != Some(d) {
        RefuseRegister(s, d);
        return;
      }
      if !env.allowed {
        SetRegistrationState(d, R.Failed);
        RefuseRegister(s, d);
        return;
      }
      SetToken(d, R.NoToken);
      Send(s, R.RegisterAck);
      SetRegistrationState(d, R.Progress);
      SetTime(d, env.now);
    }

    /** A message whose handler needs a device. */
    method HandleMessage(s: R.Id, finished: bool, fails: bool, env: R.Env)
      modifies this
      ensures View() == R.HandleMessage(old(View()), s, finished, fails, env)
    {
      hide R.CleanUp, R.Stop;
      if s !in sessions || sessions[s].stopped || sessions[s].gone || sessions[s].device.None? { return; }
      var d := sessions[s].device.value;
      if R.CrossDevice(View(), s, d) {
        CrossDeviceCleanup(s, R.SessionOf(View(), d), env.ended);
        return;
      }
      if d !in devices || !R.Usable(devices[d].state) { return; }
      handled := handled + [(d, devices[d].state)];
      if fails { StopThread(s, R.Failed); }
      if finished && d in devices && devices[d].state == R.Progress {
        SetRegistrationState(d, R.Ok);
        SetTime(d, env.now);
      }
    }
  }
}
