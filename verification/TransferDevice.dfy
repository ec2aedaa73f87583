/** The device whose methods hold, resume and transfer its calls, updating it in place as the driver does. */
module TransferDevice {
  import opened Common
  import S = TransferSlots
  import T = TransferHold

  class Device {
    var calls: map<T.CallId, T.Call>
    var active: Option<T.CallId>
    var transferee: Option<T.CallId>
    var transferer: Option<T.CallId>
    var held: nat
    ghost var taken: multiset<T.CallId>
    ghost var dropped: multiset<T.CallId>

    ghost function View(): T.Phone
      reads this
    {
      T.Phone(calls, active, transferee, transferer, held, taken, dropped)
    }

    constructor ()
      ensures View() == T.IDLE
    {
      calls, active, transferee, transferer, held := map[], None, None, None, 0;
      taken, dropped := multiset{}, multiset{};
    }

    method SetState(c: T.CallId, state: T.State)
      modifies this`calls
      ensures View() == T.Indicate(old(View()), c, state)
    {
      if c in calls {
        calls := calls[c := calls[c].(state := state)];
      }
    }

    method SetDevice(c: T.CallId)
      modifies this`calls, this`active
      ensures View() == T.Attach(old(View()), c)
    {
      if c in calls {
        calls := calls[c := calls[c].(attached := true)];
        active := Some(c);
      }
    }

    method ClearDevice(c: T.CallId)
      modifies this`calls, this`active
      ensures View() == T.Detach(old(View()), c)
    {
      if c in calls && calls[c].attached {
        active := None;
        calls := calls[c := calls[c].(attached := false)];
      }
    }

    method RetainTransferee(c: T.CallId)
      modifies this`transferee, this`taken
      ensures View() == T.TakeTransferee(old(View()), c)
    {
      transferee := Some(c);
      taken := taken + multiset{c};
    }

    method RetainTransferer(c: T.CallId)
      modifies this`transferer, this`taken
      ensures View() == T.TakeTransferer(old(View()), c)
    {
      transferer := Some(c);
      taken := taken + multiset{c};
    }

    method ReleaseTransferee()
      modifies this`transferee, this`dropped
      ensures View() == T.DropTransferee(old(View()))
    {
      if transferee.Some? {
        dropped := dropped + multiset{transferee.value};
        transferee := None;
      }
    }

    method ReleaseTransferer()
      modifies this`transferer, this`dropped
      ensures View() == T.DropTransferer(old(View()))
    {
      if transferer.Some? {
        dropped := dropped + multiset{transferer.value};
        transferer := None;
      }
    }

    method GetActiveCall() returns (a: Option<T.CallId>)
      ensures a == T.ActiveCall(View())
    {
      a := active;
      if a.Some? && (a.value !in calls || calls[a.value].state == T.Down) {
        a := None;
      }
    }

    method TransferRelease(c: T.CallId)
      modifies this`transferee, this`transferer, this`dropped
      ensures View() == T.Release(old(View()), c)
    {
      if transferee == Some(c) || transferer == Some(c) {
        ReleaseTransferee();
        ReleaseTransferer();
      }
    }

    method TransferCancel(c: T.CallId)
      modifies this
      ensures View() == T.Cancel(old(View()), c)
    {
      if transferee.None? || transferee.value == c { return; }
      var t := transferee.value;
      SetState(t, T.Hold);
      ClearDevice(t);
      TransferRelease(t);
    }

    method PutOnHold(c: T.CallId) returns (ok: bool)
      modifies this
      ensures View() == T.HoldCall(old(View()), c)
      ensures ok == T.CanHold(old(View()), c)
      ensures calls.Keys == old(calls.Keys) && (!ok ==> View() == old(View()))
    {
      if c !in calls || !calls[c].attached { return false; }
      if !T.Talking(calls[c].state) { return false; }
      SetState(c, T.Hold);
      ClearDevice(c);
      calls := calls[c := calls[c].(aside := true)];
      held := (held + 1) % 256;
      ok := true;
    }

    method HangupCall(c: T.CallId)
      modifies this
      ensures View() == T.Remove(old(View()), c)
    {
      hide T.Cancel, T.Release;
      if c !in calls { return; }
      var onHold := calls[c].state == T.Hold;
      if calls[c].attached { TransferCancel(c); }
      TransferRelease(c);
      if onHold { held := (held + 255) % 256; }
      ClearDevice(c);
      calls := calls - {c};
    }

    method RequestHangup(c: T.CallId, ending: T.Ending)
      modifies this
      ensures View() == T.Ended(old(View()), c, ending)
    {
      if c !in calls || !calls[c].owner { return; }
      match ending
      case Queued =>
      case Immediate => HangupCall(c);
      case HookOnly => if calls[c].attached { SetState(c, T.Down); }
    }

    method EndTheCall(c: T.CallId, ending: T.Ending)
      modifies this
      ensures View() == T.EndCall(old(View()), c, ending)
    {
      if c in calls && calls[c].attached && transferee != Some(c) {
        TransferCancel(c);
      }
      RequestHangup(c, ending);
    }

    method MakeRoom(c: T.CallId, swap: bool, ending: T.Ending) returns (ok: bool)
      modifies this
      ensures ok == T.MakeRoom(old(View()), c, swap, ending).Some?
      ensures View() == if ok then T.MakeRoom(old(View()), c, swap, ending).value else old(View())
    {
      hide T.EndCall, T.HoldCall;
      if !swap { return true; }
      var a := GetActiveCall();
      if a.None? || a.value == c { return true; }
      if T.Unused(calls[a.value].state) {
        EndTheCall(a.value, ending);
        return true;
      }
      ok := PutOnHold(a.value);
    }

    method Resume(c: T.CallId, swap: bool, locked: bool, ending: T.Ending)
      modifies this
      ensures View() == T.ResumeCall(old(View()), c, swap, locked, ending)
    {
      hide T.MakeRoom, T.Restart;
      if c !in calls || !calls[c].owner || !locked { return; }
      var ok := MakeRoom(c, swap, ending);
      if ok { ResumeLocked(c); }
    }

    method ResumeLocked(c: T.CallId)
      modifies this
      ensures View() == T.Restart(old(View()), c)
    {
      hide T.Release, T.HoldCall, T.Reopen;
      if c !in calls { return; }
      if T.Talking(calls[c].state) {
        var ok := PutOnHold(c);
        if !ok { return; }
      }
      if !T.Resumable(calls[c].state) { return; }
      if transferee != Some(c) { TransferRelease(c); }
      Reconnect(c);
    }

    method Reconnect(c: T.CallId)
      requires c in calls
      modifies this
      ensures View() == T.Reopen(old(View()), c)
    {
      SetDevice(c);
      calls := calls[c := calls[c].(state := T.Connected, aside := false)];
      held := (held + 255) % 256;
    }

    method Allocate(n: T.CallId, alloc: T.Alloc) returns (got: Option<T.CallId>)
      modifies this
      ensures (View(), got) == T.Born(old(View()), n, alloc)
    {
      if n in calls || alloc == T.NoMemory { return None; }
      if alloc == T.NoPbx {
        calls := calls[n := T.Call(T.Down, false, false, false, false, false)];
        SetDevice(n);
        return None;
      }
      calls := calls[n := T.Call(T.OffHook, false, true, false, false, false)];
      SetDevice(n);
      got := Some(n);
    }

    method PlaceNewCall(n: T.CallId, alloc: T.Alloc) returns (got: Option<T.CallId>)
      modifies this
      ensures (View(), got) == T.NewCall(old(View()), n, alloc)
    {
      var a := GetActiveCall();
      if a.Some? {
        var call := calls[a.value];
        if call.state == T.OffHook && !call.dialed { return a; }
        if call.attached {
          var ok := PutOnHold(a.value);
          if !ok { return None; }
        }
      }
      got := Allocate(n, alloc);
    }

    method TransferComplete(dest: T.CallId, peer: T.Peer)
      modifies this
      ensures View() == T.Complete(old(View()), dest, peer)
    {
      if dest !in calls || !calls[dest].attached { return; }
      if !T.Reached(calls[dest].state) { return; }
      if transferee.None? { return; }
      var t := transferee.value;
      if !calls[dest].owner || t !in calls || !calls[t].owner { return; }
      if !peer.bridged { return; }
      TransferRelease(t);
      if peer.attended {
        calls := calls[t := calls[t].(aside := false)];
        held := (held + 255) % 256;
      }
    }

    method Transfer(c: T.CallId, n: T.CallId, allowed: bool, alloc: T.Alloc, peer: T.Peer)
      modifies this
      ensures View() == T.TransferCall(old(View()), c, n, allowed, alloc, peer)
    {
      if c !in calls { return; }
      if !calls[c].attached && !(transferee == Some(c) && transferer.Some?) && calls[c].state != T.Hold { return; }
      if !allowed { return; }
      if transferee.Some? && transferer.Some? {
        TransferComplete(transferer.value, peer);
        return;
      }
      if transferee.None? { ReleaseTransferer(); }
      var before := calls[c].state;
      RetainTransferee(c);
      if before != T.OffHook && before != T.Hold && before != T.CallTransfer {
        var ok := PutOnHold(c);
        if !ok {
          ReleaseTransferee();
          return;
        }
      }
      StartConsultation(c, before, n, alloc, peer);
    }

    method StartConsultation(c: T.CallId, before: T.State, n: T.CallId, alloc: T.Alloc, peer: T.Peer)
      modifies this
      ensures View() == T.Consult(old(View()), c, before, n, alloc, peer)
    {
      if c !in calls || !calls[c].owner {
        SetState(c, before);
        ReleaseTransferee();
        return;
      }
      SetState(c, T.CallTransfer);
      var got := PlaceNewCall(n, alloc);
      if got.Some? && peer.bridged {
        RetainTransferer(got.value);
      } else {
        SetState(c, T.Congestion);
        ReleaseTransferee();
      }
    }

    method DirectTransfer(c: T.CallId, d: T.CallId, locked: bool, ending: T.Ending, peer: T.Peer)
      modifies this
      ensures View() == T.JoinCalls(old(View()), c, d, locked, ending, peer)
    {
      if c !in calls || d !in calls || c == d { return; }
      var t, a := c, d;
      if calls[d].state != T.Connected && calls[c].state == T.Connected {
        t, a := d, c;
      } else if calls[c].state == T.Hold && calls[d].state == T.Hold {
        Resume(d, true, locked, ending);
      }
      ReleaseTransferee();
      ReleaseTransferer();
      RetainTransferee(t);
      RetainTransferer(a);
      TransferComplete(a, peer);
    }

    method Answer(c: T.CallId)
      modifies this
      ensures View() == T.AnswerCall(old(View()), c)
    {
      if c !in calls || !calls[c].owner { return; }
      var a := GetActiveCall();
      if a.Some? && a.value != c {
        var ok := PutOnHold(a.value);
        if !ok { return; }
      }
      if calls[c].ringing {
        SetDevice(c);
        calls := calls[c := calls[c].(ringing := false)];
      }
    }

    /** A call that comes in, moves on or loses its Asterisk channel. */
    method Change(e: T.Event)
      requires e.Arrive? || e.Advance? || e.LoseOwner?
      modifies this`calls
      ensures View() == T.Step(old(View()), e)
    {
      match e
      case Arrive(c, waiting) =>
        if c !in calls {
          calls := calls[c := T.Call(if waiting then T.Other else T.Ringing, false, true, false, true, false)];
        }
      case Advance(c, state, dialed) =>
        if c in calls && calls[c].attached && state != T.Hold && state != T.CallTransfer {
          calls := calls[c := calls[c].(state := state, dialed := calls[c].dialed || dialed)];
        }
      case LoseOwner(c) => if c in calls { calls := calls[c := calls[c].(owner := false)]; }
    }

    /** Whatever is pressed, the slots stay both empty or both filled and own just what they hold. */
    method Handle(e: T.Event)
      modifies this
      ensures View() == T.Step(old(View()), e)
      ensures S.WellFormed(old(View())) ==> S.WellFormed(View())
    {
      hide T.HoldCall, T.ResumeCall, T.TransferCall, T.Complete, T.JoinCalls, T.AnswerCall, T.EndCall, T.Remove, T.NewCall;
      hide S.WellFormed;
      ghost var was := View();
      match e {
        case PlaceCall(n, alloc) =>
          var got := PlaceNewCall(n, alloc);
        case PressHold(c) =>
          var ok := PutOnHold(c);
        case PressResume(c, swap, locked, ending) => Resume(c, swap, locked, ending);
        case PressTransfer(c, n, allowed, alloc, peer) => Transfer(c, n, allowed, alloc, peer);
        case TransferOnHook(c, peer) =>
          if c in calls && calls[c].attached && transferee.Some? && transferer == Some(c) { TransferComplete(c, peer); }
        case DirectTransfer(c, d, locked, ending, peer) => DirectTransfer(c, d, locked, ending, peer);
        case PressAnswer(c) => Answer(c);
        case End(c, ending) => EndTheCall(c, ending);
        case Hangup(c) => HangupCall(c);
        case _ => Change(e);
      }
      if S.WellFormed(was) { S.StepKeeps(was, e); }
    }
  }
}
