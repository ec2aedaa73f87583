/** A channel's timers, scheduled, stopped and fired in place as the driver does it. */
module ChannelTimers {
  import T = Timers

  class Scheduler {
    var queue: map<nat, T.Kind>
    var running: set<nat>
    var next: nat
    var digitTimeoutId: int
    var hangupId: int
    var cfwdNoAnswerId: int
    var deny: nat
    var refs: int

    function View(): T.Timers
      reads this
    {
      T.Timers(queue, running, next, digitTimeoutId, hangupId, cfwdNoAnswerId, deny, refs, map[])
    }

    constructor ()
      ensures View() == T.FRESH
    {
      queue, running, next, deny, refs := map[], {}, 0, 0, 0;
      digitTimeoutId, hangupId, cfwdNoAnswerId := T.NEVER, T.NEVER, T.NEVER;
    }

    method Assign(kind: T.Kind, id: int)
      modifies this`digitTimeoutId, this`hangupId, this`cfwdNoAnswerId
      ensures View() == T.SetField(old(View()), kind, id)
    {
      match kind
      case Digit => digitTimeoutId := id;
      case HangUp => hangupId := id;
      case Forward => cfwdNoAnswerId := id;
    }

    method SchedAddRef(kind: T.Kind, ok: bool)
      modifies this
      ensures View() == T.Add(old(View()), kind, ok)
    {
      refs := refs + 1;
      if ok {
        Assign(kind, next);
        queue := queue[next := kind];
        next := next + 1;
      } else {
        Assign(kind, T.NEVER);
        refs := refs - 1;
      }
    }

    method SchedDelRef(kind: T.Kind)
      modifies this
      ensures View() == T.Delete(old(View()), kind)
    {
      var id := T.Field(View(), kind);
      if id > -1 {
        queue := queue - {id};
        refs := refs - 1;
        Assign(kind, T.NEVER);
      }
    }

    method SchedReplaceRef(kind: T.Kind, ok: bool)
      modifies this
      ensures View() == T.Replace(old(View()), kind, ok)
    {
      var id := T.Field(View(), kind);
      if id in queue {
        queue := queue - {id};
        refs := refs - 1;
      }
      SchedAddRef(kind, ok);
    }

    method ScheduleHangup(ok: bool)
      modifies this
      ensures View() == T.Step(old(View()), T.Schedule(T.HangUp, ok))
    {
      if hangupId == T.NEVER && deny == 0 {
        SchedAddRef(T.HangUp, ok);
      }
    }

    method ScheduleDigitTimeout(ok: bool)
      modifies this
      ensures View() == T.Step(old(View()), T.Schedule(T.Digit, ok))
    {
      if hangupId == T.NEVER && deny == 0 {
        if digitTimeoutId == T.NEVER {
          SchedAddRef(T.Digit, ok);
        } else {
          SchedReplaceRef(T.Digit, ok);
        }
      }
    }

    method ScheduleCfwdNoAnswer(ok: bool)
      modifies this
      ensures View() == T.Step(old(View()), T.Schedule(T.Forward, ok))
    {
      if cfwdNoAnswerId == T.NEVER && deny == 0 {
        SchedAddRef(T.Forward, ok);
      }
    }

    method StopSchedule(kind: T.Kind)
      modifies this
      ensures View() == T.Step(old(View()), T.Stop(kind))
    {
      if T.Field(View(), kind) > -1 {
        SchedDelRef(kind);
      }
    }

    method StopAndDenyScheduledTasks()
      modifies this
      ensures View() == T.StopAndDeny(old(View()))
    {
      deny := deny + 1;
      if digitTimeoutId > -1 { SchedDelRef(T.Digit); }
      if hangupId > -1 { SchedDelRef(T.HangUp); }
      if cfwdNoAnswerId > -1 { SchedDelRef(T.Forward); }
    }

    method EndCall()
      modifies this
      ensures View() == T.Step(old(View()), T.Deny)
    {
      if deny == 0 { StopAndDenyScheduledTasks(); }
    }

    /** The scheduler runs the callback of a due timer, and keeps its entry if the result is not zero. */
    method Fire(id: nat, call: T.Call)
      modifies this
      ensures View() == T.Step(old(View()), T.Fire(id, call))
    {
      if id !in queue || id in running { return; }
      running := running + {id};
      var result := 0;
      match queue[id] {
        case Digit =>
          queue := queue - {id};
          if deny == 0 && hangupId == T.NEVER { digitTimeoutId := T.EXPIRED; }
        case HangUp =>
          queue := queue - {id};
          hangupId := T.EXPIRED;
          if deny == 0 { StopAndDenyScheduledTasks(); }
        case Forward =>
          result := ForwardNoAnswer(call);
          if result == 0 { queue := queue - {id}; }
      }
    }

    /** The callback of the forward timer up to its result. */
    method ForwardNoAnswer(call: T.Call) returns (result: int)
      modifies this`cfwdNoAnswerId
      ensures cfwdNoAnswerId == if call.owner && deny == 0 then T.EXPIRED else old(cfwdNoAnswerId)
      ensures result != 0 <==> T.Again(T.Forward, call)
    {
      if !call.owner { return -1; }
      if deny == 0 { cfwdNoAnswerId := T.EXPIRED; }
      if !call.line { return -2; }
      if call.answering { return -3; }
      if call.hangingUp { return -4; }
      result := 0;
    }

    method Finish(id: nat)
      modifies this
      ensures View() == T.Step(old(View()), T.Finish(id))
    {
      if id in running {
        running := running - {id};
        refs := refs - 1;
      }
    }

    /** Whatever comes, every reference is accounted for, and uninterrupted calls never leave two timers of a
      * kind pending, nor any after a denial but one whose callback is to run again. */
    method Handle(e: T.Event)
      requires !e.Check? && !e.Commit?
      modifies this
      ensures View() == T.Step(old(View()), e)
      ensures T.Numbered(old(View())) ==> T.Excess(View()) == T.Excess(old(View())) - T.Lost(old(View()), e)
      ensures T.Uninterrupted(old(View())) ==> T.Uninterrupted(View())
    {
      hide T.Step, T.Lost, T.Excess, T.Numbered, T.Uninterrupted;
      ghost var was := View();
      match e {
        case Schedule(kind, ok) =>
          match kind {
            case Digit => ScheduleDigitTimeout(ok);
            case HangUp => ScheduleHangup(ok);
            case Forward => ScheduleCfwdNoAnswer(ok);
          }
        case Stop(kind) => StopSchedule(kind);
        case Deny => EndCall();
        case Fire(id, call) => Fire(id, call);
        case Finish(id) => Finish(id);
      }
      if T.Numbered(was) { T.StepOwns(was, e); }
      if T.Uninterrupted(was) { T.StepUninterrupted(was, e); }
    }
  }
}
