/** What each step does to the timers of a channel, said in the fields and the queue and nothing else. */
module TimerEffects {
  import opened Timers

  /** The queue without the entry that a field names, if it names one. */
  function Without(queue: map<nat, Kind>, id: int): map<nat, Kind> {
    if id in queue then queue - {id} else queue
  }

  /** A new timer of a kind: its entry takes the place of the one `before` names, if that is still there, and with it its
    * reference. A scheduler that refuses leaves the field as if it was never armed. */
  predicate Armed(s: Timers, s': Timers, kind: Kind, before: int, ok: bool) {
    var field := if ok then s.next else -1;
    && s'.queue == (if ok then Without(s.queue, before)[s.next := kind] else Without(s.queue, before))
    && s'.next == s.next + (if ok then 1 else 0)
    && s'.refs == s.refs - (if before in s.queue then 1 else 0) + (if ok then 1 else 0)
    && s'.digit == (if kind == Digit then field else s.digit)
    && s'.hangup == (if kind == HangUp then field else s.hangup)
    && s'.forward == (if kind == Forward then field else s.forward)
    && s'.running == s.running && s'.deny == s.deny && s'.checked == s.checked
  }

  // ---------------------------------------------------------------------------------------------
  // Scheduling

  /** A digit timer is armed if and only if nothing is denied and no hangup is scheduled. One that is pending is
    * replaced: its entry and its reference go, a new entry with a reference comes. */
  lemma DigitTimerIsRestarted(s: Timers, ok: bool)
    ensures
      var s' := Step(s, Schedule(Digit, ok));
      if s.deny == 0 && s.hangup == -1 then Armed(s, s', Digit, if s.digit == -1 then -1 else s.digit, ok) else s' == s
  {
    assert -1 !in s.queue;
  }

  /** A hangup is scheduled if and only if nothing is denied and none is scheduled. */
  lemma HangupIsScheduled(s: Timers, ok: bool)
    ensures
      var s' := Step(s, Schedule(HangUp, ok));
      if s.deny == 0 && s.hangup == -1 then Armed(s, s', HangUp, -1, ok) else s' == s
  {
    assert -1 !in s.queue;
  }

  /** A forward timer is armed if and only if nothing is denied and it is not armed; a scheduled hangup is no matter. */
  lemma ForwardIsScheduled(s: Timers, ok: bool)
    ensures
      var s' := Step(s, Schedule(Forward, ok));
      if s.deny == 0 && s.forward == -1 then Armed(s, s', Forward, -1, ok) else s' == s
  {
    assert -1 !in s.queue;
  }

  /** The first half of a schedule call passes under the same conditions and changes nothing but that. */
  lemma CheckPasses(s: Timers, t: nat, kind: Kind)
    ensures
      var passes := t !in s.checked && s.deny == 0 && (if kind == Forward then s.forward == -1 else s.hangup == -1);
      Step(s, Check(t, kind)) == if passes then s.(checked := s.checked[t := kind]) else s
  {
  }

  /** The second half arms without testing again, but for the forward timer, which is not armed twice. */
  lemma CommitArms(s: Timers, t: nat, ok: bool)
    requires t in s.checked
    ensures
      var kind := s.checked[t];
      var done := s.(checked := s.checked - {t});
      var s' := Step(s, Commit(t, ok));
      if kind == Forward && s.forward != -1 then s' == done
      else Armed(done, s', kind, if kind == Digit then s.digit else -1, ok)
  {
    assert -1 !in s.queue;
  }

  /** A digit timer that is restarted while nothing speaks against it leaves one entry of its own, the new one. */
  lemma RestartLeavesOne(s: Timers)
    requires s.deny == 0 && s.hangup == -1 && s.digit == -1
    ensures
      var s' := Step(Step(s, Schedule(Digit, true)), Schedule(Digit, true));
      && s'.queue == s.queue[s.next := Digit] - {s.next} + map[s.next + 1 := Digit]
      && s'.digit == s.next + 1 && s'.refs == s.refs + 1
  {
    DigitTimerIsRestarted(s, true);
    var s1 := Step(s, Schedule(Digit, true));
    DigitTimerIsRestarted(s1, true);
    hide Step;
    assert Without(s1.queue, s1.digit)[s1.next := Digit] == s1.queue - {s.next} + map[s.next + 1 := Digit];
  }

  // ---------------------------------------------------------------------------------------------
  // Stopping

  /** Stopping takes back a timer whose field looks pending, entry or not, and a reference with it. */
  lemma StopTakesBack(s: Timers, kind: Kind)
    ensures
      var s' := Step(s, Stop(kind));
      var id := match kind case Digit => s.digit case HangUp => s.hangup case Forward => s.forward;
      if id < 0 then s' == s
      else
        && s'.queue == Without(s.queue, id) && s'.refs == s.refs - 1
        && s'.digit == (if kind == Digit then -1 else s.digit)
        && s'.hangup == (if kind == HangUp then -1 else s.hangup)
        && s'.forward == (if kind == Forward then -1 else s.forward)
        && s'.running == s.running && s'.next == s.next && s'.deny == s.deny && s'.checked == s.checked
  {
    assert forall id: nat :: id !in s.queue ==> s.queue - {id} == s.queue;
  }

  /** All three timers taken back, one after another, and nothing allowed any more. */
  predicate Denied(s: Timers, s': Timers) {
    && s'.deny == s.deny + 1
    && s'.queue == Without(Without(Without(s.queue, s.digit), s.hangup), s.forward)
    && s'.refs == s.refs - (if s.digit >= 0 then 1 else 0) - (if s.hangup >= 0 then 1 else 0)
                  - (if s.forward >= 0 then 1 else 0)
    && s'.digit == (if s.digit >= 0 then -1 else s.digit)
    && s'.hangup == (if s.hangup >= 0 then -1 else s.hangup)
    && s'.forward == (if s.forward >= 0 then -1 else s.forward)
    && s'.running == s.running && s'.next == s.next && s'.checked == s.checked
  }

  lemma DenyingTakesBackAll(s: Timers)
    ensures Denied(s, StopAndDeny(s))
  {
    assert forall queue: map<nat, Kind>, id: nat :: id !in queue ==> queue - {id} == queue;
    assert forall id :: id < 0 ==> id !in s.queue;
  }

  /** The first denial takes back all three; a second one does nothing. */
  lemma DenialTakesBackAll(s: Timers)
    ensures
      var s' := Step(s, Deny);
      if s.deny == 0 then Denied(s, s') else s' == s
  {
    DenyingTakesBackAll(s);
    hide StopAndDeny, Denied;
  }

  // ---------------------------------------------------------------------------------------------
  // Callbacks

  /** A timer fires only if it is due. Its entry goes, unless it is a forward timer that finds no owner or no line, or a
    * call that is being answered or hung up. */
  lemma FiringStarts(s: Timers, id: nat, call: Call)
    ensures id !in s.queue || id in s.running ==> Step(s, Fire(id, call)) == s
    ensures id in s.queue && id !in s.running && s.queue[id] != HangUp ==>
              var s' := Step(s, Fire(id, call));
              var kind := s.queue[id];
              var kept := kind == Forward && (!call.owner || !call.line || call.answering || call.hangingUp);
              && s'.queue == (if kept then s.queue else s.queue - {id})
              && s'.running == s.running + {id}
              && s'.digit == (if kind == Digit && s.deny == 0 && s.hangup == -1 then -3 else s.digit)
              && s'.forward == (if kind == Forward && s.deny == 0 && call.owner then -3 else s.forward)
              && s'.hangup == s.hangup && s'.refs == s.refs && s'.next == s.next && s'.deny == s.deny
              && s'.checked == s.checked
  {
  }

  /** The hangup timer marks itself expired and denies whatever else is pending. */
  lemma FiringHangup(s: Timers, id: nat, call: Call)
    requires id in s.queue && id !in s.running && s.queue[id] == HangUp
    ensures
      var s' := Step(s, Fire(id, call));
      var s1 := s.(queue := s.queue - {id}, running := s.running + {id}, hangup := -3);
      if s.deny == 0 then Denied(s1, s') else s' == s1
  {
    DenyingTakesBackAll(s.(queue := s.queue - {id}, running := s.running + {id}, hangup := -3));
    hide StopAndDeny, Denied;
  }

  /** A callback gives its reference back when it is done, once. */
  lemma FinishingGivesBack(s: Timers, id: nat)
    ensures Step(s, Finish(id)) ==
            if id in s.running then s.(running := s.running - {id}, refs := s.refs - 1) else s
  {
  }
}
