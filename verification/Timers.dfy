/**
 * The three timers of a channel behind its deny counter: digit timeout, delayed hangup and call forward
 * on no answer.  Each has an id field (-1 never armed, -3 expired, otherwise the scheduler's id), and a
 * pending timer owns one counted reference to the channel, which its callback gives up when it is done.  A callback whose result is not zero stays scheduled: the entry is
 * kept, although its reference is gone.
 *
 * A schedule call first tests and then arms.  As one step that is `Schedule`; `Check` and `Commit` are
 * its two halves, between which other threads can run.  A denial, a stop and the part of a callback that
 * touches the timers are one step each.
 */
module Timers {
  datatype Kind = Digit | HangUp | Forward

  /** `queue` holds the entries the scheduler keeps for this channel, `running` the callbacks that have not
    * given up their reference yet, `checked` the threads between the two halves of a schedule call, `refs` the references
    * taken for timers and not yet given up.  Every id the scheduler handed out is below `next`. */
  datatype Timers = Timers(
    queue: map<nat, Kind>,
    running: set<nat>,
    next: nat,
    digit: int,
    hangup: int,
    forward: int,
    deny: nat,
    refs: int,
    checked: map<nat, Kind>)

  /** The call as the callback of its forward timer finds it. */
  datatype Call = Call(owner: bool, line: bool, answering: bool, hangingUp: bool)

  const WAITING: Call := Call(true, true, false, false)

  datatype Event =
    | Schedule(kind: Kind, ok: bool)
    | Check(thread: nat, kind: Kind)
    | Commit(thread: nat, ok: bool)
    | Stop(kind: Kind)
    | Deny
    | Fire(id: nat, call: Call)
    | Finish(id: nat)

  const NEVER := -1
  const EXPIRED := -3

  const FRESH: Timers := Timers(map[], {}, 0, NEVER, NEVER, NEVER, 0, 0, map[])

  function Field(s: Timers, kind: Kind): int {
    match kind
    case Digit => s.digit
    case HangUp => s.hangup
    case Forward => s.forward
  }

  function SetField(s: Timers, kind: Kind, id: int): Timers {
    match kind
    case Digit => s.(digit := id)
    case HangUp => s.(hangup := id)
    case Forward => s.(forward := id)
  }

  // ---------------------------------------------------------------------------------------------
  // The scheduler

  /** Takes a reference for a new timer; if the scheduler refuses, the reference goes back at once. */
  function Add(s: Timers, kind: Kind, ok: bool): Timers {
    if ok then
      SetField(s, kind, s.next).(queue := s.queue[s.next := kind], next := s.next + 1, refs := s.refs + 1)
    else
      SetField(s, kind, NEVER)
  }

  /** Drops a reference whenever the id field looks pending, whether or not its timer still is. */
  function Delete(s: Timers, kind: Kind): Timers {
    var id := Field(s, kind);
    if id > -1 then SetField(s, kind, NEVER).(queue := s.queue - {id}, refs := s.refs - 1) else s
  }

  /** Drops a reference only if the old timer was really pending, and adds the new one. */
  function Replace(s: Timers, kind: Kind, ok: bool): Timers {
    var id := Field(s, kind);
    Add(if id in s.queue then s.(queue := s.queue - {id}, refs := s.refs - 1) else s, kind, ok)
  }

  // ---------------------------------------------------------------------------------------------
  // The channel

  predicate Allowed(s: Timers, kind: Kind) {
    && s.deny == 0
    && (if kind == Forward then s.forward == NEVER else s.hangup == NEVER)
  }

  function Arm(s: Timers, kind: Kind, ok: bool): Timers {
    match kind
    case Digit => if s.digit == NEVER then Add(s, Digit, ok) else Replace(s, Digit, ok)
    case HangUp => Add(s, HangUp, ok)
    case Forward => if s.forward == NEVER then Add(s, Forward, ok) else s
  }

  function StopAndDeny(s: Timers): Timers {
    Delete(Delete(Delete(s.(deny := s.deny + 1), Digit), HangUp), Forward)
  }

  /** Only the callback of the forward timer has results other than zero: for a call without owner or line,
    * or one that is being answered or hung up. */
  predicate Again(kind: Kind, call: Call) {
    kind == Forward && !(call.owner && call.line && !call.answering && !call.hangingUp)
  }

  /** A due timer's callback starts; its entry is kept if it is to run again.  The digit timer marks itself
    * expired only if nothing else is ending the call, the forward timer only if the call has an owner. */
  function Expire(s: Timers, id: nat, kind: Kind, call: Call): Timers {
    var s1 := s.(queue := if Again(kind, call) then s.queue else s.queue - {id}, running := s.running + {id});
    match kind
    case Digit => if s1.deny == 0 && s1.hangup == NEVER then s1.(digit := EXPIRED) else s1
    case HangUp =>
      var s2 := s1.(hangup := EXPIRED);
      if s2.deny == 0 then StopAndDeny(s2) else s2
    case Forward => if call.owner && s1.deny == 0 then s1.(forward := EXPIRED) else s1
  }

  /** An entry that is due and whose callback is not running already. */
  predicate Due(s: Timers, id: nat) {
    id in s.queue && id !in s.running
  }

  function Step(s: Timers, e: Event): Timers {
    match e
    case Schedule(kind, ok) => if Allowed(s, kind) then Arm(s, kind, ok) else s
    case Check(t, kind) =>
      if t !in s.checked && Allowed(s, kind) then s.(checked := s.checked[t := kind]) else s
    case Commit(t, ok) =>
      if t in s.checked then Arm(s, s.checked[t], ok).(checked := s.checked - {t}) else s
    case Stop(kind) => Delete(s, kind)
    case Deny => if s.deny == 0 then StopAndDeny(s) else s
    case Fire(id, call) => if Due(s, id) then Expire(s, id, s.queue[id], call) else s
    case Finish(id) => if id in s.running then s.(running := s.running - {id}, refs := s.refs - 1) else s
  }

  function Run(s: Timers, events: seq<Event>): Timers
    decreases |events|
  {
    if events == [] then s else Run(Step(s, events[0]), events[1..])
  }

  // ---------------------------------------------------------------------------------------------
  // What the fields say about the queue

  /** Ids are below `next`, no two fields share one, and a field that names a kept entry names one of its kind. */
  ghost predicate Numbered(s: Timers) {
    && (forall id :: id in s.queue || id in s.running ==> id < s.next)
    && s.digit < s.next && s.hangup < s.next && s.forward < s.next
    && (s.digit > -1 ==> s.digit != s.hangup && s.digit != s.forward)
    && (s.hangup > -1 ==> s.hangup != s.forward)
    && (s.digit in s.queue ==> s.queue[s.digit] == Digit)
    && (s.hangup in s.queue ==> s.queue[s.hangup] == HangUp)
    && (s.forward in s.queue ==> s.queue[s.forward] == Forward)
  }

  /** A field that looks pending names a kept entry. */
  predicate Known(s: Timers, kind: Kind) {
    Field(s, kind) > -1 ==> Field(s, kind) in s.queue
  }

  predicate Honest(s: Timers) {
    Known(s, Digit) && Known(s, HangUp) && Known(s, Forward)
  }

  /** References taken for timers beyond those that a kept entry or a running callback will give up. */
  function Excess(s: Timers): int {
    s.refs - |s.queue| - |s.running|
  }

  // ---------------------------------------------------------------------------------------------
  // References

  /** What stopping a timer costs: a reference that nothing owns, if the field is not known. */
  function Stray(s: Timers, kind: Kind): nat {
    if Known(s, kind) then 0 else 1
  }

  function StrayOnDeny(s: Timers): nat {
    Stray(s, Digit) + Stray(s, HangUp) + Stray(s, Forward)
  }

  /** The references a step gives up that nothing owns. */
  function Lost(s: Timers, e: Event): nat {
    match e
    case Stop(kind) => Stray(s, kind)
    case Deny => if s.deny == 0 then StrayOnDeny(s) else 0
    case Fire(id, call) =>
      if !Due(s, id) then 0
      else if Again(s.queue[id], call) then 1
      else if s.queue[id] == HangUp && s.deny == 0 then
        StrayOnDeny(s.(queue := s.queue - {id}, hangup := EXPIRED))
      else 0
    case _ => 0
  }

  lemma DeleteNumbered(s: Timers, kind: Kind)
    requires Numbered(s)
    ensures Numbered(Delete(s, kind))
  {
  }

  lemma DeleteOwns(s: Timers, kind: Kind)
    requires Numbered(s)
    ensures Numbered(Delete(s, kind))
    ensures Excess(Delete(s, kind)) == Excess(s) - Stray(s, kind)
    ensures Field(Delete(s, kind), kind) <= -1
    ensures forall k :: k != kind ==> Field(Delete(s, kind), k) == Field(s, k)
  {
    hide Numbered;
    DeleteNumbered(s, kind);
    DeleteCounts(s, kind);
  }

  lemma DeleteCounts(s: Timers, kind: Kind)
    ensures Excess(Delete(s, kind)) == Excess(s) - Stray(s, kind)
  {
    var id := Field(s, kind);
    if id in s.queue {
      QueueShrinks(s.queue, id);
    } else {
      assert s.queue - {id} == s.queue;
    }
  }

  lemma DeleteStrays(s: Timers, kind: Kind, other: Kind)
    requires Numbered(s) && kind != other
    ensures Stray(Delete(s, kind), other) == Stray(s, other)
  {
  }

  lemma AddOwns(s: Timers, kind: Kind, ok: bool)
    requires Numbered(s)
    ensures Numbered(Add(s, kind, ok)) && Excess(Add(s, kind, ok)) == Excess(s)
  {
  }

  lemma ReplaceOwns(s: Timers, kind: Kind, ok: bool)
    requires Numbered(s)
    ensures Numbered(Replace(s, kind, ok)) && Excess(Replace(s, kind, ok)) == Excess(s)
  {
    var id := Field(s, kind);
    var s1 := if id in s.queue then s.(queue := s.queue - {id}, refs := s.refs - 1) else s;
    assert Numbered(s1);
    if id in s.queue { QueueShrinks(s.queue, id); }
    AddOwns(s1, kind, ok);
    hide Numbered;
  }

  lemma DenyOwns(s: Timers)
    requires Numbered(s)
    ensures Numbered(StopAndDeny(s)) && Excess(StopAndDeny(s)) == Excess(s) - StrayOnDeny(s)
  {
    hide Delete, Numbered, StrayOnDeny, Excess;
    DenyCounts(s);
    AllDeletesOwn(s.(deny := s.deny + 1));
  }

  lemma DenyCounts(s: Timers)
    requires Numbered(s)
    ensures
      var s0 := s.(deny := s.deny + 1);
      Numbered(s0) && Excess(s0) == Excess(s) && StrayOnDeny(s0) == StrayOnDeny(s)
  {
  }

  lemma AllDeletesOwn(s: Timers)
    requires Numbered(s)
    ensures
      var s' := Delete(Delete(Delete(s, Digit), HangUp), Forward);
      Numbered(s') && Excess(s') == Excess(s) - StrayOnDeny(s)
  {
    hide Delete, Numbered, Stray, Excess;
    DeleteOwns(s, Digit);
    var s1 := Delete(s, Digit);
    DeleteOwns(s1, HangUp);
    var s2 := Delete(s1, HangUp);
    DeleteOwns(s2, Forward);
    DeleteStrays(s, Digit, HangUp);
    DeleteStrays(s, Digit, Forward);
    DeleteStrays(s1, HangUp, Forward);
  }

  lemma ArmOwns(s: Timers, kind: Kind, ok: bool)
    requires Numbered(s)
    ensures Numbered(Arm(s, kind, ok)) && Excess(Arm(s, kind, ok)) == Excess(s)
  {
    hide Numbered, Excess, Add, Replace;
    AddOwns(s, kind, ok);
    ReplaceOwns(s, kind, ok);
  }

  lemma ExpireOwns(s: Timers, id: nat, call: Call)
    requires Numbered(s) && Due(s, id)
    ensures Numbered(Expire(s, id, s.queue[id], call))
    ensures Excess(Expire(s, id, s.queue[id], call)) == Excess(s) - Lost(s, Fire(id, call))
  {
    var kind := s.queue[id];
    var s1 := s.(queue := if Again(kind, call) then s.queue else s.queue - {id}, running := s.running + {id});
    Starts(s, id, call, s1);
    hide StopAndDeny, Numbered, Excess, StrayOnDeny;
    if kind == HangUp {
      var s2 := s1.(hangup := EXPIRED);
      Marked(s1, s2);
      DenyOwns(s2);
      SameStrays(s2, s.(queue := s.queue - {id}, hangup := EXPIRED));
    } else {
      Marked(s1, Expire(s, id, kind, call));
    }
  }

  lemma SameStrays(s: Timers, s': Timers)
    requires s'.queue == s.queue && s'.digit == s.digit && s'.hangup == s.hangup && s'.forward == s.forward
    ensures StrayOnDeny(s') == StrayOnDeny(s)
  {
  }

  lemma Starts(s: Timers, id: nat, call: Call, s1: Timers)
    requires Numbered(s) && Due(s, id)
    requires s1 == s.(queue := if Again(s.queue[id], call) then s.queue else s.queue - {id}, running := s.running + {id})
    ensures Numbered(s1) && Excess(s1) == Excess(s) - if Again(s.queue[id], call) then 1 else 0
  {
    QueueShrinks(s.queue, id);
  }

  lemma Marked(s: Timers, s': Timers)
    requires Numbered(s)
    requires s' == s || s' == s.(digit := EXPIRED) || s' == s.(hangup := EXPIRED) || s' == s.(forward := EXPIRED)
    ensures Numbered(s') && Excess(s') == Excess(s)
  {
  }

  lemma QueueShrinks(queue: map<nat, Kind>, id: nat)
    requires id in queue
    ensures |queue - {id}| == |queue| - 1
  {
    assert (queue - {id}).Keys == queue.Keys - {id};
  }

  /** Every step keeps the references in balance but for those it loses. */
  lemma StepOwns(s: Timers, e: Event)
    requires Numbered(s)
    ensures Numbered(Step(s, e)) && Excess(Step(s, e)) == Excess(s) - Lost(s, e)
  {
    hide Arm, StopAndDeny, Expire, Delete, StrayOnDeny, Stray;
    match e
    case Schedule(kind, ok) => ArmOwns(s, kind, ok);
    case Check(t, kind) =>
    case Commit(t, ok) => if t in s.checked { ArmOwns(s, s.checked[t], ok); }
    case Stop(kind) => DeleteOwns(s, kind);
    case Deny => DenyOwns(s);
    case Fire(id, call) => if Due(s, id) { ExpireOwns(s, id, call); }
    case Finish(id) => if id in s.running { assert |s.running - {id}| == |s.running| - 1; }
  }

  function LostInAll(s: Timers, events: seq<Event>): nat
    decreases |events|
  {
    if events == [] then 0 else Lost(s, events[0]) + LostInAll(Step(s, events[0]), events[1..])
  }

  predicate NothingLost(s: Timers, events: seq<Event>)
    decreases |events|
  {
    events == [] || (Lost(s, events[0]) == 0 && NothingLost(Step(s, events[0]), events[1..]))
  }

  lemma {:induction false} RunOwns(s: Timers, events: seq<Event>)
    requires Numbered(s)
    ensures Numbered(Run(s, events)) && Excess(Run(s, events)) == Excess(s) - LostInAll(s, events)
    ensures LostInAll(s, events) == 0 <==> NothingLost(s, events)
    decreases |events|
  {
    if events != [] {
      hide Numbered, Step, Excess, Lost;
      StepOwns(s, events[0]);
      RunOwns(Step(s, events[0]), events[1..]);
    }
  }

  /** Over every run, in any interleaving: the references taken for timers and not given up are those that
    * the kept entries and the running callbacks will give up, less one for each reference that a step lost.
    * So they agree exactly if no timer is stopped under an id that is not kept and no forward callback is
    * to run again. */
  lemma TimersOwnTheirReferences(events: seq<Event>)
    ensures
      var s := Run(FRESH, events);
      && s.refs == |s.queue| + |s.running| - LostInAll(FRESH, events)
      && (s.refs == |s.queue| + |s.running| <==> NothingLost(FRESH, events))
  {
    RunOwns(FRESH, events);
  }

  /** A forward timer that is found with a call it does not forward gives up one more reference each time it
    * fires, and stays scheduled. */
  lemma {:induction false} RefusedForwardDropsEachTime(s: Timers, id: nat, call: Call, times: nat)
    requires Numbered(s) && Due(s, id) && Again(s.queue[id], call)
    ensures
      var s' := Run(s, Firings(id, call, times));
      s'.queue == s.queue && s'.running == s.running && s'.refs == s.refs - times
    decreases times
  {
    if times > 0 {
      var s2 := Step(Step(s, Fire(id, call)), Finish(id));
      RefusedOnce(s, id, call);
      hide Step, Numbered, Again;
      RefusedForwardDropsEachTime(s2, id, call, times - 1);
      var rest := Firings(id, call, times - 1);
      var all := Firings(id, call, times);
      assert all[0] == Fire(id, call) && all[1..][0] == Finish(id) && all[1..][1..] == rest;
    }
  }

  lemma RefusedOnce(s: Timers, id: nat, call: Call)
    requires Numbered(s) && Due(s, id) && Again(s.queue[id], call)
    ensures
      var s' := Step(Step(s, Fire(id, call)), Finish(id));
      Numbered(s') && s'.queue == s.queue && s'.running == s.running && s'.refs == s.refs - 1
  {
    assert s.running + {id} - {id} == s.running;
  }

  /** The timer fires and its callback ends, so many times. */
  function Firings(id: nat, call: Call, times: nat): seq<Event> {
    if times == 0 then [] else [Fire(id, call), Finish(id)] + Firings(id, call, times - 1)
  }

  /** The case in a run: the call is being answered when its forward timer fires for the first time.  After the
    * denial the entry is still there, beyond reach, and the references are one short. */
  lemma AnsweredCallKeepsItsForwardTimer()
    ensures
      var answered := Call(true, true, true, false);
      var s := Run(FRESH, [Schedule(Forward, true), Fire(0, answered), Finish(0), Deny, Fire(0, answered)]);
      s.deny == 1 && s.queue == map[0 := Forward] && s.running == {0} && s.refs == 0
  {
    var answered := Call(true, true, true, false);
    var e := [Schedule(Forward, true), Fire(0, answered), Finish(0), Deny, Fire(0, answered)];
    Runs(FRESH, e);
    var s2 := FRESH.(queue := map[0 := Forward], next := 1, forward := EXPIRED, running := {0}, refs := 1);
    assert Step(Step(FRESH, e[0]), e[1]) == s2;
    var s3 := s2.(running := {}, refs := 0);
    assert Step(s2, e[2]) == s3;
    assert Step(s3, e[3]) == s3.(deny := 1);
  }

  // ---------------------------------------------------------------------------------------------
  // Ids that name no timer any more

  /** A timer that fires leaves its id field truthful: the digit timer if no hangup is armed and nothing is
    * denied, the hangup timer always, the forward timer if it stays scheduled or nothing is denied. */
  predicate Clears(s: Timers, kind: Kind, call: Call) {
    match kind
    case Digit => s.deny == 0 && s.hangup == NEVER
    case HangUp => true
    case Forward => Again(Forward, call) || s.deny == 0
  }

  predicate Clean(s: Timers, e: Event) {
    e.Fire? && Due(s, e.id) && Field(s, s.queue[e.id]) == e.id ==> Clears(s, s.queue[e.id], e.call)
  }

  lemma DeleteHonest(s: Timers, kind: Kind)
    requires Numbered(s) && Honest(s)
    ensures Honest(Delete(s, kind))
  {
    var s' := Delete(s, kind);
    forall k: Kind
      ensures Known(s', k)
    {
      assert Known(s, k);
      if k != kind { DeleteStrays(s, kind, k); }
    }
  }

  lemma DenyHonest(s: Timers)
    requires Numbered(s) && Honest(s)
    ensures Honest(StopAndDeny(s))
  {
    hide Delete, Honest, Numbered;
    var s0 := s.(deny := s.deny + 1);
    assert Numbered(s0) by { DenyCounts(s); }
    assert Honest(s0) by { SameFieldsHonest(s, s0); }
    DeleteHonest(s0, Digit);
    DeleteOwns(s0, Digit);
    DeleteHonest(Delete(s0, Digit), HangUp);
    DeleteOwns(Delete(s0, Digit), HangUp);
    DeleteHonest(Delete(Delete(s0, Digit), HangUp), Forward);
  }

  lemma SameFieldsHonest(s: Timers, s': Timers)
    requires Honest(s) && s'.queue == s.queue
    requires s'.digit == s.digit && s'.hangup == s.hangup && s'.forward == s.forward
    ensures Honest(s')
  {
    forall k: Kind
      ensures Known(s', k)
    {
      assert Known(s, k) && Field(s, k) == Field(s', k);
    }
  }

  lemma ArmHonest(s: Timers, kind: Kind, ok: bool)
    requires Numbered(s) && Honest(s)
    ensures Honest(Arm(s, kind, ok))
  {
    var s' := Arm(s, kind, ok);
    forall k: Kind
      ensures Known(s', k)
    {
      assert Known(s, k);
      assert k != kind ==> Field(s, k) == Field(s', k);
    }
  }

  /** Firing leaves every field honest exactly if the fired timer clears its own. */
  lemma ExpireHonest(s: Timers, id: nat, call: Call)
    requires Numbered(s) && Honest(s) && Due(s, id)
    ensures Honest(Expire(s, id, s.queue[id], call)) <==> Clean(s, Fire(id, call))
  {
    var kind := s.queue[id];
    var s' := Expire(s, id, kind, call);
    if kind == HangUp {
      var s2 := s.(queue := s.queue - {id}, running := s.running + {id}, hangup := EXPIRED);
      OthersHonest(s, id, s2);
      DenyHonest(s2);
    } else if Clean(s, Fire(id, call)) {
      forall k: Kind
        ensures Known(s', k)
      {
        assert Known(s, k);
        assert k != kind ==> Field(s, k) == Field(s', k);
      }
    } else {
      assert !Known(s', kind);
    }
  }

  /** With a hangup timer gone from the queue and its field marked, the other fields are as honest as before. */
  lemma OthersHonest(s: Timers, id: nat, s2: Timers)
    requires Numbered(s) && Honest(s) && id in s.queue && s.queue[id] == HangUp
    requires s2 == s.(queue := s.queue - {id}, running := s.running + {id}, hangup := EXPIRED)
    ensures Honest(s2) && Numbered(s2)
  {
    forall kind: Kind
      ensures Known(s2, kind)
    {
      assert Known(s, kind);
    }
  }

  lemma StepHonest(s: Timers, e: Event)
    requires Numbered(s) && Honest(s) && Clean(s, e)
    ensures Honest(Step(s, e))
    ensures Lost(s, e) == if e.Fire? && Due(s, e.id) && Again(s.queue[e.id], e.call) then 1 else 0
  {
    hide Arm, StopAndDeny, Expire, Delete, Clean;
    match e
    case Schedule(kind, ok) => ArmHonest(s, kind, ok);
    case Check(t, kind) => SameFieldsHonest(s, Step(s, e));
    case Commit(t, ok) =>
      if t in s.checked {
        ArmHonest(s, s.checked[t], ok);
        SameFieldsHonest(Arm(s, s.checked[t], ok), Step(s, e));
      }
    case Stop(kind) =>
      DeleteHonest(s, kind);
      assert Known(s, kind);
    case Deny =>
      DenyHonest(s);
      HonestLosesNothing(s);
    case Fire(id, call) =>
      if Due(s, id) {
        ExpireHonest(s, id, call);
        if s.queue[id] == HangUp {
          var s2 := s.(queue := s.queue - {id}, running := s.running + {id}, hangup := EXPIRED);
          OthersHonest(s, id, s2);
          HonestLosesNothing(s2);
          assert StrayOnDeny(s2) == StrayOnDeny(s.(queue := s.queue - {id}, hangup := EXPIRED));
        }
      }
    case Finish(id) => SameFieldsHonest(s, Step(s, e));
  }

  lemma HonestLosesNothing(s: Timers)
    requires Honest(s)
    ensures StrayOnDeny(s) == 0
  {
    assert Known(s, Digit) && Known(s, HangUp) && Known(s, Forward);
  }

  /** Every fired timer clears its field, and every forward callback forwards. */
  predicate AllClean(s: Timers, events: seq<Event>)
    decreases |events|
  {
    events == [] ||
    (&& Clean(s, events[0])
     && (events[0].Fire? && Due(s, events[0].id) ==> !Again(s.queue[events[0].id], events[0].call))
     && AllClean(Step(s, events[0]), events[1..]))
  }

  /** Where every fired timer clears its field and every forward callback forwards, nothing is lost. */
  lemma {:induction false} CleanRunsLoseNothing(s: Timers, events: seq<Event>)
    requires Numbered(s) && Honest(s) && AllClean(s, events)
    ensures NothingLost(s, events) && Honest(Run(s, events))
    decreases |events|
  {
    if events != [] {
      hide Numbered, Honest, Step, Lost, Clean;
      StepOwns(s, events[0]);
      StepHonest(s, events[0]);
      CleanRunsLoseNothing(Step(s, events[0]), events[1..]);
    }
  }

  /** What a timer that fires and is then stopped costs its channel: one reference if it does not clear its
    * field or stays scheduled, none otherwise. */
  lemma StaleFieldOverReleases(s: Timers, id: nat, call: Call)
    requires Numbered(s) && Honest(s) && Due(s, id) && Field(s, s.queue[id]) == id
    ensures
      var s' := Step(Step(s, Fire(id, call)), Stop(s.queue[id]));
      Excess(s') == Excess(s) - (if Clears(s, s.queue[id], call) && !Again(s.queue[id], call) then 0 else 1)
  {
    var kind := s.queue[id];
    var s1 := Expire(s, id, kind, call);
    ExpireOwns(s, id, call);
    DeleteOwns(s1, kind);
    if Clears(s, kind, call) {
      StepHonest(s, Fire(id, call));
      hide Expire, Delete, Excess, Clears;
      assert Known(s1, kind);
    } else {
      hide Delete, Excess;
      assert Field(s1, kind) == id && id !in s1.queue;
    }
  }

  /** The case in a run: the digit timer fires while a hangup is already scheduled. */
  lemma DigitTimeoutDuringHangup()
    ensures
      var s := Run(FRESH, [Schedule(Digit, true), Schedule(HangUp, true), Fire(0, WAITING), Finish(0), Stop(Digit)]);
      s.queue == map[1 := HangUp] && s.running == {} && s.refs == 0
  {
    var s2 := FRESH.(queue := map[0 := Digit, 1 := HangUp], next := 2, digit := 0, hangup := 1, refs := 2);
    assert Step(Step(FRESH, Schedule(Digit, true)), Schedule(HangUp, true)) == s2;
    var s4 := s2.(queue := map[1 := HangUp], refs := 1);
    assert Step(Step(s2, Fire(0, WAITING)), Finish(0)) == s4;
    assert Step(s4, Stop(Digit)) == s4.(digit := NEVER, refs := 0);
    var e := [Schedule(Digit, true), Schedule(HangUp, true), Fire(0, WAITING), Finish(0), Stop(Digit)];
    Runs(FRESH, e);
  }

  lemma Runs(s: Timers, e: seq<Event>)
    ensures |e| == 3 ==> Run(s, e) == Step(Step(Step(s, e[0]), e[1]), e[2])
    ensures |e| == 5 ==> Run(s, e) == Step(Step(Step(Step(Step(s, e[0]), e[1]), e[2]), e[3]), e[4])
  {
    hide Step;
    if |e| == 3 || |e| == 5 {
      var s1 := Step(s, e[0]);
      var s2 := Step(s1, e[1]);
      var s3 := Step(s2, e[2]);
      assert Run(s, e) == Run(s1, e[1..]);
      assert e[1..][1..] == e[2..] && e[2..][1..] == e[3..];
      assert Run(s1, e[1..]) == Run(s2, e[2..]);
      assert Run(s2, e[2..]) == Run(s3, e[3..]);
      if |e| == 5 {
        assert e[3..][1..] == e[4..] && e[4..][1..] == [];
        var s4 := Step(s3, e[3]);
        assert Run(s3, e[3..]) == Run(s4, e[4..]);
        assert Run(s4, e[4..]) == Run(Step(s4, e[4]), []);
      }
    }
  }

  // ---------------------------------------------------------------------------------------------
  // The deny counter

  lemma ArmOnce(s: Timers, kind: Kind, ok: bool)
    ensures Arm(s, kind, ok).next == s.next + if ok && (kind == Forward ==> s.forward == NEVER) then 1 else 0
    ensures Arm(s, kind, ok).deny == s.deny && Arm(s, kind, ok).checked == s.checked
  {
  }

  lemma ExpireArmsNothing(s: Timers, id: nat, kind: Kind, call: Call)
    requires s.deny > 0
    ensures
      var s' := Expire(s, id, kind, call);
      s'.next == s.next && s'.deny == s.deny && s'.checked == s.checked
  {
  }

  lemma DeleteArmsNothing(s: Timers, kind: Kind)
    ensures
      var s' := Delete(s, kind);
      s'.next == s.next && s'.deny == s.deny && s'.checked == s.checked
  {
  }

  /** The second half of a schedule call arms a timer: whatever else happened since the first half, unless it
    * is the forward timer, for which the test is made again. */
  predicate Arms(s: Timers, e: Event) {
    e.Commit? && e.thread in s.checked && e.ok && (s.checked[e.thread] == Forward ==> s.forward == NEVER)
  }

  function Armings(s: Timers, events: seq<Event>): nat
    decreases |events|
  {
    if events == [] then 0 else (if Arms(s, events[0]) then 1 else 0) + Armings(Step(s, events[0]), events[1..])
  }

  lemma StepDenied(s: Timers, e: Event)
    requires s.deny > 0
    ensures Step(s, e).deny > 0
    ensures Step(s, e).next == s.next + if Arms(s, e) then 1 else 0
    ensures (if Arms(s, e) then 1 else 0) <= |s.checked| - |Step(s, e).checked|
  {
    hide Arm, Expire, StopAndDeny, Delete;
    if e.Commit? && e.thread in s.checked {
      ArmOnce(s, s.checked[e.thread], e.ok);
      QueueShrinks(s.checked, e.thread);
    } else if e.Stop? {
      DeleteArmsNothing(s, e.kind);
    } else if e.Fire? && Due(s, e.id) {
      ExpireArmsNothing(s, e.id, s.queue[e.id], e.call);
    }
  }

  /** In any interleaving, the timers armed after a denial are those of the schedule calls that were past
    * their test when it came, and that still arm: so nothing is armed exactly if no such call is completed. */
  lemma {:induction false} DenialStops(s: Timers, events: seq<Event>)
    requires s.deny > 0
    ensures Run(s, events).deny > 0
    ensures Run(s, events).next == s.next + Armings(s, events)
    ensures Armings(s, events) <= |s.checked| - |Run(s, events).checked|
    decreases |events|
  {
    if events != [] {
      hide Step, Arms;
      StepDenied(s, events[0]);
      DenialStops(Step(s, events[0]), events[1..]);
    }
  }

  /** Such a call does arm: with a test that comes before the denial and an arming that comes after. */
  lemma CheckedBeforeDenialArms()
    ensures
      var s := Run(FRESH, [Check(0, HangUp), Deny, Commit(0, true)]);
      s.deny == 1 && s.queue == map[0 := HangUp]
  {
    Runs(FRESH, [Check(0, HangUp), Deny, Commit(0, true)]);
    var s2 := FRESH.(checked := map[0 := HangUp], deny := 1);
    assert Step(Step(FRESH, Check(0, HangUp)), Deny) == s2;
  }

  // ---------------------------------------------------------------------------------------------
  // One timer of a kind

  /** Every kept digit or hangup entry is the one its field names, and so is a forward entry, unless its
    * callback has marked the field and is to run again; there is only one of those. */
  ghost predicate Tracked(s: Timers) {
    && (forall id :: id in s.queue ==>
          Field(s, s.queue[id]) == id || (s.queue[id] == Forward && s.forward == EXPIRED))
    && OneOfAKind(s)
  }

  ghost predicate OneOfAKind(s: Timers) {
    forall i, j :: i in s.queue && j in s.queue && s.queue[i] == s.queue[j] ==> i == j
  }

  /** The second half of a schedule call for a hangup finds no hangup pending. */
  predicate Tracks(s: Timers, e: Event) {
    e.Commit? && e.thread in s.checked && s.checked[e.thread] == HangUp ==> s.hangup !in s.queue
  }

  lemma DeleteTracked(s: Timers, kind: Kind)
    requires Numbered(s) && Tracked(s)
    ensures Tracked(Delete(s, kind))
    ensures forall id :: id in Delete(s, kind).queue <==> id in s.queue && Field(s, kind) != id
    ensures forall id :: id in Delete(s, kind).queue ==> Delete(s, kind).queue[id] == s.queue[id]
    ensures Delete(s, kind).checked == s.checked && Delete(s, kind).deny == s.deny
    ensures Delete(s, kind).running == s.running
    ensures Field(s, kind) <= -1 ==> Delete(s, kind) == s
  {
    var s' := Delete(s, kind);
    forall id | id in s'.queue
      ensures Field(s', s'.queue[id]) == id || (s'.queue[id] == Forward && s'.forward == EXPIRED)
    {
      assert Field(s, s.queue[id]) == id || (s.queue[id] == Forward && s.forward == EXPIRED);
    }
  }

  /** A denial empties the queue, but for a forward entry that is beyond its field. */
  lemma DenyEmpties(s: Timers)
    requires Numbered(s) && Tracked(s)
    ensures Numbered(StopAndDeny(s)) && Tracked(StopAndDeny(s)) && Emptied(s, StopAndDeny(s))
  {
    hide Delete, Numbered, Tracked, Excess, StrayOnDeny, Emptied;
    var s0 := s.(deny := s.deny + 1);
    DenyCounts(s);
    DenyTracks(s, Delete(Delete(Delete(s0, Digit), HangUp), Forward));
    DeletesEmpty(s0);
  }

  lemma DenyTracks(s: Timers, s': Timers)
    ensures
      var s0 := s.(deny := s.deny + 1);
      (Tracked(s0) <==> Tracked(s)) && (Emptied(s0, s') <==> Emptied(s, s'))
  {
  }

  ghost predicate Emptied(s: Timers, s': Timers) {
    && (forall id :: id in s'.queue <==> id in s.queue && s.queue[id] == Forward && s.forward == EXPIRED)
    && (forall id :: id in s'.queue ==> s'.queue[id] == Forward && s'.forward == EXPIRED)
    && s'.checked == s.checked && s'.running == s.running
  }

  lemma DeletesEmpty(s: Timers)
    requires Numbered(s) && Tracked(s)
    ensures
      var s' := Delete(Delete(Delete(s, Digit), HangUp), Forward);
      Numbered(s') && Tracked(s') && Emptied(s, s')
  {
    hide Delete, Numbered, Tracked, Excess, Stray;
    DeleteOwns(s, Digit);
    DeleteTracked(s, Digit);
    var s1 := Delete(s, Digit);
    DeleteOwns(s1, HangUp);
    DeleteTracked(s1, HangUp);
    var s2 := Delete(s1, HangUp);
    DeleteNumbered(s2, Forward);
    DeleteTracked(s2, Forward);
    AfterDeletes(s, s1, s2, Delete(s2, Forward));
  }

  lemma AfterDeletes(s0: Timers, s1: Timers, s2: Timers, s3: Timers)
    requires Numbered(s0) && Tracked(s0)
    requires forall id :: id in s1.queue <==> id in s0.queue && s0.digit != id
    requires forall id :: id in s2.queue <==> id in s1.queue && s0.hangup != id
    requires forall id :: id in s3.queue <==> id in s2.queue && s0.forward != id
    requires forall id :: id in s1.queue ==> s1.queue[id] == s0.queue[id]
    requires forall id :: id in s2.queue ==> s2.queue[id] == s1.queue[id]
    requires forall id :: id in s3.queue ==> s3.queue[id] == s2.queue[id]
    ensures forall id :: id in s3.queue <==> id in s0.queue && s0.queue[id] == Forward && s0.forward == EXPIRED
    ensures forall id :: id in s3.queue ==> s3.queue[id] == Forward
  {
  }

  lemma ArmTracked(s: Timers, kind: Kind, ok: bool)
    requires Numbered(s) && Tracked(s)
    ensures Tracked(Arm(s, kind, ok)) <==> (kind == HangUp ==> s.hangup !in s.queue)
    ensures Arm(s, kind, ok).deny == s.deny && Arm(s, kind, ok).checked == s.checked
  {
    hide Tracked;
    match kind
    case Digit => ReplaceTracked(s, ok);
    case HangUp =>
      if s.hangup in s.queue {
        ArmedOver(s, ok);
      } else {
        AddTracked(s, HangUp, ok);
      }
    case Forward => if s.forward == NEVER { AddTracked(s, Forward, ok); }
  }

  lemma ArmedOver(s: Timers, ok: bool)
    requires Numbered(s) && s.hangup in s.queue
    ensures !Tracked(Add(s, HangUp, ok))
  {
    var s' := Add(s, HangUp, ok);
    assert s'.queue[s.hangup] == HangUp && s'.hangup != s.hangup;
  }

  lemma ReplaceTracked(s: Timers, ok: bool)
    requires Numbered(s) && Tracked(s)
    ensures Tracked(Arm(s, Digit, ok))
  {
    hide Add, Numbered, Tracked;
    var s1 := if s.digit in s.queue then s.(queue := s.queue - {s.digit}, refs := s.refs - 1) else s;
    WithoutTracked(s, s1, Digit);
    AddTracked(s1, Digit, ok);
  }

  lemma WithoutTracked(s: Timers, s1: Timers, kind: Kind)
    requires Numbered(s) && Tracked(s)
    requires s1 == if Field(s, kind) in s.queue then s.(queue := s.queue - {Field(s, kind)}, refs := s.refs - 1) else s
    ensures Numbered(s1) && Tracked(s1) && Field(s1, kind) !in s1.queue
  {
  }

  lemma AddTracked(s: Timers, kind: Kind, ok: bool)
    requires Numbered(s) && Tracked(s) && Field(s, kind) !in s.queue
    requires kind == Forward ==> s.forward == NEVER
    ensures Tracked(Add(s, kind, ok))
  {
    var s' := Add(s, kind, ok);
    forall id | id in s'.queue
      ensures Field(s', s'.queue[id]) == id || (s'.queue[id] == Forward && s'.forward == EXPIRED)
    {
    }
    assert kind !in s.queue.Values;
  }

  lemma ExpireTracked(s: Timers, id: nat, call: Call)
    requires Numbered(s) && Tracked(s) && Due(s, id)
    ensures
      var s' := Expire(s, id, s.queue[id], call);
      && Tracked(s') && s'.checked == s.checked
      && (s'.deny > 0 && s.deny == 0 ==>
            forall i :: i in s'.queue ==> s'.queue[i] == Forward && s'.forward == EXPIRED)
  {
    if s.queue[id] == HangUp {
      var s2 := s.(queue := s.queue - {id}, running := s.running + {id}, hangup := EXPIRED);
      assert Numbered(s2);
      assert Tracked(s2);
      DenyEmpties(s2);
    }
    hide StopAndDeny;
  }

  /** A step keeps every timer within reach of its field exactly if it arms no hangup over a pending one. */
  lemma StepTracked(s: Timers, e: Event)
    requires Numbered(s) && Tracked(s)
    ensures Tracked(Step(s, e)) <==> Tracks(s, e)
  {
    hide Arm, StopAndDeny, Expire, Delete, Numbered;
    match e
    case Schedule(kind, ok) =>
      if Allowed(s, kind) { ArmTracked(s, kind, ok); }
    case Check(t, kind) =>
    case Commit(t, ok) =>
      if t in s.checked {
        ArmTracked(s, s.checked[t], ok);
        SameTracked(Arm(s, s.checked[t], ok), Step(s, e));
      }
    case Stop(kind) => DeleteTracked(s, kind);
    case Deny => if s.deny == 0 { DenyEmpties(s); }
    case Fire(id, call) => if Due(s, id) { ExpireTracked(s, id, call); }
    case Finish(id) =>
  }

  lemma SameTracked(s: Timers, s': Timers)
    requires s' == s.(checked := s'.checked)
    ensures Tracked(s') <==> Tracked(s)
  {
  }

  ghost predicate AlwaysTracked(s: Timers, events: seq<Event>)
    decreases |events|
  {
    Tracked(s) && (events == [] || AlwaysTracked(Step(s, events[0]), events[1..]))
  }

  predicate AllTrack(s: Timers, events: seq<Event>)
    decreases |events|
  {
    events == [] || (Tracks(s, events[0]) && AllTrack(Step(s, events[0]), events[1..]))
  }

  lemma {:induction false} TrackedAlong(s: Timers, events: seq<Event>)
    requires Numbered(s) && Tracked(s)
    ensures AlwaysTracked(s, events) <==> AllTrack(s, events)
    ensures AllTrack(s, events) ==> Numbered(Run(s, events)) && Tracked(Run(s, events))
    decreases |events|
  {
    if events != [] {
      hide Numbered, Tracked, Step, Tracks;
      StepOwns(s, events[0]);
      StepTracked(s, events[0]);
      if Tracks(s, events[0]) { TrackedAlong(Step(s, events[0]), events[1..]); }
    }
  }

  /** Over every run, in any interleaving: all along every timer is within reach of its field, so that there is
    * at most one of a kind, exactly if no schedule call arms a hangup over a pending one. */
  lemma OneOfAKindUnlessArmedOver(events: seq<Event>)
    ensures AlwaysTracked(FRESH, events) <==> AllTrack(FRESH, events)
    ensures AllTrack(FRESH, events) ==> OneOfAKind(Run(FRESH, events))
  {
    TrackedAlong(FRESH, events);
  }

  /** Two interrupted calls can leave two hangups pending, the first of them beyond anyone's reach. */
  lemma TwoHangupsPending()
    ensures
      var s := Run(FRESH, [Check(0, HangUp), Check(1, HangUp), Commit(0, true), Commit(1, true), Deny]);
      s.deny == 1 && s.queue == map[0 := HangUp]
  {
    var e := [Check(0, HangUp), Check(1, HangUp), Commit(0, true), Commit(1, true), Deny];
    Runs(FRESH, e);
    var s2 := FRESH.(checked := map[0 := HangUp, 1 := HangUp]);
    assert Step(Step(FRESH, e[0]), e[1]) == s2;
    var s3 := s2.(checked := map[1 := HangUp], queue := map[0 := HangUp], next := 1, hangup := 0, refs := 1);
    assert Step(s2, e[2]) == s3;
    var s4 := s3.(checked := map[], queue := map[0 := HangUp, 1 := HangUp], next := 2, hangup := 1, refs := 2);
    assert Step(s3, e[3]) == s4;
  }

  /** Schedule calls that nothing interrupts. */
  predicate Whole(events: seq<Event>) {
    forall i :: 0 <= i < |events| ==> !events[i].Check? && !events[i].Commit?
  }

  /** Only a forward entry whose callback is to run again, with its field marked. */
  ghost predicate OnlyLeftover(s: Timers) {
    forall id :: id in s.queue ==> s.queue[id] == Forward && s.forward == EXPIRED
  }

  ghost predicate Uninterrupted(s: Timers) {
    Numbered(s) && Tracked(s) && s.checked == map[] && (s.deny > 0 ==> OnlyLeftover(s))
  }

  lemma StepUninterrupted(s: Timers, e: Event)
    requires Uninterrupted(s) && !e.Check? && !e.Commit?
    ensures Uninterrupted(Step(s, e))
    ensures s.deny > 0 ==> Step(s, e).next == s.next && Step(s, e).deny > 0
    ensures s.deny > 0 ==> Step(s, e).queue == if Leaves(s, e) then s.queue - {e.id} else s.queue
  {
    StepOwns(s, e);
    StepTracked(s, e);
    if s.deny > 0 {
      StepDenied(s, e);
      StepLeftover(s, e);
    }
    hide Arm, StopAndDeny, Expire, Delete, Numbered, Tracked;
    match e
    case Schedule(kind, ok) => ArmOnce(s, kind, ok);
    case Stop(kind) => DeleteArmsNothing(s, kind);
    case Deny => if s.deny == 0 { DenyEmpties(s); }
    case Fire(id, call) => if Due(s, id) { ExpireTracked(s, id, call); }
    case Finish(id) =>
  }

  /** The callback of a due entry forwards the call, or finds nothing to do for good. */
  predicate Leaves(s: Timers, e: Event) {
    e.Fire? && Due(s, e.id) && !Again(s.queue[e.id], e.call)
  }

  lemma StepLeftover(s: Timers, e: Event)
    requires Numbered(s) && OnlyLeftover(s) && s.deny > 0 && !e.Check? && !e.Commit?
    ensures OnlyLeftover(Step(s, e))
    ensures Step(s, e).queue == if Leaves(s, e) then s.queue - {e.id} else s.queue
  {
    if e.Stop? {
      var id := Field(s, e.kind);
      assert id > -1 ==> id !in s.queue;
      assert id > -1 ==> s.queue - {id} == s.queue;
    }
  }

  lemma {:induction false} RunUninterrupted(s: Timers, events: seq<Event>)
    requires Uninterrupted(s) && Whole(events)
    ensures Uninterrupted(Run(s, events))
    ensures s.deny > 0 ==> Run(s, events).next == s.next && Run(s, events).deny > 0
    ensures s.deny > 0 ==> Run(s, events).queue.Keys <= s.queue.Keys
    ensures s.deny > 0 && |s.queue| > 0 && Run(s, events).queue == map[] ==> SomeLeaves(s, events)
    ensures s.deny > 0 && s.queue != map[] && SomeLeaves(s, events) ==> Run(s, events).queue == map[]
    decreases |events|
  {
    if events != [] {
      StepUninterrupted(s, events[0]);
      if s.deny > 0 && Leaves(s, events[0]) { OnlyOne(s, events[0].id); }
      hide Uninterrupted, Step, Leaves;
      RunUninterrupted(Step(s, events[0]), events[1..]);
    }
  }

  lemma OnlyOne(s: Timers, id: nat)
    requires Uninterrupted(s) && s.deny > 0 && id in s.queue
    ensures s.queue - {id} == map[]
  {
  }

  predicate SomeLeaves(s: Timers, events: seq<Event>)
    decreases |events|
  {
    events != [] && (Leaves(s, events[0]) || SomeLeaves(Step(s, events[0]), events[1..]))
  }

  /** With uninterrupted schedule calls, at most one timer of a kind is ever pending.  From the denial on
    * nothing is armed, whatever happens next, and nothing is pending except a forward entry whose callback
    * marked its field and is to run again: that one is gone exactly once its callback forwards. */
  lemma OneOfAKindAndNoneDenied(events: seq<Event>, more: seq<Event>)
    requires Whole(events) && Whole(more)
    ensures
      var s := Run(FRESH, events);
      && OneOfAKind(s)
      && (s.deny > 0 ==>
            && Run(s, more).next == s.next
            && Run(s, more).queue.Keys <= s.queue.Keys
            && (forall id :: id in s.queue ==> s.queue[id] == Forward && s.forward == EXPIRED)
            && (Run(s, more).queue == map[] <==> s.queue == map[] || SomeLeaves(s, more)))
  {
    RunUninterrupted(FRESH, events);
    RunUninterrupted(Run(FRESH, events), more);
  }

  /** The mark of an expired digit timer does not prevent the next one from being armed. */
  lemma ExpiredDigitTimerIsArmedAgain()
    ensures
      var s := Run(FRESH, [Schedule(Digit, true), Fire(0, WAITING), Schedule(Digit, true)]);
      s.queue == map[1 := Digit] && s.digit == 1
  {
    var e := [Schedule(Digit, true), Fire(0, WAITING), Schedule(Digit, true)];
    Runs(FRESH, e);
    var s1 := FRESH.(queue := map[0 := Digit], next := 1, digit := 0, refs := 1);
    assert Step(FRESH, e[0]) == s1;
    assert Step(s1, e[1]) == s1.(queue := map[], running := {0}, digit := EXPIRED);
  }
}
