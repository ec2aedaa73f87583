/**
 * The count of the calls on hold over whole runs: exactly when an event keeps it right, a discipline that
 * does so over every run, and three short runs that show how it is lost otherwise.
 */
module HeldRuns {
  import opened Common
  import opened TransferHold
  import opened TransferSlots
  import opened HeldCalls
  import opened HeldSteps

  predicate Alone(active: Option<CallId>, c: CallId, call: Call) {
    && (call.attached ==> active == Some(c) && call.state != Down && !call.ringing)
    && (call.ringing ==> !call.aside && call.state != Hold && call.state != Down)
    && call.state != CallConference
  }

  /** The call with the device is the active one, and only a call that is not yet answered rings. */
  ghost predicate Solo(s: Phone) {
    forall c :: c in s.calls ==> Alone(s.active, c, s.calls[c])
  }

  /** The transferee is aside or has been resumed, and it is aside and waiting for its transfer as long
    * as the consultation call has the device; that call is one the user placed. */
  ghost predicate Linked(s: Phone) {
    && (s.transferee.Some? && s.transferee.value in s.calls ==>
          s.calls[s.transferee.value].aside || s.calls[s.transferee.value].attached)
    && (s.transferee.Some? && s.transferer.Some? && IsAttached(s, s.transferer.value) ==>
          s.transferee.value in s.calls
          && s.calls[s.transferee.value].aside && s.calls[s.transferee.value].state == CallTransfer)
    && (s.transferer.Some? && s.transferer.value in s.calls ==> !s.calls[s.transferer.value].ringing)
  }

  /** All of this but what concerns the references of the slots. */
  ghost predicate Counted(s: Phone) {
    Sound(s) && Present(s) && Solo(s) && Linked(s)
  }

  ghost predicate Orderly(s: Phone) {
    WellFormed(s) && Counted(s)
  }

  /** When an event keeps the count right. */
  predicate Fits(s: Phone, e: Event) {
    match e
    case PressResume(c, swap, locked, ending) => ResumeFits(s, c, swap, locked, ending)
    case DirectTransfer(c, d, locked, ending, peer) => JoinFits(s, c, d, locked, ending, peer)
    case End(c, ending) => EndFits(s, c, ending)
    case Hangup(c) => c in s.calls && s.calls[c].aside ==> s.calls[c].state == Hold
    case _ => true
  }

  /** A resume swaps out a call that has the device, and hangs it up at once if it is unused; a transferred
    * call is not resumed. */
  predicate ResumesOrderly(s: Phone, c: CallId, swap: bool, ending: Ending) {
    && (c in s.calls && s.calls[c].state == CallTransfer ==> s.calls[c].aside)
    && (s.active.Some? && s.active.value != c && s.active.value in s.calls ==>
          swap && (Unused(s.calls[s.active.value].state) ==> ending == Immediate && s.calls[s.active.value].owner))
  }

  /** Two calls are joined at once and without miscounting, or stay staged like a transfer of the user's. */
  predicate StagesOrderly(s: Phone, t: CallId, a: CallId, peer: Peer) {
    t in s.calls && a in s.calls ==>
      if Completes(s, t, a, peer) then StageBothFits(s, t, a, peer)
      else
        && (s.calls[t].aside || s.calls[t].attached) && !s.calls[a].ringing
        && (s.calls[a].attached ==> s.calls[t].aside && s.calls[t].state == CallTransfer)
  }

  predicate JoinsOrderly(s: Phone, c: CallId, d: CallId, locked: bool, ending: Ending, peer: Peer) {
    c in s.calls && d in s.calls && c != d ==>
      if s.calls[d].state != Connected && s.calls[c].state == Connected then StagesOrderly(s, d, c, peer)
      else if s.calls[c].state == Hold && s.calls[d].state == Hold then
        ResumesOrderly(s, d, true, ending) && StagesOrderly(ResumeCall(s, d, true, locked, ending), c, d, peer)
      else
        StagesOrderly(s, c, d, peer)
  }

  /** What a user and Asterisk must do for the count to stay right whatever comes next: besides all this, a call
    * put aside is hung up only from HOLD, calls go down only by being hung up, and a new call that fails
    * leaves no remains. */
  predicate Disciplined(s: Phone, e: Event) {
    match e
    case Advance(_, state, _) => state != Down && state != CallConference
    case PlaceCall(_, alloc) => alloc != NoPbx
    case PressTransfer(_, _, _, alloc, _) => alloc != NoPbx
    case PressResume(c, swap, _, ending) => ResumesOrderly(s, c, swap, ending)
    case DirectTransfer(c, d, locked, ending, peer) => JoinsOrderly(s, c, d, locked, ending, peer)
    case End(c, ending) =>
      ending == Queued || (ending == Immediate && (c in s.calls && s.calls[c].aside ==> s.calls[c].state == Hold))
    case Hangup(c) => c in s.calls && s.calls[c].aside ==> s.calls[c].state == Hold
    case _ => true
  }

  predicate AllDisciplined(s: Phone, events: seq<Event>)
    decreases |events|
  {
    events == [] || (Disciplined(s, events[0]) && AllDisciplined(Step(s, events[0]), events[1..]))
  }

  lemma HoldOrderly(s: Phone, c: CallId)
    requires Orderly(s)
    ensures Orderly(HoldCall(s, c))
    ensures CanHold(s, c) ==> forall x :: x in HoldCall(s, c).calls ==> !HoldCall(s, c).calls[x].attached
    ensures CanHold(s, c) ==> HoldCall(s, c).calls[c].aside && HoldCall(s, c).calls[c].state == Hold
  {
    HoldCounts(s, c);
    HoldKeeps(s, c);
    SlotsKeptKeeps(s, HoldCall(s, c));
    hide WellFormed, Sound, Present;
    if CanHold(s, c) {
      var s' := HoldCall(s, c);
      assert s'.calls == s.calls[c := s.calls[c].(state := Hold, attached := false, aside := true)];
    }
  }

  /** A transfer is only ever cancelled while its transferee is aside. */
  lemma CancelOrderly(s: Phone, c: CallId)
    requires Orderly(s) && IsAttached(s, c)
    ensures CancelFits(s, c)
    ensures Orderly(Cancel(s, c))
    ensures Cancel(s, c).active == s.active && Cancel(s, c).calls.Keys == s.calls.Keys
    ensures Cancel(s, c).calls[c] == s.calls[c]
  {
    CancelCounts(s, c);
    CancelKeeps(s, c);
    CancelSolo(s, c);
  }

  lemma CancelSolo(s: Phone, c: CallId)
    requires WellFormed(s) && Present(s) && Solo(s) && Linked(s) && IsAttached(s, c)
    ensures CancelFits(s, c)
    ensures Solo(Cancel(s, c)) && Linked(Cancel(s, c)) && Cancel(s, c).active == s.active
  {
    if s.transferee.Some? && s.transferee.value != c {
      var t := s.transferee.value;
      assert !s.calls[t].attached && s.calls[t].aside;
      var s1 := Indicate(s, t, Hold);
      assert Detach(s1, t) == s1;
      ParkKeeps(s, t);
      ReleaseKeeps(s1, t);
      hide Release, WellFormed, Present;
    }
  }

  lemma LeaveSolo(s: Phone, c: CallId)
    requires WellFormed(s) && Solo(s) && Linked(s)
    ensures Solo(Leave(s, c)) && Linked(Leave(s, c))
    ensures IsAttached(s, c) ==> forall x :: x in Leave(s, c).calls ==> !Leave(s, c).calls[x].attached
  {
    ReleaseKeeps(s, c);
    LeaveSlots(s, c);
    var s1 := Release(s, c);
    hide Release, WellFormed;
    LeftSolo(s1, c);
  }

  lemma LeftSolo(s: Phone, c: CallId)
    requires Solo(s) && Linked(s) && s.transferee != Some(c) && s.transferer != Some(c)
    ensures
      var d := Detach(s, c);
      var s' := d.(calls := d.calls - {c});
      && Solo(s') && Linked(s')
      && (IsAttached(s, c) ==> forall x :: x in s'.calls ==> !s'.calls[x].attached)
  {
    var d := Detach(s, c);
    var s' := d.(calls := d.calls - {c});
    forall x | x in s'.calls
      ensures Alone(s'.active, x, s'.calls[x]) && (IsAttached(s, c) ==> !s'.calls[x].attached)
    {
      assert s'.calls[x] == s.calls[x] && Alone(s.active, x, s.calls[x]);
    }
    hide Detach, Alone;
    assert forall x :: x in s'.calls <==> x in s.calls && x != c;
    assert forall x :: x in s'.calls ==> s'.calls[x] == s.calls[x];
  }

  lemma LeaveSlots(s: Phone, c: CallId)
    ensures
      || (Release(s, c).transferee == s.transferee && Release(s, c).transferer == s.transferer)
      || (Release(s, c).transferee == None && Release(s, c).transferer == None)
  {
  }

  lemma RemoveOrderly(s: Phone, c: CallId)
    requires Orderly(s) && c in s.calls && (s.calls[c].aside ==> s.calls[c].state == Hold)
    ensures Orderly(Remove(s, c))
    ensures IsAttached(s, c) ==> forall x :: x in Remove(s, c).calls ==> !Remove(s, c).calls[x].attached
    ensures Remove(s, c).calls.Keys == s.calls.Keys - {c}
  {
    hide Cancel, Leave, WellFormed, Sound, Present, CancelFits;
    RemoveCounts(s, c);
    RemoveKeeps(s, c);
    if IsAttached(s, c) {
      CancelOrderly(s, c);
      LeaveSolo(Cancel(s, c), c);
    } else {
      LeaveSolo(s, c);
    }
  }

  lemma EndOrderly(s: Phone, c: CallId, ending: Ending)
    requires Orderly(s) && Disciplined(s, End(c, ending))
    ensures Orderly(EndCall(s, c, ending))
    ensures IsAttached(s, c) && s.calls[c].owner && ending == Immediate ==>
              forall x :: x in EndCall(s, c, ending).calls ==> !EndCall(s, c, ending).calls[x].attached
  {
    hide Cancel, Remove, Orderly;
    var s1 := if IsAttached(s, c) && s.transferee != Some(c) then Cancel(s, c) else s;
    if IsAttached(s, c) && s.transferee != Some(c) {
      CancelOrderly(s, c);
    }
    if c in s1.calls && ending == Immediate {
      RemoveOrderly(s1, c);
    }
  }

  /** After making room no call but the one to resume has the device. */
  lemma MakeRoomOrderly(s: Phone, c: CallId, swap: bool, ending: Ending)
    requires Orderly(s) && ResumesOrderly(s, c, swap, ending) && c in s.calls
    ensures
      var room := MakeRoom(s, c, swap, ending);
      room.Some? ==>
        && Orderly(room.value)
        && c in room.value.calls
        && (forall x :: x in room.value.calls && room.value.calls[x].attached ==> x == c)
        && (room.value.calls[c].state == CallTransfer ==> room.value.calls[c].aside)
  {
    var a := ActiveCall(s);
    hide EndCall, HoldCall, WellFormed, Sound, Present, Linked;
    if a.Some? && a.value != c {
      ActiveIsAttached(s);
      if Unused(s.calls[a.value].state) {
        EndOrderly(s, a.value, ending);
        EndKeeps(s, a.value, ending);
        EndState(s, a.value, c, ending);
      } else {
        HoldOrderly(s, a.value);
        HoldOthers(s, a.value, c);
      }
    }
  }

  lemma ReopenSolo(s: Phone, c: CallId)
    requires Solo(s) && Present(s) && c in s.calls && s.calls[c].aside
    requires forall x :: x in s.calls && s.calls[x].attached ==> x == c
    requires Linked(s) && s.transferer != Some(c)
    ensures Solo(Reopen(s, c)) && Linked(Reopen(s, c))
  {
    hide Present;
    var s' := Reopen(s, c);
    assert s'.calls == s.calls[c := s.calls[c].(attached := true, state := Connected, aside := false)];
  }

  lemma ResumedOrderly(s: Phone, c: CallId)
    requires Orderly(s) && c in s.calls && s.calls[c].aside
    requires forall x :: x in s.calls && s.calls[x].attached ==> x == c
    ensures Orderly(Resumed(s, c))
  {
    ResumedCounts(s, c);
    ResumedKeeps(s, c);
    ReleaseKeeps(s, c);
    LeaveSlots(s, c);
    hide Release, Reopen, Sound, Present;
    assert s.transferee == Some(c) ==> s.transferer != Some(c);
    hide WellFormed;
    var s1 := if s.transferee != Some(c) then Release(s, c) else s;
    assert Present(s1) by { PresentKept(s, s1); }
    ReopenSolo(s1, c);
  }

  lemma PresentKept(s: Phone, s': Phone)
    requires Present(s) && s'.calls == s.calls
    ensures Present(s')
  {
  }

  lemma RestartOrderly(s: Phone, c: CallId)
    requires Orderly(s) && c in s.calls
    requires forall x :: x in s.calls && s.calls[x].attached ==> x == c
    requires s.calls[c].state == CallTransfer ==> s.calls[c].aside
    ensures Orderly(Restart(s, c))
  {
    HoldOrderly(s, c);
    var s1 := if Talking(s.calls[c].state) then HoldCall(s, c) else s;
    hide Resumed, HoldCall, WellFormed, Balanced, Present, Linked;
    if (Talking(s.calls[c].state) ==> CanHold(s, c)) && Resumable(s1.calls[c].state) {
      ResumedOrderly(s1, c);
    }
  }

  lemma ResumeOrderly(s: Phone, c: CallId, swap: bool, locked: bool, ending: Ending)
    requires Orderly(s) && ResumesOrderly(s, c, swap, ending)
    ensures Orderly(ResumeCall(s, c, swap, locked, ending))
  {
    hide MakeRoom, Restart, Orderly;
    if c in s.calls {
      MakeRoomOrderly(s, c, swap, ending);
      var room := MakeRoom(s, c, swap, ending);
      if room.Some? {
        RestartOrderly(room.value, c);
      }
    }
  }

  // ---------------------------------------------------------------------------------------------
  // New calls and transfers

  /** No call has the device. */
  ghost predicate Idle(s: Phone) {
    forall x :: x in s.calls ==> !s.calls[x].attached
  }

  lemma BornOrderly(s: Phone, n: CallId, alloc: Alloc)
    requires Counted(s) && Idle(s) && Known(s) && alloc != NoPbx
    ensures Counted(Born(s, n, alloc).0)
  {
    var s' := Born(s, n, alloc).0;
    if n !in s.calls && alloc == Allocated {
      var call := Call(OffHook, true, true, false, false, false);
      assert s'.calls == s.calls[n := call];
      BornSound(s, s', n, call);
      BornSolo(s, s', n, call);
      hide Sound, Present, Solo, Born;
    }
  }

  lemma BornSound(s: Phone, s': Phone, n: CallId, call: Call)
    requires Sound(s) && Present(s) && n !in s.calls && s'.calls == s.calls[n := call] && s'.held == s.held
    requires call == Call(OffHook, true, true, false, false, false)
    ensures Sound(s') && Present(s')
  {
    PutCounts(s, s', n, call);
    assert n !in Aside(s);
    hide Marked, Present;
    assert Aside(s') == Aside(s);
  }

  lemma BornSolo(s: Phone, s': Phone, n: CallId, call: Call)
    requires Solo(s) && Idle(s) && n !in s.calls && s'.calls == s.calls[n := call] && s'.active == Some(n)
    requires call == Call(OffHook, true, true, false, false, false)
    ensures Solo(s')
  {
    forall x | x in s'.calls ensures Alone(s'.active, x, s'.calls[x]) {
      if x != n {
        assert Alone(s.active, x, s.calls[x]);
      }
    }
  }

  lemma HoldBare(s: Phone, c: CallId)
    requires Counted(s)
    ensures Counted(HoldCall(s, c))
    ensures CanHold(s, c) ==> Idle(HoldCall(s, c))
  {
    HoldCounts(s, c);
    hide Sound, Present;
    if CanHold(s, c) {
      var s' := HoldCall(s, c);
      assert s'.calls == s.calls[c := s.calls[c].(state := Hold, attached := false, aside := true)];
    }
  }

  lemma ActiveOrIdle(s: Phone)
    requires Solo(s) && Placed(s)
    ensures ActiveCall(s).None? ==> Idle(s)
    ensures ActiveCall(s).Some? ==> IsAttached(s, ActiveCall(s).value)
  {
  }

  /** No new call comes about while a call with the device can neither be held nor used again. */
  lemma NewCallOrderly(s: Phone, n: CallId, alloc: Alloc)
    requires Counted(s) && Placed(s) && Known(s) && alloc != NoPbx
    ensures Counted(NewCall(s, n, alloc).0)
    ensures NewCall(s, n, alloc).1.Some? ==>
              forall c :: c in s.calls && s.calls[c].attached ==> Talking(s.calls[c].state) || s.calls[c].state == OffHook
  {
    var a := ActiveCall(s);
    ActiveOrIdle(s);
    if a.None? {
      BornOrderly(s, n, alloc);
    } else {
      HoldBare(s, a.value);
      HoldKeeps(s, a.value);
      if CanHold(s, a.value) {
        var s1 := HoldCall(s, a.value);
        assert Known(s1);
        BornOrderly(s1, n, alloc);
      }
    }
    hide HoldCall, Born, Sound, Present, Linked;
  }

  lemma NewCallOthers(s: Phone, n: CallId, alloc: Alloc, c: CallId)
    requires c in s.calls && !s.calls[c].attached
    ensures c in NewCall(s, n, alloc).0.calls && NewCall(s, n, alloc).0.calls[c] == s.calls[c]
  {
  }

  lemma NewIsAttached(s: Phone, n: CallId, alloc: Alloc)
    requires Placed(s)
    ensures NewCall(s, n, alloc).1.Some? ==> IsAttached(NewCall(s, n, alloc).0, NewCall(s, n, alloc).1.value)
  {
  }

  lemma IndicateCounted(s: Phone, c: CallId, state: State)
    requires Counted(s) && c in s.calls
    requires state != CallConference && (state == Hold ==> s.calls[c].aside) && state != Down
    requires s.transferer.None? || !IsAttached(s, s.transferer.value)
    ensures Counted(Indicate(s, c, state))
  {
    IndicateSolo(s, c, state);
    hide Indicate, Sound, Solo, Linked;
    IndicateCounts(s, c, state);
    if state == Hold { hide Present; IndicatePresent(s, c); }
  }

  lemma IndicatePresent(s: Phone, c: CallId)
    requires Present(s) && c in s.calls && s.calls[c].aside
    ensures Present(Indicate(s, c, Hold))
  {
  }

  lemma IndicateSolo(s: Phone, c: CallId, state: State)
    requires Solo(s) && Linked(s) && c in s.calls
    requires state != CallConference && (state == Hold ==> s.calls[c].aside) && state != Down
    requires s.transferer.None? || !IsAttached(s, s.transferer.value)
    ensures Solo(Indicate(s, c, state)) && Linked(Indicate(s, c, state))
  {
    assert Alone(s.active, c, s.calls[c]);
  }

  lemma DropCounted(s: Phone)
    requires Counted(s)
    ensures Counted(DropTransferee(s))
  {
  }

  /** A consultation call comes about only for a transferee that is aside. */
  lemma ConsultCounted(s: Phone, c: CallId, before: State, n: CallId, alloc: Alloc, peer: Peer)
    requires Half(s, c) && Counted(s) && alloc != NoPbx
    requires before != CallConference && before != Down && (before == Hold ==> s.calls[c].aside)
    ensures Counted(Consult(s, c, before, n, alloc, peer))
  {
    hide NewCall, DropTransferee, Counted, Ledger, Indicate;
    if s.calls[c].owner {
      var s1 := Indicate(s, c, CallTransfer);
      IndicateCounted(s, c, CallTransfer);
      IndicateKeeps(s, c, CallTransfer);
      NewCallOrderly(s1, n, alloc);
      NewCallKeeps(s1, n, alloc);
      var (s2, got) := NewCall(s1, n, alloc);
      if got.Some? && peer.bridged {
        ConsultLinked(s, s1, s2, c, n, alloc);
      } else {
        IndicateCounted(s2, c, Congestion);
        DropCounted(Indicate(s2, c, Congestion));
      }
    } else {
      IndicateCounted(s, c, before);
      DropCounted(Indicate(s, c, before));
    }
  }

  lemma ConsultLinked(s: Phone, s1: Phone, s2: Phone, c: CallId, n: CallId, alloc: Alloc)
    requires Half(s, c) && Counted(s) && s1 == Indicate(s, c, CallTransfer) && s2 == NewCall(s1, n, alloc).0
    requires Counted(s1) && Counted(s2) && Placed(s1) && alloc != NoPbx && NewCall(s1, n, alloc).1.Some?
    requires SlotsKept(s1, s2)
    ensures Counted(TakeTransferer(s2, NewCall(s1, n, alloc).1.value))
  {
    hide NewCall, Sound, Present, Ledger;
    assert Known(s1);
    NewCallOrderly(s1, n, alloc);
    assert s1.calls[c].state == CallTransfer;
    assert !s1.calls[c].attached && s1.calls[c].aside;
    NewCallOthers(s1, n, alloc, c);
    NewIsAttached(s1, n, alloc);
    var s' := TakeTransferer(s2, NewCall(s1, n, alloc).1.value);
    assert Sound(s') && Present(s') by { SameCalls(s2, s'); }
  }


  /** Taking the reference of a call that is aside or has the device. */
  lemma TakeCounted(s: Phone, c: CallId)
    requires Orderly(s) && s.transferee.None? && c in s.calls
    requires s.calls[c].attached || s.calls[c].state == Hold
    ensures Counted(TakeTransferee(s, c)) && Half(TakeTransferee(s, c), c)
  {
    SameCalls(s, TakeTransferee(s, c));
  }

  lemma StageCounted(s: Phone, c: CallId, n: CallId, alloc: Alloc, peer: Peer)
    requires Orderly(s) && s.transferee.None? && c in s.calls && alloc != NoPbx
    requires s.calls[c].attached || s.calls[c].state == Hold
    ensures Counted(Stage(s, c, n, alloc, peer))
  {
    TakeCounted(s, c);
    assert s.calls[c].state != Down && s.calls[c].state != CallConference;
    assert s.calls[c].state == Hold ==> s.calls[c].aside;
    hide Consult, HoldCall, Counted, WellFormed, Half, TakeTransferee, DropTransferee;
    var s1 := TakeTransferee(s, c);
    HoldBare(s1, c);
    HeldHalf(s1, c);
    DropCounted(s1);
    if CanHold(s1, c) {
      ConsultCounted(HoldCall(s1, c), c, s.calls[c].state, n, alloc, peer);
    }
    ConsultCounted(s1, c, s.calls[c].state, n, alloc, peer);
  }

  lemma CompleteCounted(s: Phone, a: CallId, peer: Peer)
    requires Orderly(s) && s.transferer == Some(a)
    ensures Counted(Complete(s, a, peer))
  {
    CompleteCounts(s, a, peer);
    if CanComplete(s, a, peer) {
      ReleaseKeeps(s, s.transferee.value);
      LeaveSlots(s, s.transferee.value);
    }
    hide Release, WellFormed, Sound, Present;
  }

  lemma TransferOrderly(s: Phone, c: CallId, n: CallId, allowed: bool, alloc: Alloc, peer: Peer)
    requires Orderly(s) && alloc != NoPbx
    ensures Orderly(TransferCall(s, c, n, allowed, alloc, peer))
  {
    TransferKeeps(s, c, n, allowed, alloc, peer);
    assert s.transferee.Some? <==> s.transferer.Some?;
    if s.transferee.Some? {
      CompleteCounted(s, s.transferer.value, peer);
    } else if HasDevice(s, c) {
      StageCounted(s, c, n, alloc, peer);
    }
    hide Complete, Stage, WellFormed, Counted;
  }

  lemma AnswerOrderly(s: Phone, c: CallId)
    requires Orderly(s)
    ensures Orderly(AnswerCall(s, c))
  {
    AnswerKeeps(s, c);
    SlotsKeptKeeps(s, AnswerCall(s, c));
    ActiveOrIdle(s);
    hide WellFormed;
    var a := ActiveCall(s);
    if c in s.calls && s.calls[c].owner && (a.Some? && a.value != c ==> CanHold(s, a.value)) {
      var s1 := if a.Some? && a.value != c then HoldCall(s, a.value) else s;
      if a.Some? && a.value != c {
        HoldBare(s, a.value);
      }
      if s1.calls[c].ringing {
        RingCounted(s1, c);
      }
    }
    hide HoldCall, Counted;
  }

  lemma RingCounted(s: Phone, c: CallId)
    requires Counted(s) && Known(s) && c in s.calls && s.calls[c].ringing
    requires forall x :: x in s.calls && s.calls[x].attached ==> x == c
    ensures
      var s1 := Attach(s, c);
      Counted(Put(s1, c, s1.calls[c].(ringing := false)))
  {
    var call := s.calls[c].(attached := true, ringing := false);
    var s' := s.(calls := s.calls[c := call], active := Some(c));
    assert Put(Attach(s, c), c, call) == s';
    hide Attach, Put;
    CallFacts(s, c);
    RingSound(s, s', c, call);
    RingSolo(s, s', c, call);
    RingLinked(s, s', c, call);
    hide Sound, Present, Solo, Linked;
  }

  lemma RingSound(s: Phone, s': Phone, c: CallId, call: Call)
    requires Sound(s) && Present(s) && c in s.calls && !s.calls[c].aside && s.calls[c].state != Hold
    requires s'.calls == s.calls[c := call] && s'.held == s.held && call == s.calls[c].(attached := true, ringing := false)
    ensures Sound(s') && Present(s')
  {
    PutCounts(s, s', c, call);
    hide Marked, Present;
    assert c !in Aside(s);
    assert Aside(s') == Aside(s);
  }

  lemma RingSolo(s: Phone, s': Phone, c: CallId, call: Call)
    requires Solo(s) && c in s.calls && s.calls[c].ringing
    requires forall x :: x in s.calls && s.calls[x].attached ==> x == c
    requires s'.calls == s.calls[c := call] && s'.active == Some(c)
    requires call == s.calls[c].(attached := true, ringing := false)
    ensures Solo(s')
  {
    forall x | x in s'.calls ensures Alone(s'.active, x, s'.calls[x]) {
      if x != c {
        assert Alone(s.active, x, s.calls[x]);
      }
    }
  }

  lemma RingLinked(s: Phone, s': Phone, c: CallId, call: Call)
    requires Linked(s) && Known(s) && Solo(s) && c in s.calls && s.calls[c].ringing
    requires s'.calls == s.calls[c := call] && s'.transferee == s.transferee && s'.transferer == s.transferer
    requires call == s.calls[c].(attached := true, ringing := false)
    ensures Linked(s')
  {
    assert Alone(s.active, c, s.calls[c]);
    hide Solo;
    assert s.transferer != Some(c);
    assert s.transferee != Some(c);
  }

  lemma CallFacts(s: Phone, c: CallId)
    requires Solo(s) && c in s.calls && s.calls[c].ringing
    ensures !s.calls[c].aside && s.calls[c].state != Hold
  {
  }

  lemma StageBothOrderly(s: Phone, t: CallId, a: CallId, peer: Peer)
    requires Orderly(s) && t in s.calls && a in s.calls && t != a && StagesOrderly(s, t, a, peer)
    ensures Orderly(StageBoth(s, t, a, peer))
  {
    hide Sound, Present, WellFormed;
    StageBothKeeps(s, t, a, peer);
    StageBothCounts(s, t, a, peer);
    var s1 := TakeTransferer(TakeTransferee(DropTransferer(DropTransferee(s)), t), a);
    Staged(s, t, a);
    var s' := StageBoth(s, t, a, peer);
    hide TakeTransferee, TakeTransferer, DropTransferee, DropTransferer;
    if Completes(s, t, a, peer) {
      ReleaseKeeps(s1, t);
      LeaveSlots(s1, t);
      assert s'.transferee.None? && s'.transferer.None? && s'.active == s.active;
      assert s'.calls == s.calls || s'.calls == s.calls[t := s.calls[t].(aside := false)];
    } else {
      assert s' == s1;
    }
    hide StageBoth, Release;
  }

  lemma JoinOrderly(s: Phone, c: CallId, d: CallId, locked: bool, ending: Ending, peer: Peer)
    requires Orderly(s) && JoinsOrderly(s, c, d, locked, ending, peer)
    ensures Orderly(JoinCalls(s, c, d, locked, ending, peer))
  {
    if c in s.calls && d in s.calls && c != d {
      ResumeKeeps(s, d, true, locked, ending);
      hide StageBoth, ResumeCall, Orderly, StagesOrderly, ResumesOrderly;
      if s.calls[d].state != Connected && s.calls[c].state == Connected {
        StageBothOrderly(s, d, c, peer);
      } else if s.calls[c].state == Hold && s.calls[d].state == Hold {
        ResumeOrderly(s, d, true, locked, ending);
        StageBothOrderly(ResumeCall(s, d, true, locked, ending), c, d, peer);
      } else {
        StageBothOrderly(s, c, d, peer);
      }
    }
  }

  lemma PlainOrderly(s: Phone, e: Event)
    requires Orderly(s) && Disciplined(s, e) && (e.Arrive? || e.Advance? || e.LoseOwner?)
    ensures Orderly(Step(s, e))
  {
    OtherKeeps(s, e);
    var s' := Step(s, e);
    if s' != s {
      PlainSound(s, s', e);
      PlainSolo(s, s', e);
      PlainLinked(s, s', e);
    }
    hide WellFormed, Sound, Present, Solo, Linked;
  }

  lemma PlainSolo(s: Phone, s': Phone, e: Event)
    requires Solo(s) && Disciplined(s, e) && (e.Arrive? || e.Advance? || e.LoseOwner?)
    requires s' == Step(s, e)
    ensures Solo(s')
  {
    forall x | x in s'.calls ensures Alone(s'.active, x, s'.calls[x]) {
      if x in s.calls {
        assert Alone(s.active, x, s.calls[x]);
      }
    }
  }

  lemma PlainLinked(s: Phone, s': Phone, e: Event)
    requires Linked(s) && Known(s) && Present(s) && (e.Arrive? || e.Advance? || e.LoseOwner?)
    requires s' == Step(s, e)
    ensures Linked(s')
  {
    if e.Advance? && IsAttached(s, e.c) {
      assert !s.calls[e.c].aside;
    }
    hide Present;
  }

  lemma PlainSound(s: Phone, s': Phone, e: Event)
    requires Orderly(s) && Disciplined(s, e) && (e.Arrive? || e.Advance? || e.LoseOwner?)
    requires s' == Step(s, e) && s' != s
    ensures Sound(s') && Present(s')
  {
    hide WellFormed, Solo, Linked;
    var call := s'.calls[e.c];
    assert s'.calls == s.calls[e.c := call] && s'.held == s.held;
    PutCounts(s, s', e.c, call);
    assert call.aside <==> e.c in Aside(s);
    assert Aside(s') == Aside(s);
  }

  lemma StepOrderly(s: Phone, e: Event)
    requires Orderly(s) && Disciplined(s, e)
    ensures Orderly(Step(s, e))
  {
    if e.Arrive? || e.Advance? || e.LoseOwner? {
      PlainOrderly(s, e);
    } else if e.PlaceCall? {
      CallKeeps(s, e);
      NewCallOrderly(s, e.c, e.alloc);
    } else {
      hide ResumeCall, TransferCall, Complete, AnswerCall, EndCall, Remove, HoldCall, JoinCalls, Counted, JoinsOrderly;
      StepKeeps(s, e);
      match e
      case PressHold(c) => HoldOrderly(s, c);
      case PressResume(c, swap, locked, ending) => ResumeOrderly(s, c, swap, locked, ending);
      case DirectTransfer(c, d, locked, ending, peer) => JoinOrderly(s, c, d, locked, ending, peer);
      case PressTransfer(c, n, allowed, alloc, peer) => TransferOrderly(s, c, n, allowed, alloc, peer);
      case TransferOnHook(c, peer) => if s.transferer == Some(c) { CompleteCounted(s, c, peer); }
      case PressAnswer(c) => AnswerOrderly(s, c);
      case End(c, ending) => EndOrderly(s, c, ending);
      case Hangup(c) => if c in s.calls { RemoveOrderly(s, c); }
    }
  }

  lemma {:induction false} RunOrderly(s: Phone, events: seq<Event>)
    requires Orderly(s) && AllDisciplined(s, events)
    ensures Orderly(Run(s, events))
    decreases |events|
  {
    if events != [] {
      StepOrderly(s, events[0]);
      RunOrderly(Step(s, events[0]), events[1..]);
    }
  }

  /** In an orderly state an event keeps the count right exactly if it fits. */
  lemma StepFits(s: Phone, e: Event)
    requires Orderly(s)
    ensures Sound(Step(s, e)) <==> Fits(s, e)
  {
    assert Cancellable(s) by {
      forall x | IsAttached(s, x) ensures CancelFits(s, x) { CancelOrderly(s, x); }
    }
    hide ResumeCall, TransferCall, Complete, AnswerCall, EndCall, Remove, HoldCall, JoinCalls, NewCall;
    hide WellFormed, Present, Sound, Solo, Linked, CancelFits, ResumeFits, JoinFits, EndFits;
    match e
    case PressHold(c) => HoldCounts(s, c);
    case PressResume(c, swap, locked, ending) => ResumeCounts(s, c, swap, locked, ending);
    case DirectTransfer(c, d, locked, ending, peer) => JoinCounts(s, c, d, locked, ending, peer);
    case PressTransfer(c, n, allowed, alloc, peer) => TransferFits(s, c, n, allowed, alloc, peer);
    case TransferOnHook(c, peer) => if s.transferer == Some(c) { CompleteCounted(s, c, peer); }
    case PressAnswer(c) => AnswerCounts(s, c);
    case End(c, ending) => EndCounts(s, c, ending);
    case Hangup(c) => HangupFits(s, c);
    case PlaceCall(n, alloc) => NewCallCounts(s, n, alloc);
    case _ => PlainCounts(s, e);
  }

  lemma TransferFits(s: Phone, c: CallId, n: CallId, allowed: bool, alloc: Alloc, peer: Peer)
    requires Orderly(s)
    ensures Sound(TransferCall(s, c, n, allowed, alloc, peer))
  {
    assert s.transferee.Some? <==> s.transferer.Some?;
    hide Complete, Stage, WellFormed, Sound, Present, Solo, Linked;
    if s.transferee.Some? {
      CompleteCounted(s, s.transferer.value, peer);
    } else if HasDevice(s, c) {
      StageCounts(s, c, n, alloc, peer);
    }
  }

  lemma HangupFits(s: Phone, c: CallId)
    requires Orderly(s)
    ensures Sound(Remove(s, c)) <==> Fits(s, Hangup(c))
  {
    hide WellFormed, Present, Sound, Solo, Linked, CancelFits, Leave, Cancel;
    if c in s.calls {
      RemoveCounts(s, c);
      if s.calls[c].attached { CancelOrderly(s, c); }
    }
  }

  /** Over every disciplined run the count is the number of calls aside (as a byte), and with fewer than 256 of
    * them it is never taken below zero: it is zero only when nobody is aside.  After it, an event of any
    * kind keeps it right exactly if it fits. */
  lemma HeldIsAside(events: seq<Event>, e: Event)
    requires AllDisciplined(IDLE, events)
    ensures
      var s := Run(IDLE, events);
      && s.held == |Aside(s)| % 256
      && (forall c :: c in s.calls && s.calls[c].state == Hold ==> c in Aside(s))
      && (|Aside(s)| < 256 && Aside(s) != {} ==> s.held > 0)
      && (Sound(Step(s, e)) <==> Fits(s, e))
  {
    StartsOrderly();
    hide Step, Fits, Orderly, Run, AllDisciplined, Aside;
    RunOrderly(IDLE, events);
    OrderlyCount(Run(IDLE, events));
    StepFits(Run(IDLE, events), e);
  }

  lemma StartsOrderly()
    ensures Orderly(IDLE)
  {
    assert Aside(IDLE) == {};
  }

  lemma OrderlyCount(s: Phone)
    requires Orderly(s)
    ensures s.held == |Aside(s)| % 256 && (|Aside(s)| < 256 && Aside(s) != {} ==> s.held > 0)
    ensures forall c :: c in s.calls && s.calls[c].state == Hold ==> c in Aside(s)
  {
    hide WellFormed, Present, Solo, Linked;
    if |Aside(s)| == 0 {
      assert Aside(s) == {};
    }
  }

  // ---------------------------------------------------------------------------------------------
  // How the count is lost

  const YES: Peer := Peer(true, true)
  const UNUSED: Call := Call(OffHook, true, true, false, false, false)
  const TALKING: Call := Call(Connected, true, true, true, false, false)
  const HELD: Call := Call(Hold, false, true, true, false, true)
  const WAITING: Call := Call(CallTransfer, false, true, true, false, true)
  const LOST: Call := Call(Hold, false, true, true, false, false)

  /** Call 1 talks; call 1 waits while call 2 is off hook; call 2 talks. */
  const FIRST: Phone := Phone(map[1 := TALKING], Some(1), None, None, 0, multiset{}, multiset{})
  const SECOND: Phone :=
    Phone(map[1 := WAITING, 2 := UNUSED], Some(2), Some(1), Some(2), 1, multiset{1, 2}, multiset{})
  const THIRD: Phone := SECOND.(calls := map[1 := WAITING, 2 := TALKING])

  lemma Runs(s: Phone, a: Event, b: Event, c: Event)
    ensures Run(s, [a, b]) == Step(Step(s, a), b)
    ensures Run(s, [a, b, c]) == Step(Step(Step(s, a), b), c)
  {
    hide Step;
    assert [a, b, c][1..] == [b, c] && [a, b][1..] == [b] && [b, c][1..] == [c] && [b][1..] == [c][1..] == [];
    assert Run(Step(s, a), [b, c]) == Run(Step(Step(s, a), b), [c]);
    assert Run(Step(s, a), [b]) == Run(Step(Step(s, a), b), []);
  }

  lemma {:induction false} RunJoins(s: Phone, xs: seq<Event>, ys: seq<Event>)
    ensures Run(s, xs + ys) == Run(Run(s, xs), ys)
    decreases |xs|
  {
    if xs == [] {
      assert xs + ys == ys;
    } else {
      assert (xs + ys)[1..] == xs[1..] + ys;
      RunJoins(Step(s, xs[0]), xs[1..], ys);
    }
  }

  lemma FirstCall()
    ensures Run(IDLE, [PlaceCall(1, Allocated), Advance(1, Connected, true)]) == FIRST
  {
    Runs(IDLE, PlaceCall(1, Allocated), Advance(1, Connected, true), Hangup(1));
    assert Step(IDLE, PlaceCall(1, Allocated)) == FIRST.(calls := map[1 := UNUSED]);
  }

  lemma Consulting()
    ensures Run(FIRST, [PressTransfer(1, 2, true, Allocated, YES), Advance(2, Connected, true)]) == THIRD
  {
    var press := PressTransfer(1, 2, true, Allocated, YES);
    Runs(FIRST, press, Advance(2, Connected, true), Hangup(1));
    Staging();
  }

  lemma Staging()
    ensures Step(FIRST, PressTransfer(1, 2, true, Allocated, YES)) == SECOND
  {
    var s1 := TakeTransferee(FIRST, 1);
    var s2 := HoldCall(s1, 1);
    assert s2 == s1.(calls := map[1 := HELD], active := None, held := 1);
    var s3 := Indicate(s2, 1, CallTransfer);
    assert s3 == s2.(calls := map[1 := WAITING]);
    var (s4, got) := NewCall(s3, 2, Allocated);
    assert s4.calls == map[1 := WAITING, 2 := UNUSED];
    assert s4 == s3.(calls := map[1 := WAITING, 2 := UNUSED], active := Some(2)) && got == Some(2);
  }

  /** A transferee resumed without swapping is put on hold again, uncounted, when its consultation call
    * ends, and its next resume takes the count below zero. */
  lemma ResumeWithoutSwapUnderflows()
    ensures
      var s := Run(IDLE,
        ([PlaceCall(1, Allocated), Advance(1, Connected, true)]
         + [PressTransfer(1, 2, true, Allocated, YES), Advance(2, Connected, true)])
        + [PressResume(1, false, true, Immediate), Hangup(2), PressResume(1, true, true, Immediate)]);
      Aside(s) == {} && s.held == 255
  {
    var e1, e2 := [PlaceCall(1, Allocated), Advance(1, Connected, true)],
                  [PressTransfer(1, 2, true, Allocated, YES), Advance(2, Connected, true)];
    var a, b, c := PressResume(1, false, true, Immediate), Hangup(2), PressResume(1, true, true, Immediate);
    assert Run(IDLE, (e1 + e2) + [a, b, c]) == Step(Step(Step(THIRD, a), b), c) by {
      hide Step;
      RunJoins(IDLE, e1 + e2, [a, b, c]);
      RunJoins(IDLE, e1, e2);
      FirstCall();
      Consulting();
      Runs(THIRD, a, b, c);
    }
    Unswapped();
  }

  lemma Unswapped()
    ensures
      var s := Step(Step(Step(THIRD, PressResume(1, false, true, Immediate)), Hangup(2)),
                    PressResume(1, true, true, Immediate));
      Aside(s) == {} && s.held == 255
  {
    TakenBack();
    var s1 := THIRD.(calls := map[1 := TALKING, 2 := TALKING], active := Some(1), held := 0);
    ParkedAgain(s1);
    hide Step;
    TakenBackAgain(Step(s1, Hangup(2)));
  }

  lemma TakenBack()
    ensures Step(THIRD, PressResume(1, false, true, Immediate))
            == THIRD.(calls := map[1 := TALKING, 2 := TALKING], active := Some(1), held := 0)
  {
  }

  lemma TakenBackAgain(s: Phone)
    requires s.calls == map[1 := LOST] && s.held == 0 && s.active == None && s.transferee == None
    ensures
      var s' := Step(s, PressResume(1, true, true, Immediate));
      Aside(s') == {} && s'.held == 255
  {
    var s' := Step(s, PressResume(1, true, true, Immediate));
    assert s'.calls == map[1 := TALKING];
  }

  lemma ParkedAgain(s: Phone)
    requires s == THIRD.(calls := map[1 := TALKING, 2 := TALKING], active := Some(1), held := 0)
    ensures
      var s' := Step(s, Hangup(2));
      s'.calls == map[1 := LOST] && s'.held == 0 && s'.active == None && s'.transferee == None
  {
    var s1 := Cancel(s, 2);
    assert s1.calls == map[1 := LOST, 2 := TALKING] && s1.held == 0 && s1.transferee.None? && s1.transferer.None?;
    hide Cancel;
    assert Leave(s1, 2).calls == map[1 := LOST];
  }

  /** A transferee whose far end hangs up while it waits stays counted, although its call is gone. */
  lemma LostTransfereeStaysCounted()
    ensures
      var s := Run(IDLE,
        ([PlaceCall(1, Allocated), Advance(1, Connected, true)]
         + [PressTransfer(1, 2, true, Allocated, YES), Advance(2, Connected, true)])
        + [Hangup(1)]);
      Aside(s) == {} && s.held == 1 && s.calls.Keys == {2}
  {
    var e1, e2 := [PlaceCall(1, Allocated), Advance(1, Connected, true)],
                  [PressTransfer(1, 2, true, Allocated, YES), Advance(2, Connected, true)];
    assert Run(IDLE, (e1 + e2) + [Hangup(1)]) == Run(THIRD, [Hangup(1)]) by {
      RunJoins(IDLE, e1 + e2, [Hangup(1)]);
      RunJoins(IDLE, e1, e2);
      FirstCall();
      Consulting();
    }
    assert [Hangup(1)][1..] == [];
    assert Step(THIRD, Hangup(1)).calls == map[2 := TALKING];
  }

  /** Joining a held call to another uncounts it twice: once when the transfer completes and once more
    * when its hangup finds it in HOLD. */
  lemma JoinedCallCountsTwice()
    ensures
      var s := Run(IDLE,
        ([PlaceCall(1, Allocated), Advance(1, Connected, true)]
         + [PressHold(1), PlaceCall(2, Allocated), Advance(2, Connected, true)])
        + [DirectTransfer(1, 2, true, Immediate, YES), Hangup(1)]);
      Aside(s) == {} && s.held == 255
  {
    var e1, e2, e3 := [PlaceCall(1, Allocated), Advance(1, Connected, true)],
                      [PressHold(1), PlaceCall(2, Allocated), Advance(2, Connected, true)],
                      [DirectTransfer(1, 2, true, Immediate, YES), Hangup(1)];
    hide Step;
    RunJoins(IDLE, e1 + e2, e3);
    RunJoins(IDLE, e1, e2);
    FirstCall();
    Runs(FIRST, e2[0], e2[1], e2[2]);
    SecondCall();
    Joined(Step(Step(Step(FIRST, e2[0]), e2[1]), e2[2]));
  }

  lemma SecondCall()
    ensures Step(Step(Step(FIRST, PressHold(1)), PlaceCall(2, Allocated)), Advance(2, Connected, true))
            == FIRST.(calls := map[1 := HELD, 2 := TALKING], active := Some(2), held := 1)
  {
    var s1 := Step(FIRST, PressHold(1));
    assert s1 == FIRST.(calls := map[1 := HELD], active := None, held := 1);
    var s2 := Step(s1, PlaceCall(2, Allocated));
    assert s2 == s1.(calls := map[1 := HELD, 2 := UNUSED], active := Some(2));
  }

  lemma Joined(s: Phone)
    requires s == FIRST.(calls := map[1 := HELD, 2 := TALKING], active := Some(2), held := 1)
    ensures
      var s' := Run(s, [DirectTransfer(1, 2, true, Immediate, YES), Hangup(1)]);
      Aside(s') == {} && s'.held == 255
  {
    var join := DirectTransfer(1, 2, true, Immediate, YES);
    var s1 := Step(s, join);
    JoinUncounts(s);
    hide Step;
    Runs(s, join, Hangup(1), Hangup(1));
    HangupUncounts(s1);
  }

  lemma JoinUncounts(s: Phone)
    requires s == FIRST.(calls := map[1 := HELD, 2 := TALKING], active := Some(2), held := 1)
    ensures
      var s' := Step(s, DirectTransfer(1, 2, true, Immediate, YES));
      s'.calls == map[1 := LOST, 2 := TALKING] && s'.held == 0 && s'.transferee.None? && s'.transferer.None?
  {
    var s1 := TakeTransferer(TakeTransferee(s, 1), 2);
    assert Step(s, DirectTransfer(1, 2, true, Immediate, YES)) == Complete(s1, 2, YES);
    assert s1.calls == map[1 := HELD, 2 := TALKING] && s1.held == 1;
    assert Release(s1, 1).calls == s1.calls;
    assert s1.calls[1 := LOST] == map[1 := LOST, 2 := TALKING];
  }

  lemma HangupUncounts(s: Phone)
    requires s.calls == map[1 := LOST, 2 := TALKING] && s.held == 0 && s.transferee.None? && s.transferer.None?
    ensures Aside(Step(s, Hangup(1))) == {} && Step(s, Hangup(1)).held == 255
  {
    assert Step(s, Hangup(1)).calls == map[2 := TALKING];
  }
}
