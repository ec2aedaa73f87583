/**
 * The count of the calls on hold over the operations that consist of several: for each the exact condition
 * under which it keeps the count right.
 */
module HeldSteps {
  import opened Common
  import opened TransferHold
  import opened TransferSlots
  import opened HeldCalls

  /** A transfer is only ever cancelled while its transferee is aside. */
  ghost predicate Cancellable(s: Phone) {
    forall x :: IsAttached(s, x) ==> CancelFits(s, x)
  }

  // ---------------------------------------------------------------------------------------------
  // What never goes wrong

  lemma PlainCounts(s: Phone, e: Event)
    requires Sound(s) && Present(s) && (e.Arrive? || e.Advance? || e.LoseOwner?)
    ensures Sound(Step(s, e))
  {
    var s' := Step(s, e);
    if s' != s {
      var call := s'.calls[e.c];
      assert s'.calls == s.calls[e.c := call] && s'.held == s.held;
      PutCounts(s, s', e.c, call);
      assert call.aside <==> e.c in Aside(s);
      assert call.state == Hold ==> call.aside;
      hide Step, Marked, Present;
      assert Aside(s') == Aside(s);
    }
  }

  lemma BornCounts(s: Phone, n: CallId, alloc: Alloc)
    requires Sound(s) && Present(s)
    ensures Sound(Born(s, n, alloc).0) && Present(Born(s, n, alloc).0)
  {
    var s' := Born(s, n, alloc).0;
    if s' != s {
      var call := s'.calls[n];
      assert s'.calls == s.calls[n := call] && s'.held == s.held && !call.aside && call.state != Hold;
      PutCounts(s, s', n, call);
      assert n !in Aside(s);
      hide Born, Marked, Present;
      assert Aside(s') == Aside(s);
    }
  }

  lemma NewCallCounts(s: Phone, n: CallId, alloc: Alloc)
    requires Sound(s) && Present(s)
    ensures Sound(NewCall(s, n, alloc).0) && Present(NewCall(s, n, alloc).0)
  {
    hide Born, HoldCall, Sound, Present;
    BornCounts(s, n, alloc);
    if ActiveCall(s).Some? {
      HoldCounts(s, ActiveCall(s).value);
      BornCounts(HoldCall(s, ActiveCall(s).value), n, alloc);
    }
  }

  lemma AnswerCounts(s: Phone, c: CallId)
    requires Sound(s) && Present(s)
    ensures Sound(AnswerCall(s, c))
  {
    if c in s.calls && s.calls[c].owner {
      var a := ActiveCall(s);
      if a.Some? { HoldCounts(s, a.value); }
      var s1 := if a.Some? && a.value != c then HoldCall(s, a.value) else s;
      hide HoldCall, Sound, Present;
      TakesDevice(s1, c);
    }
  }

  lemma TakesDevice(s: Phone, c: CallId)
    requires Sound(s) && c in s.calls
    ensures
      var s1 := Attach(s, c);
      Sound(Put(s1, c, s1.calls[c].(ringing := false)))
  {
    var s1 := Attach(s, c);
    var s' := Put(s1, c, s1.calls[c].(ringing := false));
    assert forall x :: x in s'.calls <==> x in s.calls;
    assert forall x :: x in s.calls ==> s'.calls[x].aside == s.calls[x].aside && s'.calls[x].state == s.calls[x].state;
    hide Attach, Put;
    assert Aside(s') == Aside(s);
  }

  lemma IndicateCounts(s: Phone, c: CallId, state: State)
    requires Sound(s) && Present(s) && c in s.calls && (state == Hold ==> s.calls[c].aside)
    ensures Sound(Indicate(s, c, state))
    ensures state != Hold ==> Present(Indicate(s, c, state))
  {
    var s' := Indicate(s, c, state);
    PutCounts(s, s', c, s.calls[c].(state := state));
    InAside(s, c);
    hide Marked, Present;
    assert Aside(s') == Aside(s);
  }

  lemma ConsultCounts(s: Phone, c: CallId, before: State, n: CallId, alloc: Alloc, peer: Peer)
    requires Sound(s) && Present(s) && c in s.calls && (before == Hold ==> s.calls[c].aside)
    ensures Sound(Consult(s, c, before, n, alloc, peer))
  {
    hide NewCall, Indicate, Sound, Present;
    IndicateCounts(s, c, before);
    IndicateCounts(s, c, CallTransfer);
    var s1 := Indicate(s, c, CallTransfer);
    NewCallCounts(s1, n, alloc);
    assert c in s1.calls by { IndicateKeys(s, c, CallTransfer); }
    NewCallKeys(s1, n, alloc);
    var s2 := NewCall(s1, n, alloc).0;
    IndicateCounts(s2, c, Congestion);
    SlotsOnly(Indicate(s, c, before), DropTransferee(Indicate(s, c, before)));
    SlotsOnly(Indicate(s2, c, Congestion), DropTransferee(Indicate(s2, c, Congestion)));
    if NewCall(s1, n, alloc).1.Some? {
      SlotsOnly(s2, TakeTransferer(s2, NewCall(s1, n, alloc).1.value));
    }
  }

  lemma IndicateKeys(s: Phone, c: CallId, state: State)
    ensures Indicate(s, c, state).calls.Keys == s.calls.Keys
  {
  }

  lemma NewCallKeys(s: Phone, n: CallId, alloc: Alloc)
    ensures s.calls.Keys <= NewCall(s, n, alloc).0.calls.Keys
  {
  }

  lemma SlotsOnly(s: Phone, s': Phone)
    requires s'.calls == s.calls && s'.held == s.held
    ensures (Sound(s') <==> Sound(s)) && (Present(s') <==> Present(s))
  {
    SameCalls(s, s');
  }

  lemma StageCounts(s: Phone, c: CallId, n: CallId, alloc: Alloc, peer: Peer)
    requires Sound(s) && Present(s) && c in s.calls
    ensures Sound(Stage(s, c, n, alloc, peer))
  {
    var before := s.calls[c].state;
    assert before == Hold ==> s.calls[c].aside;
    hide Consult, HoldCall, Sound, Present;
    var s1 := TakeTransferee(s, c);
    SlotsOnly(s, s1);
    HoldCounts(s1, c);
    SlotsOnly(s1, DropTransferee(s1));
    ConsultCounts(s1, c, before, n, alloc, peer);
    if CanHold(s1, c) {
      assert c in HoldCall(s1, c).calls by { HoldKeys(s1, c); }
      ConsultCounts(HoldCall(s1, c), c, before, n, alloc, peer);
    }
  }

  lemma HoldKeys(s: Phone, c: CallId)
    ensures HoldCall(s, c).calls.Keys == s.calls.Keys
  {
  }

  // ---------------------------------------------------------------------------------------------
  // Ending a call

  predicate EndFits(s: Phone, c: CallId, ending: Ending) {
    c in s.calls && s.calls[c].owner && ending == Immediate && s.calls[c].aside ==> s.calls[c].state == Hold
  }

  /** A call that is ended is uncounted at once only from HOLD: right exactly if it is in that state when it
    * is aside. */
  lemma EndCounts(s: Phone, c: CallId, ending: Ending)
    requires Sound(s) && Present(s) && WellFormed(s) && Cancellable(s)
    ensures Sound(EndCall(s, c, ending)) <==> EndFits(s, c, ending)
    ensures Present(EndCall(s, c, ending))
  {
    if c in s.calls {
      assert IsAttached(s, c) ==> CancelFits(s, c);
      hide Sound, Present, WellFormed, Cancellable;
      var s1 := if IsAttached(s, c) && s.transferee != Some(c) then Cancel(s, c) else s;
      CancelCounts(s, c);
      CancelKeeps(s, c);
      Cancelled(s, c);
      hide Cancel, Remove, Indicate;
      RemoveCounts(s1, c);
      IndicateCounts(s1, c, Down);
    }
  }

  lemma Cancelled(s: Phone, c: CallId)
    requires WellFormed(s)
    ensures s.transferee != Some(c) ==> CancelFits(Cancel(s, c), c)
  {
    if s.transferee.Some? && s.transferee.value != c {
      var t := s.transferee.value;
      assert Release(Detach(Indicate(s, t, Hold), t), t).transferee.None?;
    }
  }

  lemma HoldOthers(s: Phone, a: CallId, c: CallId)
    requires c in s.calls && a != c
    ensures c in HoldCall(s, a).calls && HoldCall(s, a).calls[c] == s.calls[c]
  {
  }

  /** Ending one call changes another only by putting a cancelled transferee on hold. */
  lemma EndState(s: Phone, a: CallId, c: CallId, ending: Ending)
    requires WellFormed(s) && c in s.calls && a != c
    ensures
      var s' := EndCall(s, a, ending);
      && (c in s'.calls ==> s'.calls[c].aside == s.calls[c].aside)
      && (c in s'.calls ==> s'.calls[c].state == Hold || s'.calls[c].state == s.calls[c].state)
  {
    hide WellFormed, Cancel, Leave;
    var s1 := if IsAttached(s, a) && s.transferee != Some(a) then Cancel(s, a) else s;
    CancelState(s, a, c);
    if ending == Immediate && a in s1.calls && s1.calls[a].owner {
      CancelState(s1, a, c);
      LeaveState(if IsAttached(s1, a) then Cancel(s1, a) else s1, a, c);
    }
  }

  lemma CancelState(s: Phone, a: CallId, c: CallId)
    requires c in s.calls
    ensures c in Cancel(s, a).calls && Cancel(s, a).calls[c].aside == s.calls[c].aside
    ensures Cancel(s, a).calls[c].state == Hold || Cancel(s, a).calls[c].state == s.calls[c].state
  {
    if s.transferee.Some? && s.transferee.value != a {
      var t := s.transferee.value;
      var s1 := Detach(Indicate(s, t, Hold), t);
      assert c in s1.calls && s1.calls[c].aside == s.calls[c].aside;
      assert s1.calls[c].state == Hold || s1.calls[c].state == s.calls[c].state;
      hide Detach, Indicate;
      assert Release(s1, t).calls == s1.calls;
    }
  }

  lemma LeaveState(s: Phone, a: CallId, c: CallId)
    requires c in s.calls && a != c
    ensures c in Leave(s, a).calls && Leave(s, a).calls[c] == s.calls[c]
  {
  }

  // ---------------------------------------------------------------------------------------------
  // Resuming a call

  lemma ActiveIsAttached(s: Phone)
    requires WellFormed(s) && Present(s)
    ensures ActiveCall(s).Some? ==>
              IsAttached(s, ActiveCall(s).value) && !s.calls[ActiveCall(s).value].aside
  {
  }

  lemma MakeRoomCounts(s: Phone, c: CallId, swap: bool, ending: Ending)
    requires Sound(s) && Present(s) && WellFormed(s) && Cancellable(s) && c in s.calls
    ensures
      var room := MakeRoom(s, c, swap, ending);
      room.Some? ==>
        && Sound(room.value) && Present(room.value) && WellFormed(room.value) && c in room.value.calls
        && room.value.calls[c].aside == s.calls[c].aside
        && (room.value.calls[c].state == Hold || room.value.calls[c].state == s.calls[c].state)
  {
    ActiveIsAttached(s);
    hide EndCall, HoldCall, Sound, Present, WellFormed, Cancellable;
    MakeRoomKeeps(s, c, swap, ending);
    var a := ActiveCall(s);
    if a.Some? && a.value != c {
      EndCounts(s, a.value, ending);
      EndState(s, a.value, c, ending);
      HoldCounts(s, a.value);
      HoldOthers(s, a.value, c);
    }
  }

  /** The states from which a call is resumed, other than HOLD. */
  predicate Parked(state: State) {
    state == CallTransfer || state == CallConference
  }

  predicate ResumeFits(s: Phone, c: CallId, swap: bool, locked: bool, ending: Ending) {
    (c in s.calls && s.calls[c].owner && locked && MakeRoom(s, c, swap, ending).Some? && Parked(s.calls[c].state)) ==>
      s.calls[c].aside
  }

  /** A resume that comes that far uncounts the call: right exactly if the call, unless it is on hold, is aside. */
  lemma ResumeCounts(s: Phone, c: CallId, swap: bool, locked: bool, ending: Ending)
    requires Sound(s) && Present(s) && WellFormed(s) && Cancellable(s)
    ensures Sound(ResumeCall(s, c, swap, locked, ending)) <==> ResumeFits(s, c, swap, locked, ending)
    ensures Present(ResumeCall(s, c, swap, locked, ending))
  {
    hide MakeRoom, Restart, Sound, Present, WellFormed, Cancellable;
    if c in s.calls {
      MakeRoomCounts(s, c, swap, ending);
      var room := MakeRoom(s, c, swap, ending);
      if room.Some? { RestartCounts(room.value, c); }
      if room.Some? { HeldIsMarked(room.value, c); }
    }
  }

  lemma HeldIsMarked(s: Phone, c: CallId)
    requires Sound(s) && c in s.calls
    ensures s.calls[c].state == Hold ==> s.calls[c].aside
  {
  }

  lemma RestartCounts(s: Phone, c: CallId)
    requires Sound(s) && Present(s) && WellFormed(s) && c in s.calls
    ensures Sound(Restart(s, c)) <==>
            (Parked(s.calls[c].state) ==> s.calls[c].aside)
    ensures Present(Restart(s, c))
  {
    hide Resumed, Sound, Present, WellFormed, HoldCall;
    HeldIsMarked(s, c);
    ResumedCounts(s, c);
    if CanHold(s, c) {
      HoldCounts(s, c);
      HoldKeeps1(s, c);
      Holds(s, c);
      ResumedCounts(HoldCall(s, c), c);
    }
  }

  lemma Holds(s: Phone, c: CallId)
    requires CanHold(s, c)
    ensures c in HoldCall(s, c).calls && HoldCall(s, c).calls[c].aside && HoldCall(s, c).calls[c].state == Hold
  {
  }

  lemma HoldKeeps1(s: Phone, c: CallId)
    requires WellFormed(s)
    ensures WellFormed(HoldCall(s, c)) && HoldCall(s, c).calls.Keys == s.calls.Keys
  {
    HoldKeeps(s, c);
    SlotsKeptKeeps(s, HoldCall(s, c));
  }

  // ---------------------------------------------------------------------------------------------
  // Joining two calls

  /** Call t is transferred to call a at once. */
  predicate Completes(s: Phone, t: CallId, a: CallId, peer: Peer) {
    && IsAttached(s, a) && Reached(s.calls[a].state) && s.calls[a].owner
    && t in s.calls && s.calls[t].owner && peer.bridged
  }

  predicate StageBothFits(s: Phone, t: CallId, a: CallId, peer: Peer) {
    Completes(s, t, a, peer) && peer.attended ==> s.calls[t].aside && s.calls[t].state != Hold
  }

  lemma StageBothCounts(s: Phone, t: CallId, a: CallId, peer: Peer)
    requires Sound(s) && Present(s) && WellFormed(s) && t in s.calls && a in s.calls && t != a
    ensures Sound(StageBoth(s, t, a, peer)) <==> StageBothFits(s, t, a, peer)
    ensures Present(StageBoth(s, t, a, peer))
  {
    var s1 := TakeTransferer(TakeTransferee(DropTransferer(DropTransferee(s)), t), a);
    Staged(s, t, a);
    hide Complete, Sound, Present, WellFormed, TakeTransferee, TakeTransferer, DropTransferee, DropTransferer;
    SlotsOnly(s, s1);
    CompleteCounts(s1, a, peer);
  }

  lemma Staged(s: Phone, t: CallId, a: CallId)
    requires WellFormed(s) && t in s.calls && a in s.calls && t != a
    ensures
      var s1 := TakeTransferer(TakeTransferee(DropTransferer(DropTransferee(s)), t), a);
      && WellFormed(s1) && s1.calls == s.calls && s1.held == s.held && s1.active == s.active
      && s1.transferee == Some(t) && s1.transferer == Some(a)
  {
    DropKeeps(s);
    var s2 := TakeTransferee(DropTransferer(DropTransferee(s)), t);
    FillBoth(s2, t, a);
  }

  predicate JoinFits(s: Phone, c: CallId, d: CallId, locked: bool, ending: Ending, peer: Peer) {
    c in s.calls && d in s.calls && c != d ==>
      if s.calls[d].state != Connected && s.calls[c].state == Connected then StageBothFits(s, d, c, peer)
      else if s.calls[c].state == Hold && s.calls[d].state == Hold then
        StageBothFits(ResumeCall(s, d, true, locked, ending), c, d, peer)
      else
        StageBothFits(s, c, d, peer)
  }

  /** Joining two calls transfers one of them at once: right exactly if that one is aside by then, and not in
    * state HOLD. */
  lemma JoinCounts(s: Phone, c: CallId, d: CallId, locked: bool, ending: Ending, peer: Peer)
    requires Sound(s) && Present(s) && WellFormed(s) && Cancellable(s)
    ensures Sound(JoinCalls(s, c, d, locked, ending, peer)) <==> JoinFits(s, c, d, locked, ending, peer)
  {
    hide StageBoth, ResumeCall, Sound, Present, WellFormed, Cancellable, StageBothFits;
    if c in s.calls && d in s.calls && c != d {
      StageBothCounts(s, d, c, peer);
      StageBothCounts(s, c, d, peer);
      if s.calls[c].state == Hold && s.calls[d].state == Hold {
        ResumeCounts(s, d, true, locked, ending);
        ResumeKeeps(s, d, true, locked, ending);
        StageBothCounts(ResumeCall(s, d, true, locked, ending), c, d, peer);
      }
    }
  }
}
