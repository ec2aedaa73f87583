/**
 * The transfer slots over whole runs: between events they are both empty or both filled, with two
 * different calls of the line, and every reference they took is still in a slot or was given up once.
 */
module TransferSlots {
  import opened Common
  import opened TransferHold

  /** The device's active call is one of the line's calls and has the device. */
  ghost predicate Placed(s: Phone) {
    s.active.Some? ==> IsAttached(s, s.active.value)
  }

  /** Every reference taken and not yet given up is owned by a filled slot, and each owns just one. */
  ghost predicate Ledger(s: Phone) {
    s.taken == s.dropped + SlotRefs(s)
  }

  ghost predicate Known(s: Phone) {
    && (s.transferee.Some? ==> s.transferee.value in s.calls)
    && (s.transferer.Some? ==> s.transferer.value in s.calls)
  }

  /** Both slots empty, or both filled with different calls. */
  ghost predicate Paired(s: Phone) {
    && (s.transferee.Some? <==> s.transferer.Some?)
    && (s.transferee.Some? ==> s.transferee.value != s.transferer.value)
  }

  ghost predicate WellFormed(s: Phone) {
    Placed(s) && Ledger(s) && Known(s) && Paired(s)
  }

  /** The slots are left alone and no call disappears. */
  ghost predicate SlotsKept(s: Phone, s': Phone) {
    && s'.transferee == s.transferee
    && s'.transferer == s.transferer
    && s'.taken == s.taken
    && s'.dropped == s.dropped
    && s.calls.Keys <= s'.calls.Keys
  }

  lemma DropOneKeeps(s: Phone)
    requires Ledger(s)
    ensures Ledger(DropTransferee(s)) && Ledger(DropTransferer(s))
  {
  }

  lemma DropKeeps(s: Phone)
    requires Ledger(s)
    ensures Ledger(DropTransferer(DropTransferee(s)))
  {
    hide Ledger;
    DropOneKeeps(s);
    DropOneKeeps(DropTransferee(s));
  }

  lemma ReleaseKeeps(s: Phone, c: CallId)
    requires WellFormed(s)
    ensures WellFormed(Release(s, c))
    ensures Release(s, c).calls == s.calls && Release(s, c).active == s.active && Release(s, c).held == s.held
    ensures Release(s, c).transferee != Some(c) && Release(s, c).transferer != Some(c)
  {
    DropKeeps(s);
    hide Ledger, Placed;
    assert Placed(DropTransferer(DropTransferee(s))) by { SameCallsPlaced(s, DropTransferer(DropTransferee(s))); }
  }

  lemma SameCallsPlaced(s: Phone, s': Phone)
    requires Placed(s) && s'.calls == s.calls && s'.active == s.active
    ensures Placed(s')
  {
  }

  /** Whatever leaves the slots alone and loses no call keeps what is known of the slots. */
  lemma SlotsKeptKeeps(s: Phone, s': Phone)
    requires WellFormed(s) && SlotsKept(s, s') && Placed(s')
    ensures WellFormed(s')
  {
  }

  /** The transferee as a cancelled transfer leaves it. */
  lemma ParkKeeps(s: Phone, t: CallId)
    requires WellFormed(s)
    ensures WellFormed(Detach(Indicate(s, t, Hold), t))
    ensures Detach(Indicate(s, t, Hold), t).calls.Keys == s.calls.Keys
    ensures SlotsKept(s, Detach(Indicate(s, t, Hold), t))
    ensures forall c :: c in s.calls && c != t ==> Detach(Indicate(s, t, Hold), t).calls[c] == s.calls[c]
  {
    SlotsKeptKeeps(s, Detach(Indicate(s, t, Hold), t));
  }

  lemma CancelKeeps(s: Phone, c: CallId)
    requires WellFormed(s)
    ensures WellFormed(Cancel(s, c))
    ensures Cancel(s, c).calls.Keys == s.calls.Keys
    ensures c in s.calls ==> Cancel(s, c).calls[c] == s.calls[c]
  {
    hide Release, Detach, Indicate, WellFormed;
    if s.transferee.Some? && s.transferee.value != c {
      var t := s.transferee.value;
      ParkKeeps(s, t);
      ReleaseKeeps(Detach(Indicate(s, t, Hold), t), t);
    }
  }

  lemma HoldKeeps(s: Phone, c: CallId)
    requires Placed(s)
    ensures Placed(HoldCall(s, c)) && SlotsKept(s, HoldCall(s, c))
    ensures HoldCall(s, c).calls.Keys == s.calls.Keys
  {
  }

  lemma DetachKeeps(s: Phone, c: CallId)
    requires Placed(s)
    ensures Placed(Detach(s, c)) && SlotsKept(s, Detach(s, c))
    ensures Detach(s, c).active != Some(c) && Detach(s, c).calls.Keys == s.calls.Keys
  {
  }

  lemma LeaveKeeps(s: Phone, c: CallId)
    requires WellFormed(s)
    ensures WellFormed(Leave(s, c)) && Leave(s, c).calls.Keys == s.calls.Keys - {c}
  {
    ReleaseKeeps(s, c);
    DetachKeeps(Release(s, c), c);
  }

  lemma CountKeeps(s: Phone, held: nat)
    requires WellFormed(s)
    ensures WellFormed(s.(held := held))
  {
  }

  lemma RemoveKeeps(s: Phone, c: CallId)
    requires WellFormed(s)
    ensures WellFormed(Remove(s, c))
    ensures Remove(s, c).calls.Keys == s.calls.Keys - {c}
  {
    hide Cancel, Leave;
    if c in s.calls {
      CancelKeeps(s, c);
      var s1 := if IsAttached(s, c) then Cancel(s, c) else s;
      LeaveKeeps(s1, c);
      CountKeeps(Leave(s1, c), Dec(Leave(s1, c).held));
    }
  }

  lemma IndicateKeeps(s: Phone, c: CallId, state: State)
    requires Placed(s)
    ensures Placed(Indicate(s, c, state)) && SlotsKept(s, Indicate(s, c, state))
    ensures Indicate(s, c, state).calls.Keys == s.calls.Keys
  {
  }

  /** The three ways a hangup request can go, after the transfer is cancelled. */
  lemma EndingKeeps(s: Phone, c: CallId, ending: Ending)
    requires WellFormed(s)
    ensures WellFormed(Ended(s, c, ending))
    ensures s.calls.Keys - {c} <= Ended(s, c, ending).calls.Keys
  {
    if ending == Immediate {
      RemoveKeeps(s, c);
    } else {
      IndicateKeeps(s, c, Down);
      SlotsKeptKeeps(s, Indicate(s, c, Down));
    }
  }

  lemma EndKeeps(s: Phone, c: CallId, ending: Ending)
    requires WellFormed(s)
    ensures WellFormed(EndCall(s, c, ending))
    ensures s.calls.Keys - {c} <= EndCall(s, c, ending).calls.Keys
  {
    CancelKeeps(s, c);
    EndingKeeps(if IsAttached(s, c) && s.transferee != Some(c) then Cancel(s, c) else s, c, ending);
  }

  lemma ResumedKeeps(s: Phone, c: CallId)
    requires WellFormed(s) && c in s.calls
    ensures WellFormed(Resumed(s, c)) && Resumed(s, c).calls.Keys == s.calls.Keys
  {
    ReleaseKeeps(s, c);
    var s1 := if s.transferee != Some(c) then Release(s, c) else s;
    SlotsKeptKeeps(s1, Reopen(s1, c));
  }

  lemma RestartKeeps(s: Phone, c: CallId)
    requires WellFormed(s)
    ensures WellFormed(Restart(s, c)) && Restart(s, c).calls.Keys == s.calls.Keys
  {
    if c in s.calls && (Talking(s.calls[c].state) ==> CanHold(s, c)) {
      HoldKeeps(s, c);
      var s1 := if Talking(s.calls[c].state) then HoldCall(s, c) else s;
      SlotsKeptKeeps(s, s1);
      ResumedKeeps(s1, c);
    }
  }

  lemma MakeRoomKeeps(s: Phone, c: CallId, swap: bool, ending: Ending)
    requires WellFormed(s) && c in s.calls
    ensures MakeRoom(s, c, swap, ending).Some? ==>
              WellFormed(MakeRoom(s, c, swap, ending).value) && c in MakeRoom(s, c, swap, ending).value.calls
    ensures MakeRoom(s, c, swap, ending).Some? ==>
              forall x :: x in s.calls && !Unused(s.calls[x].state) ==> x in MakeRoom(s, c, swap, ending).value.calls
  {
    hide EndCall, HoldCall, Ledger, Known, Paired;
    var a := ActiveCall(s);
    if a.Some? && a.value != c {
      EndKeeps(s, a.value, ending);
      HoldKeeps(s, a.value);
      SlotsKeptKeeps(s, HoldCall(s, a.value));
    }
  }

  lemma ResumeKeeps(s: Phone, c: CallId, swap: bool, locked: bool, ending: Ending)
    requires WellFormed(s)
    ensures WellFormed(ResumeCall(s, c, swap, locked, ending))
    ensures forall x :: x in s.calls && !Unused(s.calls[x].state) ==> x in ResumeCall(s, c, swap, locked, ending).calls
  {
    hide MakeRoom, Restart, WellFormed, Unused;
    if c in s.calls {
      MakeRoomKeeps(s, c, swap, ending);
      var room := MakeRoom(s, c, swap, ending);
      if room.Some? {
        RestartKeeps(room.value, c);
      }
    }
  }

  lemma BornKeeps(s: Phone, n: CallId, alloc: Alloc)
    requires Placed(s)
    ensures Placed(Born(s, n, alloc).0) && SlotsKept(s, Born(s, n, alloc).0)
    ensures Born(s, n, alloc).1.Some? ==>
              Born(s, n, alloc).1.value in Born(s, n, alloc).0.calls && Born(s, n, alloc).1.value !in s.calls
  {
  }

  /** A new call is never one that is being transferred. */
  lemma NewCallKeeps(s: Phone, n: CallId, alloc: Alloc)
    requires Placed(s)
    ensures Placed(NewCall(s, n, alloc).0) && SlotsKept(s, NewCall(s, n, alloc).0)
    ensures NewCall(s, n, alloc).1.Some? ==>
              && NewCall(s, n, alloc).1.value in NewCall(s, n, alloc).0.calls
              && (forall c :: c in s.calls && s.calls[c].state != OffHook ==> c != NewCall(s, n, alloc).1.value)
  {
    hide HoldCall, Born;
    var a := ActiveCall(s);
    if a.None? {
      BornKeeps(s, n, alloc);
    } else {
      HoldKeeps(s, a.value);
      BornKeeps(HoldCall(s, a.value), n, alloc);
    }
  }

  lemma AnswerKeeps(s: Phone, c: CallId)
    requires Placed(s)
    ensures Placed(AnswerCall(s, c)) && SlotsKept(s, AnswerCall(s, c))
  {
    hide HoldCall;
    var a := ActiveCall(s);
    if c in s.calls && a.Some? && a.value != c {
      HoldKeeps(s, a.value);
    }
  }

  lemma CompleteKeeps(s: Phone, dest: CallId, peer: Peer)
    requires WellFormed(s)
    ensures WellFormed(Complete(s, dest, peer))
  {
    hide Release;
    if CanComplete(s, dest, peer) {
      ReleaseKeeps(s, s.transferee.value);
      SlotsKeptKeeps(Release(s, s.transferee.value), Complete(s, dest, peer));
    }
  }

  /** A transferee is in its slot, alone, while its consultation call is being set up. */
  ghost predicate Half(s: Phone, c: CallId) {
    Placed(s) && Ledger(s) && s.transferee == Some(c) && s.transferer.None? && c in s.calls
  }

  lemma HalfKept(s: Phone, s': Phone, c: CallId)
    requires Half(s, c) && Placed(s') && SlotsKept(s, s')
    ensures Half(s', c)
  {
  }

  lemma GiveUp(s: Phone, c: CallId)
    requires Half(s, c)
    ensures WellFormed(DropTransferee(s))
  {
  }

  lemma FillBoth(s: Phone, c: CallId, n: CallId)
    requires Half(s, c) && n in s.calls && n != c
    ensures WellFormed(TakeTransferer(s, n))
  {
  }

  lemma ConsultKeeps(s: Phone, c: CallId, before: State, n: CallId, alloc: Alloc, peer: Peer)
    requires Half(s, c)
    ensures WellFormed(Consult(s, c, before, n, alloc, peer))
  {
    hide NewCall, DropTransferee, TakeTransferer, WellFormed;
    if s.calls[c].owner {
      var s1 := Indicate(s, c, CallTransfer);
      IndicateKeeps(s, c, CallTransfer);
      HalfKept(s, s1, c);
      NewCallKeeps(s1, n, alloc);
      var (s2, got) := NewCall(s1, n, alloc);
      HalfKept(s1, s2, c);
      if got.Some? && peer.bridged {
        FillBoth(s2, c, got.value);
      } else {
        IndicateKeeps(s2, c, Congestion);
        HalfKept(s2, Indicate(s2, c, Congestion), c);
        GiveUp(Indicate(s2, c, Congestion), c);
      }
    } else {
      IndicateKeeps(s, c, before);
      HalfKept(s, Indicate(s, c, before), c);
      GiveUp(Indicate(s, c, before), c);
    }
  }

  lemma HeldHalf(s: Phone, c: CallId)
    requires Half(s, c)
    ensures Half(HoldCall(s, c), c)
  {
    HoldKeeps(s, c);
    HalfKept(s, HoldCall(s, c), c);
  }

  lemma TakeHalf(s: Phone, c: CallId)
    requires WellFormed(s) && s.transferee.None? && c in s.calls
    ensures Half(TakeTransferee(s, c), c) && TakeTransferee(s, c).calls == s.calls
  {
  }

  lemma StageKeeps(s: Phone, c: CallId, n: CallId, alloc: Alloc, peer: Peer)
    requires WellFormed(s) && s.transferee.None? && c in s.calls
    ensures WellFormed(Stage(s, c, n, alloc, peer))
  {
    var s1 := TakeTransferee(s, c);
    TakeHalf(s, c);
    hide TakeTransferee, Half, Consult, HoldCall, DropTransferee, WellFormed;
    HeldHalf(s1, c);
    ConsultKeeps(s1, c, s.calls[c].state, n, alloc, peer);
    ConsultKeeps(HoldCall(s1, c), c, s.calls[c].state, n, alloc, peer);
    GiveUp(s1, c);
  }

  lemma TransferKeeps(s: Phone, c: CallId, n: CallId, allowed: bool, alloc: Alloc, peer: Peer)
    requires WellFormed(s)
    ensures WellFormed(TransferCall(s, c, n, allowed, alloc, peer))
  {
    hide Complete, Stage;
    if HasDevice(s, c) && allowed {
      if s.transferee.Some? {
        CompleteKeeps(s, s.transferer.value, peer);
      } else {
        StageKeeps(s, c, n, alloc, peer);
      }
    }
  }

  lemma StageBothKeeps(s: Phone, t: CallId, a: CallId, peer: Peer)
    requires WellFormed(s) && t in s.calls && a in s.calls && t != a
    ensures WellFormed(StageBoth(s, t, a, peer))
  {
    hide Complete;
    var s1 := DropTransferer(DropTransferee(s));
    DropKeeps(s);
    var s2 := TakeTransferee(s1, t);
    FillBoth(s2, t, a);
    CompleteKeeps(TakeTransferer(s2, a), a, peer);
  }

  lemma JoinKeeps(s: Phone, c: CallId, d: CallId, locked: bool, ending: Ending, peer: Peer)
    requires WellFormed(s)
    ensures WellFormed(JoinCalls(s, c, d, locked, ending, peer))
  {
    hide StageBoth, ResumeCall;
    if c in s.calls && d in s.calls && c != d {
      StageBothKeeps(s, d, c, peer);
      StageBothKeeps(s, c, d, peer);
      ResumeKeeps(s, d, true, locked, ending);
      var s1 := ResumeCall(s, d, true, locked, ending);
      if s.calls[c].state == Hold && s.calls[d].state == Hold {
        StageBothKeeps(s1, c, d, peer);
      }
    }
  }

  /** Replacing a call's record keeps everything unless it takes the device away from it. */
  lemma PutKeeps(s: Phone, c: CallId, call: Call)
    requires WellFormed(s) && (IsAttached(s, c) ==> call.attached)
    ensures WellFormed(Put(s, c, call))
  {
    assert Placed(Put(s, c, call));
    SlotsKeptKeeps(s, Put(s, c, call));
  }

  lemma OtherKeeps(s: Phone, e: Event)
    requires WellFormed(s) && (e.Arrive? || e.Advance? || e.LoseOwner?)
    ensures WellFormed(Step(s, e))
  {
    hide WellFormed, Put;
    match e
    case Arrive(c, waiting) =>
      if c !in s.calls {
        PutKeeps(s, c, Call(if waiting then Other else Ringing, false, true, false, true, false));
      }
    case Advance(c, state, dialed) =>
      if c in s.calls {
        PutKeeps(s, c, s.calls[c].(state := state, dialed := s.calls[c].dialed || dialed));
      }
    case LoseOwner(c) =>
      if c in s.calls {
        PutKeeps(s, c, s.calls[c].(owner := false));
      }
  }

  lemma CallKeeps(s: Phone, e: Event)
    requires WellFormed(s) && (e.PlaceCall? || e.PressHold? || e.PressAnswer?)
    ensures WellFormed(Step(s, e))
  {
    hide NewCall, HoldCall, AnswerCall;
    match e
    case PlaceCall(n, alloc) =>
      NewCallKeeps(s, n, alloc);
      SlotsKeptKeeps(s, NewCall(s, n, alloc).0);
    case PressHold(c) =>
      HoldKeeps(s, c);
      SlotsKeptKeeps(s, HoldCall(s, c));
    case PressAnswer(c) =>
      AnswerKeeps(s, c);
      SlotsKeptKeeps(s, AnswerCall(s, c));
  }

  lemma StepKeeps(s: Phone, e: Event)
    requires WellFormed(s)
    ensures WellFormed(Step(s, e))
  {
    hide ResumeCall, TransferCall, Complete, JoinCalls, EndCall, Remove, NewCall, HoldCall, AnswerCall, Put, WellFormed;
    match e
    case PressResume(c, swap, locked, ending) => ResumeKeeps(s, c, swap, locked, ending);
    case PressTransfer(c, n, allowed, alloc, peer) => TransferKeeps(s, c, n, allowed, alloc, peer);
    case TransferOnHook(c, peer) => CompleteKeeps(s, c, peer);
    case DirectTransfer(c, d, locked, ending, peer) => JoinKeeps(s, c, d, locked, ending, peer);
    case End(c, ending) => EndKeeps(s, c, ending);
    case Hangup(c) => RemoveKeeps(s, c);
    case PlaceCall(_, _) => CallKeeps(s, e);
    case PressHold(_) => CallKeeps(s, e);
    case PressAnswer(_) => CallKeeps(s, e);
    case _ => OtherKeeps(s, e);
  }

  lemma {:induction false} RunKeeps(s: Phone, events: seq<Event>)
    requires WellFormed(s)
    ensures WellFormed(Run(s, events))
    decreases |events|
  {
    if events != [] {
      StepKeeps(s, events[0]);
      RunKeeps(Step(s, events[0]), events[1..]);
    }
  }

  /** After any run the slots are both empty or both filled, with different calls of the line, and the
    * references taken minus those given up are one for each filled slot. */
  lemma SlotsOwnTheirCalls(events: seq<Event>)
    ensures
      var s := Run(IDLE, events);
      && (s.transferee.Some? <==> s.transferer.Some?)
      && (s.transferee.Some? ==> s.transferee.value != s.transferer.value)
      && (s.transferee.Some? ==> s.transferee.value in s.calls && s.transferer.value in s.calls)
      && s.dropped <= s.taken
      && s.taken - s.dropped ==
           if s.transferee.Some? then multiset{s.transferee.value, s.transferer.value} else multiset{}
  {
    RunKeeps(IDLE, events);
    var s := Run(IDLE, events);
    assert s.taken - s.dropped == SlotRefs(s);
  }
}
