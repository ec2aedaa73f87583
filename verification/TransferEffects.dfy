/**
 * What each key press does to the calls, the two slots and the count, said in their fields and nothing else: when
 * a transfer is staged, when it is completed, and what every other press leaves behind.
 */
module TransferEffects {
  import opened Common
  import opened TransferHold
  import opened TransferSlots
  import HeldRuns
  import HeldSteps

  /** The states in which a call can be put on hold, and those in which a destination takes a transfer. */
  const TALKING := {Connected, ConnectedConference, Proceed}
  const TAKING := {RingOut, RingOutAlerting, Connected, Progress}

  function OneHigher(held: nat): nat { if held % 256 == 255 then 0 else held % 256 + 1 }

  function OneLower(held: nat): nat { if held % 256 == 0 then 255 else held % 256 - 1 }

  /** Both slots filled with calls of the line. */
  predicate Filled(s: Phone, t: CallId, a: CallId) {
    s.transferee == Some(t) && s.transferer == Some(a) && t in s.calls && a in s.calls
  }

  /** The destination is at the phone, is ringing out, progressing or talking, both calls have their PBX channel, and
    * the transferee is bridged. */
  predicate Transferable(s: Phone, t: CallId, a: CallId, peer: Peer)
    requires t in s.calls && a in s.calls
  {
    s.calls[a].attached && s.calls[a].state in TAKING && s.calls[a].owner && s.calls[t].owner && peer.bridged
  }

  /** After a completion: both slots are empty, both references given up, and a transferee that an attended transfer
    * took is no longer aside, nor counted. */
  predicate Transferred(s: Phone, s': Phone, t: CallId, a: CallId, attended: bool)
    requires t in s.calls
  {
    s' == s.(transferee := None, transferer := None, dropped := s.dropped + multiset{t, a},
             calls := if attended then s.calls[t := s.calls[t].(aside := false)] else s.calls,
             held := if attended then OneLower(s.held) else s.held)
  }

  /** A completion changes that or nothing. */
  predicate Completed(s: Phone, s': Phone, t: CallId, a: CallId, peer: Peer)
    requires t in s.calls && a in s.calls
  {
    if Transferable(s, t, a, peer) then Transferred(s, s', t, a, peer.attended) else s' == s
  }

  // ---------------------------------------------------------------------------------------------
  // Completing a transfer

  /** The second press of the transfer key completes the transfer if and only if the two calls allow it; a press that
    * completes nothing changes nothing. */
  lemma SecondPressCompletes(s: Phone, c: CallId, n: CallId, alloc: Alloc, peer: Peer, t: CallId, a: CallId)
    requires WellFormed(s) && Filled(s, t, a) && c in s.calls
    requires s.calls[c].attached || c == t || s.calls[c].state == Hold
    ensures
      Completed(s, Step(s, PressTransfer(c, n, true, alloc, peer)), t, a, peer)
  {
    Completing(s, t, a, peer);
    hide Complete, WellFormed;
  }

  lemma Bytes(held: nat)
    ensures OneHigher(held) == (held + 1) % 256 && OneLower(held) == (held + 255) % 256
  {
  }

  lemma Completing(s: Phone, t: CallId, a: CallId, peer: Peer)
    requires Filled(s, t, a) && t != a
    ensures Completed(s, Complete(s, a, peer), t, a, peer)
  {
    assert multiset{t} + multiset{a} == multiset{t, a};
    Bytes(s.held);
    hide OneLower, OneHigher;
  }

  /** So does putting the destination on hook, and nobody else's hook. */
  lemma OnHookCompletes(s: Phone, c: CallId, peer: Peer, t: CallId, a: CallId)
    requires WellFormed(s) && Filled(s, t, a)
    ensures
      var s' := Step(s, TransferOnHook(c, peer));
      if c == a && s.calls[a].attached then Completed(s, s', t, a, peer) else s' == s
  {
    Completing(s, t, a, peer);
    hide Complete;
  }

  /** Without both slots filled no hook completes anything; without permission or device no press does. */
  lemma NothingToComplete(s: Phone, c: CallId, n: CallId, allowed: bool, alloc: Alloc, peer: Peer)
    requires WellFormed(s)
    ensures s.transferee.None? ==> Step(s, TransferOnHook(c, peer)) == s
    ensures !allowed || c !in s.calls
            || (!s.calls[c].attached && s.transferee != Some(c) && s.calls[c].state != Hold) ==>
              Step(s, PressTransfer(c, n, allowed, alloc, peer)) == s
  {
  }

  /** The calls that the slots held before are given up, the two calls take their place, and the transfer is completed
    * at once or stays staged. */
  predicate Joined(s: Phone, s': Phone, t: CallId, a: CallId, peer: Peer)
    requires t in s.calls && a in s.calls
  {
    var gone := (if s.transferee.Some? then multiset{s.transferee.value} else multiset{})
               + (if s.transferer.Some? then multiset{s.transferer.value} else multiset{});
    var staged := s.(transferee := Some(t), transferer := Some(a), taken := s.taken + multiset{t, a},
                     dropped := s.dropped + gone);
    Completed(staged, s', t, a, peer)
  }

  lemma StagingBoth(s: Phone, t: CallId, a: CallId, peer: Peer)
    requires t in s.calls && a in s.calls && t != a
    ensures Joined(s, StageBoth(s, t, a, peer), t, a, peer)
  {
    hide Completed, Complete;
    var s0 := DropTransferer(DropTransferee(s));
    var s1 := TakeTransferer(TakeTransferee(s0, t), a);
    BothStaged(s, t, a);
    Completing(s1, t, a, peer);
    hide DropTransferer, DropTransferee, TakeTransferer, TakeTransferee;
  }

  lemma BothStaged(s: Phone, t: CallId, a: CallId)
    ensures
      var gone := (if s.transferee.Some? then multiset{s.transferee.value} else multiset{})
                  + (if s.transferer.Some? then multiset{s.transferer.value} else multiset{});
      TakeTransferer(TakeTransferee(DropTransferer(DropTransferee(s)), t), a)
        == s.(transferee := Some(t), transferer := Some(a), taken := s.taken + multiset{t, a},
              dropped := s.dropped + gone)
  {
    var x := if s.transferee.Some? then multiset{s.transferee.value} else multiset{};
    var y := if s.transferer.Some? then multiset{s.transferer.value} else multiset{};
    Associates(s.dropped, x, y);
    Associates(s.taken, multiset{t}, multiset{a});
    Two(t, a);
    assert DropTransferee(s) == s.(transferee := None, dropped := s.dropped + x);
    assert DropTransferer(DropTransferee(s)) == s.(transferee := None, transferer := None, dropped := s.dropped + x + y);
  }

  lemma Associates(a: multiset<CallId>, b: multiset<CallId>, c: multiset<CallId>)
    ensures a + b + c == a + (b + c)
    ensures b == multiset{} ==> a + b == a
  {
  }

  lemma Two(t: CallId, a: CallId)
    ensures multiset{t} + multiset{a} == multiset{t, a}
  {
  }

  /** The direct transfer key sends call c to call d, unless c alone is talking: then d is sent to c. Two calls on hold
    * are joined once d is resumed. */
  lemma DirectTransferJoins(s: Phone, c: CallId, d: CallId, locked: bool, ending: Ending, peer: Peer)
    requires WellFormed(s) && c in s.calls && d in s.calls && c != d
    ensures
      var s' := Step(s, DirectTransfer(c, d, locked, ending, peer));
      var resumed := Step(s, PressResume(d, true, locked, ending));
      if s.calls[c].state == Connected && s.calls[d].state != Connected then Joined(s, s', d, c, peer)
      else if s.calls[c].state == Hold && s.calls[d].state == Hold then
        c in resumed.calls && d in resumed.calls && Joined(resumed, s', c, d, peer)
      else Joined(s, s', c, d, peer)
  {
    hide StageBoth, ResumeCall, Joined, WellFormed;
    StagingBoth(s, d, c, peer);
    StagingBoth(s, c, d, peer);
    if s.calls[c].state == Hold && s.calls[d].state == Hold {
      var resumed := ResumeCall(s, d, true, locked, ending);
      ResumeKeeps(s, d, true, locked, ending);
      assert !Unused(s.calls[c].state) && !Unused(s.calls[d].state);
      StagingBoth(resumed, c, d, peer);
    }
  }

  // ---------------------------------------------------------------------------------------------
  // Staging a transfer

  /** The call as a hold leaves it. */
  function OnHold(call: Call): Call {
    call.(state := Hold, attached := false, aside := true)
  }

  /** A new outgoing call. */
  const NEW := Call(OffHook, true, true, false, false, false)

  /** The first press, on a call that is talking: it is put aside, and if a consultation call can be made and the peer is
    * bridged, both are staged. Any failure gives the reference back at once and leaves the call without a device:
    * congested, or connected as before if its PBX channel was gone. */
  lemma FirstPressStages(s: Phone, c: CallId, n: CallId, alloc: Alloc, peer: Peer)
    requires s.transferee.None? && s.transferer.None? && c in s.calls && n !in s.calls
    requires s.calls[c].attached && s.calls[c].state in TALKING
    ensures
      var s' := Step(s, PressTransfer(c, n, true, alloc, peer));
      var staged := s.calls[c].owner && alloc == Allocated && peer.bridged;
      var after := OnHold(s.calls[c]).(state := if staged then CallTransfer
                                               else if s.calls[c].owner then Congestion else s.calls[c].state);
      var born := s.calls[c].owner && alloc != NoMemory;
      && s'.transferee == (if staged then Some(c) else None) && s'.transferer == (if staged then Some(n) else None)
      && s'.taken == (if staged then s.taken + multiset{c} + multiset{n} else s.taken + multiset{c})
      && s'.dropped == (if staged then s.dropped else s.dropped + multiset{c})
      && s'.held == OneHigher(s.held)
      && s'.active == (if born then Some(n) else None)
      && c in s'.calls && s'.calls[c] == after
      && s'.calls.Keys == s.calls.Keys + (if born then {n} else {})
      && (s.calls[c].owner && alloc == Allocated ==> s'.calls[n] == NEW)
      && forall x :: x in s.calls && x != c ==> s'.calls[x] == s.calls[x]
  {
    hide Step, Consult, OneHigher;
    HoldsAndConsults(s, c, n, alloc, peer);
    Consulting(HeldFirst(s, c), c, s.calls[c].state, n, alloc, peer);
  }

  /** The talking call put aside, its reference taken. */
  function HeldFirst(s: Phone, c: CallId): Phone
    requires c in s.calls
  {
    s.(transferee := Some(c), taken := s.taken + multiset{c}, active := None, held := OneHigher(s.held),
       calls := s.calls[c := OnHold(s.calls[c])])
  }

  lemma HoldsAndConsults(s: Phone, c: CallId, n: CallId, alloc: Alloc, peer: Peer)
    requires s.transferee.None? && s.transferer.None? && c in s.calls
    requires s.calls[c].attached && s.calls[c].state in TALKING
    ensures Step(s, PressTransfer(c, n, true, alloc, peer))
         == Consult(HeldFirst(s, c), c, s.calls[c].state, n, alloc, peer)
  {
    hide Consult;
    HoldPutsAside(TakeTransferee(s, c), c);
    hide HoldCall;
    assert Step(TakeTransferee(s, c), PressHold(c)) == HoldCall(TakeTransferee(s, c), c);
  }

  /** A consultation while nobody is active. */
  lemma Consulting(s: Phone, c: CallId, before: State, n: CallId, alloc: Alloc, peer: Peer)
    requires s.transferee == Some(c) && s.transferer.None? && c in s.calls && n !in s.calls && s.active.None?
    ensures
      var s' := Consult(s, c, before, n, alloc, peer);
      var staged := s.calls[c].owner && alloc == Allocated && peer.bridged;
      var born := s.calls[c].owner && alloc != NoMemory;
      && s'.transferee == (if staged then Some(c) else None) && s'.transferer == (if staged then Some(n) else None)
      && s'.taken == (if staged then s.taken + multiset{n} else s.taken)
      && s'.dropped == (if staged then s.dropped else s.dropped + multiset{c})
      && s'.held == s.held
      && s'.active == (if born then Some(n) else None)
      && s'.calls.Keys == s.calls.Keys + (if born then {n} else {})
      && c in s'.calls
      && s'.calls[c] == s.calls[c].(state := if staged then CallTransfer
                                             else if s.calls[c].owner then Congestion else before)
      && (s.calls[c].owner && alloc == Allocated ==> s'.calls[n] == NEW)
      && forall x :: x in s.calls && x != c ==> s'.calls[x] == s.calls[x]
  {
    hide NewCall, Indicate;
    var i := Indicate(s, c, CallTransfer);
    Indicated(s, c, CallTransfer);
    Indicated(s, c, before);
    NewWhileIdle(i, n, alloc);
    Indicated(NewCall(i, n, alloc).0, c, Congestion);
  }

  lemma Indicated(s: Phone, c: CallId, state: State)
    requires c in s.calls
    ensures Indicate(s, c, state) == s.(calls := s.calls[c := s.calls[c].(state := state)])
  {
  }

  lemma NewWhileIdle(s: Phone, n: CallId, alloc: Alloc)
    requires s.active.None? && n !in s.calls
    ensures
      var call := if alloc == Allocated then NEW else Call(Down, true, false, false, false, false);
      NewCall(s, n, alloc) == (
        if alloc == NoMemory then s else s.(active := Some(n), calls := s.calls[n := call]),
        if alloc == Allocated then Some(n) else None)
  {
    var down := Call(Down, false, false, false, false, false);
    assert s.calls[n := down][n := down.(attached := true)] == s.calls[n := down.(attached := true)];
    assert s.calls[n := NEW.(attached := false)][n := NEW] == s.calls[n := NEW];
  }

  /** The first press, on a call that is on hold while no other call is active: the same without counting once more. */
  lemma FirstPressOnHeld(s: Phone, c: CallId, n: CallId, alloc: Alloc, peer: Peer)
    requires s.transferee.None? && s.transferer.None? && c in s.calls && n !in s.calls
    requires s.active.None? && s.calls[c].state == Hold
    ensures
      var s' := Step(s, PressTransfer(c, n, true, alloc, peer));
      var staged := s.calls[c].owner && alloc == Allocated && peer.bridged;
      var after := s.calls[c].(state := if staged then CallTransfer
                                       else if s.calls[c].owner then Congestion else Hold);
      && s'.transferee == (if staged then Some(c) else None) && s'.transferer == (if staged then Some(n) else None)
      && s'.taken == (if staged then s.taken + multiset{c} + multiset{n} else s.taken + multiset{c})
      && s'.dropped == (if staged then s.dropped else s.dropped + multiset{c})
      && s'.held == s.held
      && c in s'.calls && s'.calls[c] == after
      && (s.calls[c].owner && alloc == Allocated ==> n in s'.calls && s'.calls[n] == NEW && s'.active == Some(n))
      && forall x :: x in s.calls && x != c ==> x in s'.calls && s'.calls[x] == s.calls[x]
  {
    var taken := s.(transferee := Some(c), taken := s.taken + multiset{c});
    assert Step(s, PressTransfer(c, n, true, alloc, peer)) == Consult(taken, c, Hold, n, alloc, peer);
    hide Step, Consult;
    Consulting(taken, c, Hold, n, alloc, peer);
  }

  /** While another call is off hook and undialled, that one becomes the consultation call. */
  lemma FirstPressReusesCall(s: Phone, c: CallId, n: CallId, alloc: Alloc, peer: Peer, a: CallId)
    requires s.transferee.None? && s.transferer.None? && c in s.calls && s.calls[c].state == Hold
    requires s.active == Some(a) && a in s.calls && a != c && s.calls[a].state == OffHook && !s.calls[a].dialed
    ensures
      var s' := Step(s, PressTransfer(c, n, true, alloc, peer));
      var staged := s.calls[c].owner && peer.bridged;
      s' == s.(transferee := if staged then Some(c) else None, transferer := if staged then Some(a) else None,
               taken := if staged then s.taken + multiset{c} + multiset{a} else s.taken + multiset{c},
               dropped := if staged then s.dropped else s.dropped + multiset{c},
               calls := s.calls[c := s.calls[c].(state := if staged then CallTransfer
                                                          else if s.calls[c].owner then Congestion else Hold)])
  {
    var taken := s.(transferee := Some(c), taken := s.taken + multiset{c});
    assert Step(s, PressTransfer(c, n, true, alloc, peer)) == Consult(taken, c, Hold, n, alloc, peer);
    hide Step, TransferCall, Stage;
    var i := Indicate(taken, c, CallTransfer);
    assert i == taken.(calls := s.calls[c := s.calls[c].(state := CallTransfer)]);
    assert NewCall(i, n, alloc) == (i, Some(a));
    hide NewCall;
    assert s.calls[c := s.calls[c].(state := CallTransfer)][c := s.calls[c].(state := Congestion)]
        == s.calls[c := s.calls[c].(state := Congestion)];
  }

  /** A call that is neither talking, nor off hook, on hold or left by a transfer is not transferred: its reference is
    * taken and given back. */
  lemma UnsuitableCallIsNotStaged(s: Phone, c: CallId, n: CallId, alloc: Alloc, peer: Peer)
    requires s.transferee.None? && s.transferer.None? && c in s.calls && s.calls[c].attached
    requires s.calls[c].state !in TALKING + {OffHook, Hold, CallTransfer}
    ensures Step(s, PressTransfer(c, n, true, alloc, peer))
         == s.(taken := s.taken + multiset{c}, dropped := s.dropped + multiset{c})
  {
  }

  /** The active call cannot be consulted with itself: one that is off hook ends congested. */
  lemma OffHookCallIsCongested(s: Phone, c: CallId, n: CallId, alloc: Alloc, peer: Peer)
    requires s.transferee.None? && s.transferer.None? && c in s.calls && s.calls[c].attached && s.active == Some(c)
    requires s.calls[c].state == OffHook && s.calls[c].owner
    ensures Step(s, PressTransfer(c, n, true, alloc, peer))
         == s.(calls := s.calls[c := s.calls[c].(state := Congestion)],
               taken := s.taken + multiset{c}, dropped := s.dropped + multiset{c})
  {
    var taken := s.(transferee := Some(c), taken := s.taken + multiset{c});
    assert Step(s, PressTransfer(c, n, true, alloc, peer)) == Consult(taken, c, OffHook, n, alloc, peer);
    hide Step, TransferCall, Stage;
    var i := Indicate(taken, c, CallTransfer);
    assert i == taken.(calls := s.calls[c := s.calls[c].(state := CallTransfer)]);
    assert NewCall(i, n, alloc) == (i, None);
    hide NewCall;
    assert s.calls[c := s.calls[c].(state := CallTransfer)][c := s.calls[c].(state := Congestion)]
        == s.calls[c := s.calls[c].(state := Congestion)];
  }

  /**
   Two presses transfer a call. A talking call is transferred by the first press, the answer of the new
   call, and a second press: both references are given back, the call is no longer aside, and as many
   calls are on hold as before.
   */
  lemma TwoPressesTransfer(s: Phone, c: CallId, n: CallId, answered: State)
    requires WellFormed(s) && s.transferee.None? && c in s.calls && n !in s.calls && s.held < 256
    requires s.calls[c].attached && s.calls[c].state in TALKING && s.calls[c].owner && answered in TAKING
    ensures
      var press := PressTransfer(c, n, true, Allocated, Peer(true, true));
      var s' := Run(s, [press, Advance(n, answered, true), press]);
      && s'.transferee.None? && s'.transferer.None?
      && s'.taken == s.taken + multiset{c} + multiset{n}
      && s'.dropped == s.dropped + multiset{c, n}
      && s'.held == s.held
      && c in s'.calls && s'.calls[c] == s.calls[c].(state := CallTransfer, attached := false, aside := false)
      && n in s'.calls && s'.calls[n] == NEW.(state := answered, dialed := true)
  {
    hide Step;
    var press := PressTransfer(c, n, true, Allocated, Peer(true, true));
    var s1 := Step(s, press);
    FirstPressStages(s, c, n, Allocated, Peer(true, true));
    StepKeeps(s, press);
    var s2 := Step(s1, Advance(n, answered, true));
    ProgressShows(s1, n, answered, true);
    StepKeeps(s1, Advance(n, answered, true));
    SecondPressCompletes(s2, c, n, Allocated, Peer(true, true), c, n);
    HeldRuns.Runs(s, press, Advance(n, answered, true), press);
    OneUpOneDown(s.held);
    hide WellFormed;
  }

  lemma OneUpOneDown(held: nat)
    requires held < 256
    ensures OneLower(OneHigher(held)) == held
  {
  }

  // ---------------------------------------------------------------------------------------------
  // The other events

  /** A call arrives ringing, or waiting behind another, without the device. */
  lemma ArrivalRings(s: Phone, c: CallId, waiting: bool)
    ensures Step(s, Arrive(c, waiting)) ==
            if c in s.calls then s
            else s.(calls := s.calls[c := Call(if waiting then Other else Ringing, false, true, false, true, false)])
  {
  }

  /** The progress of a call is shown while it has the device; whether it was dialled is not forgotten. */
  lemma ProgressShows(s: Phone, c: CallId, state: State, dialed: bool)
    ensures Step(s, Advance(c, state, dialed)) ==
            if c in s.calls && s.calls[c].attached && state != Hold && state != CallTransfer
            then s.(calls := s.calls[c := s.calls[c].(state := state, dialed := s.calls[c].dialed || dialed)])
            else s
    ensures Step(s, LoseOwner(c)) ==
            if c in s.calls then s.(calls := s.calls[c := s.calls[c].(owner := false)]) else s
  {
  }

  /** A call is put on hold if and only if it has the device and is talking; it gives the device up and is counted. */
  lemma HoldPutsAside(s: Phone, c: CallId)
    ensures Step(s, PressHold(c)) ==
            if c in s.calls && s.calls[c].attached && s.calls[c].state in TALKING
            then s.(calls := s.calls[c := OnHold(s.calls[c])], active := None, held := OneHigher(s.held))
            else s
  {
  }

  /** The call that the phone shows as active. */
  predicate Shown(s: Phone, a: CallId) {
    s.active == Some(a) && a in s.calls && s.calls[a].state != Down
  }

  /** With the line free, a new call takes the device, off hook if it got its PBX channel and down if not. */
  lemma NewCallTakesDevice(s: Phone, n: CallId, alloc: Alloc)
    requires s.active.None? || !Shown(s, s.active.value)
    ensures Step(s, PlaceCall(n, alloc)) ==
            if n in s.calls || alloc == NoMemory then s
            else s.(active := Some(n),
                    calls := s.calls[n := if alloc == Allocated then NEW
                                          else Call(Down, true, false, false, false, false)])
  {
  }

  /** An active call is put on hold for it, unless it is off hook and undialled: then that one is used again. One that
    * has the device and cannot be put on hold stands in the way. */
  lemma NewCallMakesRoom(s: Phone, n: CallId, alloc: Alloc, a: CallId)
    requires Shown(s, a) && s.calls[a].attached
    ensures
      Step(s, PlaceCall(n, alloc)) ==
        if s.calls[a].state in TALKING then Step(Step(s, PressHold(a)), PlaceCall(n, alloc)) else s
  {
  }

  /** Answering puts the active call on hold and gives the device to the call, exactly if it rings; one that cannot be
    * put on hold stands in the way. */
  lemma AnswerTakesDevice(s: Phone, c: CallId)
    requires c in s.calls && s.calls[c].owner
    ensures
      var busy := s.active.Some? && Shown(s, s.active.value) && s.active.value != c;
      var s1 := if busy then Step(s, PressHold(s.active.value)) else s;
      Step(s, PressAnswer(c)) ==
        if busy && (!s.calls[s.active.value].attached || s.calls[s.active.value].state !in TALKING) then s
        else if s.calls[c].ringing then
          s1.(calls := s1.calls[c := s.calls[c].(attached := true, ringing := false)], active := Some(c))
        else s1
  {
    hide HoldCall, Attach, Put;
    var busy := s.active.Some? && Shown(s, s.active.value) && s.active.value != c;
    if busy { HeldSteps.HoldOthers(s, s.active.value, c); }
    TakesDevice(if busy then HoldCall(s, s.active.value) else s, c);
  }

  lemma TakesDevice(s: Phone, c: CallId)
    requires c in s.calls
    ensures
      var s1 := Attach(s, c);
      && c in s1.calls
      && Put(s1, c, s1.calls[c].(ringing := false))
         == s.(calls := s.calls[c := s.calls[c].(attached := true, ringing := false)], active := Some(c))
  {
    assert s.calls[c := s.calls[c].(attached := true)][c := s.calls[c].(attached := true, ringing := false)]
        == s.calls[c := s.calls[c].(attached := true, ringing := false)];
  }

  /** Nobody answers a call that is gone. */
  lemma NothingToAnswer(s: Phone, c: CallId)
    requires c !in s.calls || !s.calls[c].owner
    ensures Step(s, PressAnswer(c)) == s
  {
  }

  // ---------------------------------------------------------------------------------------------
  // Resuming

  /** The slots are given back by their destination. */
  function Freed(s: Phone, c: CallId): Phone {
    if s.transferer == Some(c) && s.transferee != Some(c) then
      s.(transferee := None, transferer := None,
         dropped := s.dropped + (if s.transferee.Some? then multiset{s.transferee.value} else multiset{}) + multiset{c})
    else s
  }

  /** The call as a resume leaves it. */
  function Back(s: Phone, c: CallId): Phone
    requires c in s.calls
  {
    Freed(s, c).(calls := s.calls[c := s.calls[c].(attached := true, state := Connected, aside := false)],
                 active := Some(c), held := OneLower(s.held))
  }

  lemma ResumedIsBack(s: Phone, c: CallId)
    requires c in s.calls
    ensures Resumed(s, c) == Back(s, c)
  {
    var freed := if s.transferee != Some(c) then Release(s, c) else s;
    Associates(s.dropped, multiset{}, multiset{c});
    assert freed == Freed(s, c);
    Bytes(s.held);
    hide Release, Freed, OneLower;
    assert freed.calls == s.calls && freed.held == s.held by { ReleasedCalls(s, c); }
  }

  lemma ReleasedCalls(s: Phone, c: CallId)
    ensures Release(s, c).calls == s.calls && Release(s, c).held == s.held
  {
  }

  /** A call that waits is resumed if and only if it has its PBX channel and the lock is had: it is connected, has the
    * device, and is counted no longer. */
  lemma ResumeConnects(s: Phone, c: CallId, swap: bool, locked: bool, ending: Ending)
    requires c in s.calls && (!swap || s.active.None? || !Shown(s, s.active.value) || s.active == Some(c))
    requires s.calls[c].state !in TALKING
    ensures
      Step(s, PressResume(c, swap, locked, ending)) ==
        if s.calls[c].owner && locked && s.calls[c].state in {Hold, CallTransfer, CallConference} then Back(s, c) else s
  {
    hide Resumed, Back, EndCall, HoldCall;
    ResumedIsBack(s, c);
    assert MakeRoom(s, c, swap, ending) == Some(s);
    hide MakeRoom;
    assert Restart(s, c) == if s.calls[c].state in {Hold, CallTransfer, CallConference} then Resumed(s, c) else s;
    hide Restart;
  }

  /** One that still talks is put on hold first, and stays as it is if that fails. */
  lemma ResumeOfTalkingCall(s: Phone, c: CallId, locked: bool, ending: Ending)
    requires c in s.calls && s.calls[c].state in TALKING && s.calls[c].owner && locked
    ensures
      var s1 := Step(s, PressHold(c));
      && c in s1.calls
      && Step(s, PressResume(c, false, locked, ending)) == if s.calls[c].attached then Back(s1, c) else s
  {
    hide Resumed, Back, HoldCall, OnHold, EndCall;
    var s1 := HoldCall(s, c);
    HeldIsResumable(s, c);
    ResumedIsBack(s1, c);
    assert ResumeCall(s, c, false, locked, ending) == Restart(s, c);
    hide ResumeCall;
  }

  lemma HeldIsResumable(s: Phone, c: CallId)
    requires c in s.calls
    ensures c in HoldCall(s, c).calls && (CanHold(s, c) ==> HoldCall(s, c).calls[c].state == Hold)
  {
  }

  /** With swapping, another active call makes room first: it is put on hold if it talks, ended if it was never used;
    * any other stands in the way. */
  lemma ResumeMakesRoom(s: Phone, c: CallId, locked: bool, ending: Ending, a: CallId)
    requires c in s.calls && Shown(s, a) && s.calls[a].attached && a != c
    ensures
      var resume := PressResume(c, false, locked, ending);
      Step(s, PressResume(c, true, locked, ending)) ==
        if !s.calls[c].owner || !locked then s
        else if s.calls[a].state in {OnHook, OffHook} then Step(Step(s, End(a, ending)), resume)
        else if s.calls[a].state in TALKING then Step(Step(s, PressHold(a)), resume)
        else s
  {
    hide EndCall, HoldCall, Restart;
    EndKeepsOwner(s, a, c, ending);
    HeldSteps.HoldOthers(s, a, c);
  }

  /** Ending or cancelling one call leaves another on the line, with its PBX channel. */
  lemma EndKeepsOwner(s: Phone, a: CallId, c: CallId, ending: Ending)
    requires c in s.calls && a != c
    ensures c in EndCall(s, a, ending).calls && EndCall(s, a, ending).calls[c].owner == s.calls[c].owner
  {
    hide Cancel, Leave;
    var s1 := if IsAttached(s, a) && s.transferee != Some(a) then Cancel(s, a) else s;
    CancelKeepsOwner(s, a, c);
    if a in s1.calls {
      CancelKeepsOwner(s1, a, c);
      HeldSteps.LeaveState(if IsAttached(s1, a) then Cancel(s1, a) else s1, a, c);
    }
  }

  lemma CancelKeepsOwner(s: Phone, a: CallId, c: CallId)
    requires c in s.calls
    ensures c in Cancel(s, a).calls && Cancel(s, a).calls[c].owner == s.calls[c].owner
  {
    hide Release;
    if s.transferee.Some? && s.transferee.value != a {
      var t := s.transferee.value;
      ReleasedCalls(Detach(Indicate(s, t, Hold), t), t);
    }
  }

  // ---------------------------------------------------------------------------------------------
  // Ending a call

  /** The transfer of another call as the end of call c leaves it: the transferee is on hold without the device, not
    * counted anew, and both references are given up. */
  function Cancelled(s: Phone, c: CallId): Phone {
    if s.transferee.Some? && s.transferee.value != c && s.transferee.value in s.calls then
      var t := s.transferee.value;
      s.(calls := s.calls[t := s.calls[t].(state := Hold, attached := false)],
         active := if s.calls[t].attached then None else s.active,
         transferee := None, transferer := None,
         dropped := s.dropped + multiset{t}
                    + (if s.transferer.Some? then multiset{s.transferer.value} else multiset{}))
    else s
  }

  lemma CancelCancels(s: Phone, c: CallId)
    requires WellFormed(s)
    ensures Cancel(s, c) == Cancelled(s, c)
  {
  }

  lemma LeavingEmptiesSlots(s: Phone, c: CallId)
    requires (s.transferee.Some? <==> s.transferer.Some?) && c in s.calls
    ensures
      var s' := Leave(s, c);
      var freed := s.transferee.Some? && (s.transferee.value == c || s.transferer.value == c);
      && s'.calls == s.calls - {c} && s'.held == s.held && s'.taken == s.taken
      && s'.active == (if s.calls[c].attached then None else s.active)
      && s'.transferee == (if freed then None else s.transferee)
      && s'.transferer == (if freed then None else s.transferer)
      && s'.dropped == (if freed then s.dropped + multiset{s.transferee.value} + multiset{s.transferer.value}
                        else s.dropped)
  {
    var s1 := Release(s, c);
    ReleasedCalls(s, c);
    hide Release;
    assert s1.calls[c := s1.calls[c].(attached := false)] - {c} == s.calls - {c};
    SlotsReleased(s, c);
  }

  lemma SlotsReleased(s: Phone, c: CallId)
    requires s.transferee.Some? <==> s.transferer.Some?
    ensures
      var freed := s.transferee.Some? && (s.transferee.value == c || s.transferer.value == c);
      Release(s, c) == if freed then s.(transferee := None, transferer := None,
                              dropped := s.dropped + multiset{s.transferee.value} + multiset{s.transferer.value})
                       else s
  {
  }

  /** A hangup takes the call off the line, cancels the transfer of another call if the call had the device, gives up the
    * slots if the call was in one, takes the device away, and counts one call fewer exactly if it was on hold. */
  lemma HangupRemoves(s: Phone, c: CallId)
    requires WellFormed(s)
    ensures
      var s' := Step(s, Hangup(c));
      if c !in s.calls then s' == s
      else
        var freed := s.transferee.Some?
                     && (s.calls[c].attached || s.transferee.value == c || s.transferer.value == c);
        var before := if s.calls[c].attached then Cancelled(s, c) else s;
        && s'.calls == before.calls - {c}
        && s'.active == (if s.calls[c].attached then None else s.active)
        && s'.held == (if s.calls[c].state == Hold then OneLower(s.held) else s.held)
        && s'.taken == s.taken
        && s'.transferee == (if freed then None else s.transferee)
        && s'.transferer == (if freed then None else s.transferer)
        && s'.dropped == (if freed then s.dropped + multiset{s.transferee.value} + multiset{s.transferer.value}
                          else s.dropped)
  {
    hide Cancel, Leave;
    if c in s.calls {
      var s1 := if s.calls[c].attached then Cancelled(s, c) else s;
      CancelCancels(s, c);
      CancelledFacts(s, c);
      hide Cancelled, WellFormed;
      LeavingEmptiesSlots(s1, c);
      Bytes(s.held);
      hide OneLower;
    }
  }

  lemma CancelledFacts(s: Phone, c: CallId)
    requires WellFormed(s) && c in s.calls
    ensures
      var s' := Cancelled(s, c);
      var over := s.transferee.Some? && s.transferee.value != c;
      && s'.held == s.held && s'.taken == s.taken && c in s'.calls && s'.calls[c] == s.calls[c]
      && s'.transferee == (if over then None else s.transferee)
      && s'.transferer == (if over then None else s.transferer)
      && s'.dropped == (if over then s.dropped + multiset{s.transferee.value} + multiset{s.transferer.value}
                        else s.dropped)
  {
  }

  /** Ending a call first cancels the transfer of another, if the call has the device. Then a call with a PBX channel
    * is hung up at once, put down, or left for the PBX to hang up. */
  lemma EndingACall(s: Phone, c: CallId, ending: Ending)
    requires WellFormed(s)
    ensures
      var s1 := if c in s.calls && s.calls[c].attached then Cancelled(s, c) else s;
      Step(s, End(c, ending)) ==
        if c !in s.calls || !s.calls[c].owner || ending == Queued then s1
        else if ending == Immediate then Step(s1, Hangup(c))
        else if s.calls[c].attached then s1.(calls := s1.calls[c := s.calls[c].(state := Down)])
        else s1
  {
    hide Cancel, Cancelled, Remove, WellFormed;
    CancelCancels(s, c);
    if c in s.calls { CancelLeaves(s, c); }
    assert Cancelled(s, c) == s || s.transferee != Some(c) by { OwnTransferStays(s, c); }
  }

  lemma OwnTransferStays(s: Phone, c: CallId)
    ensures s.transferee == Some(c) ==> Cancelled(s, c) == s
  {
  }

  lemma CancelLeaves(s: Phone, c: CallId)
    requires c in s.calls
    ensures c in Cancelled(s, c).calls && Cancelled(s, c).calls[c] == s.calls[c]
  {
  }
}
