/**
 * Hold, resume and attended transfer on one phone with one line.
 *
 * A phone has an active call and two transfer slots, each of which owns a counted reference to the
 * call it names; the line counts the calls on hold in an unsigned byte.  Every operation below is one
 * of the driver's functions as a function on the phone's state.  Whatever Asterisk decides (is there a
 * bridged peer, does the attended transfer succeed, is a hangup immediate) is a parameter.
 */
module TransferHold {
  import opened Common

  type CallId = nat

  datatype State =
    | Down | OnHook | OffHook | Dialing | RingOut | RingOutAlerting | Ringing | Proceed | Progress
    | Connected | ConnectedConference | Hold | CallConference | CallTransfer | Congestion | Other

  /** `attached`: the call has its device; `owner`: it has an Asterisk channel, `ringing` as long as that
    * channel can be answered; `aside`: history, set by a hold, cleared by a resume or a transfer. */
  datatype Call = Call(state: State, attached: bool, owner: bool, dialed: bool, ringing: bool, aside: bool)

  /** `taken` and `dropped` are histories: every reference the two slots ever took and gave up. */
  datatype Phone = Phone(
    calls: map<CallId, Call>,
    active: Option<CallId>,
    transferee: Option<CallId>,
    transferer: Option<CallId>,
    held: nat,
    taken: multiset<CallId>,
    dropped: multiset<CallId>)

  /** How far the allocation of an outgoing call gets. */
  datatype Alloc = NoMemory | NoPbx | Allocated

  /** What a hangup request does: wait for Asterisk, hang up at once, or only put the call on hook. */
  datatype Ending = Queued | Immediate | HookOnly

  /** Asterisk's answers during a completion. */
  datatype Peer = Peer(bridged: bool, attended: bool)

  datatype Event =
    | Arrive(c: CallId, waiting: bool)
    | PlaceCall(c: CallId, alloc: Alloc)
    | Advance(c: CallId, state: State, dialed: bool)
    | LoseOwner(c: CallId)
    | PressHold(c: CallId)
    | PressResume(c: CallId, swap: bool, locked: bool, ending: Ending)
    | PressTransfer(c: CallId, n: CallId, allowed: bool, alloc: Alloc, peer: Peer)
    | TransferOnHook(c: CallId, peer: Peer)
    | DirectTransfer(c: CallId, d: CallId, locked: bool, ending: Ending, peer: Peer)
    | PressAnswer(c: CallId)
    | End(c: CallId, ending: Ending)
    | Hangup(c: CallId)

  // ---------------------------------------------------------------------------------------------
  // The unsigned byte that counts the calls on hold

  function Inc(held: nat): nat { (held + 1) % 256 }

  function Dec(held: nat): nat { (held + 255) % 256 }

  // ---------------------------------------------------------------------------------------------
  // Device and state of a call

  function Put(s: Phone, c: CallId, call: Call): Phone {
    s.(calls := s.calls[c := call])
  }

  function Indicate(s: Phone, c: CallId, state: State): Phone {
    if c in s.calls then Put(s, c, s.calls[c].(state := state)) else s
  }

  function Attach(s: Phone, c: CallId): Phone {
    if c in s.calls then Put(s, c, s.calls[c].(attached := true)).(active := Some(c)) else s
  }

  /** Taking the device away from a call also clears the device's active call, whichever that is. */
  function Detach(s: Phone, c: CallId): Phone {
    if c in s.calls && s.calls[c].attached then
      Put(s, c, s.calls[c].(attached := false)).(active := None)
    else
      s
  }

  predicate IsAttached(s: Phone, c: CallId) {
    c in s.calls && s.calls[c].attached
  }

  /** The device's active call, unless that call is already down. */
  function ActiveCall(s: Phone): Option<CallId> {
    if s.active.Some? && s.active.value in s.calls && s.calls[s.active.value].state != Down then
      s.active
    else
      None
  }

  // ---------------------------------------------------------------------------------------------
  // The two slots

  function SlotRefs(s: Phone): multiset<CallId> {
    (if s.transferee.Some? then multiset{s.transferee.value} else multiset{})
    + (if s.transferer.Some? then multiset{s.transferer.value} else multiset{})
  }

  function TakeTransferee(s: Phone, c: CallId): Phone {
    s.(transferee := Some(c), taken := s.taken + multiset{c})
  }

  function TakeTransferer(s: Phone, c: CallId): Phone {
    s.(transferer := Some(c), taken := s.taken + multiset{c})
  }

  function DropTransferee(s: Phone): Phone {
    if s.transferee.Some? then
      s.(transferee := None, dropped := s.dropped + multiset{s.transferee.value})
    else
      s
  }

  function DropTransferer(s: Phone): Phone {
    if s.transferer.Some? then
      s.(transferer := None, dropped := s.dropped + multiset{s.transferer.value})
    else
      s
  }

  /** Empties both slots, provided the call is in one of them. */
  function Release(s: Phone, c: CallId): Phone {
    if s.transferee == Some(c) || s.transferer == Some(c) then DropTransferer(DropTransferee(s)) else s
  }

  /** The transferee goes (back) on hold, uncounted, and both slots are emptied. */
  function Cancel(s: Phone, c: CallId): Phone {
    if s.transferee.Some? && s.transferee.value != c then
      var t := s.transferee.value;
      Release(Detach(Indicate(s, t, Hold), t), t)
    else
      s
  }

  // ---------------------------------------------------------------------------------------------
  // Hold, hangup and resume

  predicate Talking(state: State) {
    state == Connected || state == ConnectedConference || state == Proceed
  }

  predicate CanHold(s: Phone, c: CallId) {
    IsAttached(s, c) && Talking(s.calls[c].state)
  }

  function HoldCall(s: Phone, c: CallId): Phone {
    if CanHold(s, c) then
      var d := Detach(Indicate(s, c, Hold), c);
      Put(d, c, d.calls[c].(aside := true)).(held := Inc(d.held))
    else
      s
  }

  /** The call gives up its slots and its device and is taken off the line. */
  function Leave(s: Phone, c: CallId): Phone {
    var s1 := Detach(Release(s, c), c);
    s1.(calls := s1.calls - {c})
  }

  /** Any transfer is cancelled or released, and only a call in state HOLD is taken off the count. */
  function Remove(s: Phone, c: CallId): Phone {
    if c in s.calls then
      var s1 := Leave(if IsAttached(s, c) then Cancel(s, c) else s, c);
      if s.calls[c].state == Hold then s1.(held := Dec(s1.held)) else s1
    else
      s
  }

  /** Hanging up a call that has an Asterisk channel. */
  function Ended(s: Phone, c: CallId, ending: Ending): Phone {
    if c !in s.calls || !s.calls[c].owner then s
    else match ending
      case Queued => s
      case Immediate => Remove(s, c)
      case HookOnly => if IsAttached(s, c) then Indicate(s, c, Down) else s
  }

  /** The user ends the call: another call's transfer is cancelled first. */
  function EndCall(s: Phone, c: CallId, ending: Ending): Phone {
    Ended(if IsAttached(s, c) && s.transferee != Some(c) then Cancel(s, c) else s, c, ending)
  }

  predicate Unused(state: State) {
    state == Down || state == OnHook || state == OffHook
  }

  /** The first part of a resume: the active call makes room.  None means that it could not. */
  function MakeRoom(s: Phone, c: CallId, swap: bool, ending: Ending): Option<Phone> {
    var a := ActiveCall(s);
    if !swap || a.None? || a.value == c then Some(s)
    else if Unused(s.calls[a.value].state) then Some(EndCall(s, a.value, ending))
    else if CanHold(s, a.value) then Some(HoldCall(s, a.value))
    else None
  }

  predicate Resumable(state: State) {
    state == Hold || state == CallTransfer || state == CallConference
  }

  /** The call gets the device and is connected, and one call fewer is counted on hold. */
  function Reopen(s: Phone, c: CallId): Phone {
    if c in s.calls then
      var s1 := Attach(s, c);
      Put(s1, c, s1.calls[c].(state := Connected, aside := false)).(held := Dec(s1.held))
    else
      s
  }

  /** A transfer under way ends, unless it is the transferee itself that is resumed. */
  function Resumed(s: Phone, c: CallId): Phone {
    Reopen(if s.transferee != Some(c) then Release(s, c) else s, c)
  }

  /** The second part: a call still connected is held first, and then only a held call is resumed. */
  function Restart(s: Phone, c: CallId): Phone {
    if c !in s.calls then s
    else if Talking(s.calls[c].state) && !CanHold(s, c) then s
    else
      var s1 := if Talking(s.calls[c].state) then HoldCall(s, c) else s;
      if Resumable(s1.calls[c].state) then Resumed(s1, c) else s1
  }

  function ResumeCall(s: Phone, c: CallId, swap: bool, locked: bool, ending: Ending): Phone {
    if c !in s.calls || !s.calls[c].owner || !locked then s
    else match MakeRoom(s, c, swap, ending)
      case None => s
      case Some(s1) => Restart(s1, c)
  }

  // ---------------------------------------------------------------------------------------------
  // New calls

  function Born(s: Phone, n: CallId, alloc: Alloc): (Phone, Option<CallId>) {
    if n in s.calls || alloc == NoMemory then (s, None)
    else if alloc == NoPbx then (Attach(Put(s, n, Call(Down, false, false, false, false, false)), n), None)
    else (Attach(Put(s, n, Call(OffHook, false, true, false, false, false)), n), Some(n))
  }

  /** An active call that is off hook and undialled is used again; any other is put on hold first. */
  function NewCall(s: Phone, n: CallId, alloc: Alloc): (Phone, Option<CallId>) {
    var a := ActiveCall(s);
    if a.None? then Born(s, n, alloc)
    else if s.calls[a.value].state == OffHook && !s.calls[a.value].dialed then (s, a)
    else if IsAttached(s, a.value) && !CanHold(s, a.value) then (s, None)
    else Born(HoldCall(s, a.value), n, alloc)
  }

  function AnswerCall(s: Phone, c: CallId): Phone {
    if c !in s.calls || !s.calls[c].owner then s
    else
      var a := ActiveCall(s);
      if a.Some? && a.value != c && !CanHold(s, a.value) then s
      else
        var s1 := if a.Some? && a.value != c then HoldCall(s, a.value) else s;
        if s1.calls[c].ringing then
          var s2 := Attach(s1, c);
          Put(s2, c, s2.calls[c].(ringing := false))
        else
          s1
  }

  // ---------------------------------------------------------------------------------------------
  // Transfer

  predicate Reached(state: State) {
    state == RingOut || state == RingOutAlerting || state == Connected || state == Progress
  }

  predicate CanComplete(s: Phone, dest: CallId, peer: Peer) {
    && IsAttached(s, dest)
    && Reached(s.calls[dest].state)
    && s.calls[dest].owner
    && s.transferee.Some?
    && s.transferee.value in s.calls
    && s.calls[s.transferee.value].owner
    && peer.bridged
  }

  function Complete(s: Phone, dest: CallId, peer: Peer): Phone {
    if CanComplete(s, dest, peer) then
      var t := s.transferee.value;
      var s1 := Release(s, t);
      if peer.attended then
        Put(s1, t, s1.calls[t].(aside := false)).(held := Dec(s1.held))
      else
        s1
    else
      s
  }

  /** With its device gone, a call can be transferred only from its own slot or from hold. */
  predicate HasDevice(s: Phone, c: CallId) {
    c in s.calls
    && (s.calls[c].attached || (s.transferee == Some(c) && s.transferer.Some?) || s.calls[c].state == Hold)
  }

  /** The consultation call for a transferee that is already in its slot. */
  function Consult(s: Phone, c: CallId, before: State, n: CallId, alloc: Alloc, peer: Peer): Phone {
    if c in s.calls && s.calls[c].owner then
      var (s1, got) := NewCall(Indicate(s, c, CallTransfer), n, alloc);
      if got.Some? && peer.bridged then
        TakeTransferer(s1, got.value)
      else
        DropTransferee(Indicate(s1, c, Congestion))
    else
      DropTransferee(Indicate(s, c, before))
  }

  function Stage(s: Phone, c: CallId, n: CallId, alloc: Alloc, peer: Peer): Phone {
    var before := if c in s.calls then s.calls[c].state else Down;
    var s1 := TakeTransferee(s, c);
    if before == OffHook || before == Hold || before == CallTransfer then
      Consult(s1, c, before, n, alloc, peer)
    else if CanHold(s1, c) then
      Consult(HoldCall(s1, c), c, before, n, alloc, peer)
    else
      DropTransferee(s1)
  }

  function TransferCall(s: Phone, c: CallId, n: CallId, allowed: bool, alloc: Alloc, peer: Peer): Phone {
    if !HasDevice(s, c) || !allowed then s
    else if s.transferee.Some? && s.transferer.Some? then Complete(s, s.transferer.value, peer)
    else Stage(if s.transferee.None? then DropTransferer(s) else s, c, n, alloc, peer)
  }

  function StageBoth(s: Phone, t: CallId, a: CallId, peer: Peer): Phone {
    var s1 := DropTransferer(DropTransferee(s));
    Complete(TakeTransferer(TakeTransferee(s1, t), a), a, peer)
  }

  /** The direct transfer key joins the two calls c and d of a line. */
  function JoinCalls(s: Phone, c: CallId, d: CallId, locked: bool, ending: Ending, peer: Peer): Phone {
    if c !in s.calls || d !in s.calls || c == d then s
    else if s.calls[d].state != Connected && s.calls[c].state == Connected then StageBoth(s, d, c, peer)
    else if s.calls[c].state == Hold && s.calls[d].state == Hold then
      StageBoth(ResumeCall(s, d, true, locked, ending), c, d, peer)
    else
      StageBoth(s, c, d, peer)
  }

  // ---------------------------------------------------------------------------------------------
  // Events

  function Step(s: Phone, e: Event): Phone {
    match e
    case Arrive(c, waiting) =>
      if c in s.calls then s
      else Put(s, c, Call(if waiting then Other else Ringing, false, true, false, true, false))
    case PlaceCall(n, alloc) => NewCall(s, n, alloc).0
    case Advance(c, state, dialed) =>
      if IsAttached(s, c) && state != Hold && state != CallTransfer then
        Put(s, c, s.calls[c].(state := state, dialed := s.calls[c].dialed || dialed))
      else
        s
    case LoseOwner(c) => if c in s.calls then Put(s, c, s.calls[c].(owner := false)) else s
    case PressHold(c) => HoldCall(s, c)
    case PressResume(c, swap, locked, ending) => ResumeCall(s, c, swap, locked, ending)
    case PressTransfer(c, n, allowed, alloc, peer) => TransferCall(s, c, n, allowed, alloc, peer)
    case TransferOnHook(c, peer) =>
      if IsAttached(s, c) && s.transferee.Some? && s.transferer == Some(c) then Complete(s, c, peer) else s
    case DirectTransfer(c, d, locked, ending, peer) => JoinCalls(s, c, d, locked, ending, peer)
    case PressAnswer(c) => AnswerCall(s, c)
    case End(c, ending) => EndCall(s, c, ending)
    case Hangup(c) => Remove(s, c)
  }

  function Run(s: Phone, events: seq<Event>): Phone
    decreases |events|
  {
    if events == [] then s else Run(Step(s, events[0]), events[1..])
  }

  const IDLE: Phone := Phone(map[], None, None, None, 0, multiset{}, multiset{})
}
