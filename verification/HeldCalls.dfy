/**
 * The count of the calls on hold.  It is an unsigned byte that hold raises and that resume, a completed
 * transfer and the removal of a call in state HOLD lower.  The lemmas say for each operation exactly
 * when it keeps the count right, and every call that looks on hold among those counted.
 */
module HeldCalls {
  import opened Common
  import opened TransferHold
  import opened TransferSlots

  /** The calls put aside by a hold and not yet resumed or transferred. */
  function Aside(s: Phone): set<CallId> {
    set c | c in s.calls && s.calls[c].aside
  }

  ghost predicate Balanced(s: Phone) {
    s.held == |Aside(s)| % 256
  }

  /** Whoever looks on hold was put there by a hold. */
  ghost predicate Marked(s: Phone) {
    forall c :: c in s.calls && s.calls[c].state == Hold ==> s.calls[c].aside
  }

  ghost predicate Sound(s: Phone) {
    Balanced(s) && Marked(s)
  }

  /** A call with a device is neither aside nor on hold. */
  ghost predicate Present(s: Phone) {
    forall c :: c in s.calls && s.calls[c].attached ==> !s.calls[c].aside && s.calls[c].state != Hold
  }

  // ---------------------------------------------------------------------------------------------
  // When each operation keeps the count right

  /** Nobody is put aside or taken back. */
  lemma SameAside(s: Phone, s': Phone)
    requires Aside(s') == Aside(s) && s'.held == s.held
    ensures Balanced(s') <==> Balanced(s)
  {
  }

  /** Adding one to a byte and taking it off again; taking one off is never nothing. */
  lemma ByteFacts(n: nat)
    ensures Inc(n % 256) == (n + 1) % 256
    ensures Dec((n + 1) % 256) == n % 256
    ensures Dec(n % 256) != n % 256 && n % 256 != (n + 1) % 256
  {
  }

  lemma OneMore(s: Phone, s': Phone, c: CallId)
    requires c !in Aside(s) && Aside(s') == Aside(s) + {c} && s'.held == Inc(s.held) && Balanced(s)
    ensures Balanced(s')
  {
    assert |Aside(s')| == |Aside(s)| + 1;
    ByteFacts(|Aside(s)|);
    hide Inc, Aside;
  }

  /** One is taken off the count: right exactly if a call was taken back. */
  lemma OneLess(s: Phone, s': Phone, c: CallId)
    requires Aside(s') == Aside(s) - {c} && s'.held == Dec(s.held) && Balanced(s)
    ensures Balanced(s') <==> c in Aside(s)
  {
    hide Dec, Aside;
    ByteFacts(|Aside(s')|);
    if c in Aside(s) {
      assert |Aside(s)| == |Aside(s')| + 1;
    } else {
      assert Aside(s') == Aside(s);
    }
  }

  lemma Uncounted(s: Phone, s': Phone, c: CallId)
    requires Aside(s') == Aside(s) - {c} && s'.held == s.held && Balanced(s)
    ensures Balanced(s') <==> c !in Aside(s)
  {
    hide Aside;
    ByteFacts(|Aside(s')|);
    if c in Aside(s) {
      assert |Aside(s)| == |Aside(s')| + 1;
    } else {
      assert Aside(s') == Aside(s);
    }
  }

  /** One call's record is replaced. */
  lemma PutCounts(s: Phone, s': Phone, c: CallId, call: Call)
    requires Marked(s) && Present(s) && s'.calls == s.calls[c := call]
    ensures Marked(s') <==> (call.state == Hold ==> call.aside)
    ensures Present(s') <==> (call.attached ==> !call.aside && call.state != Hold)
    ensures Aside(s') == if call.aside then Aside(s) + {c} else Aside(s) - {c}
  {
    assert s'.calls[c] == call;
  }

  lemma HoldCounts(s: Phone, c: CallId)
    requires Sound(s) && Present(s)
    ensures Sound(HoldCall(s, c)) && Present(HoldCall(s, c))
  {
    if CanHold(s, c) {
      assert Aside(HoldCall(s, c)) == Aside(s) + {c};
      OneMore(s, HoldCall(s, c), c);
    }
  }

  /** What another call's end asks of the transfer it cancels: the transferee must still be aside. */
  predicate CancelFits(s: Phone, c: CallId) {
    s.transferee.Some? && s.transferee.value in s.calls && s.transferee.value != c ==>
      s.calls[s.transferee.value].aside
  }

  /** Cancelling indicates HOLD without counting, which leaves the count as right as it was; but whoever looks on
    * hold is aside exactly if the transferee still is, and its next resume or hangup counts on that. */
  lemma CancelCounts(s: Phone, c: CallId)
    requires Sound(s) && Present(s) && WellFormed(s)
    ensures Sound(Cancel(s, c)) <==> CancelFits(s, c)
    ensures Present(Cancel(s, c)) && Balanced(Cancel(s, c)) && Aside(Cancel(s, c)) == Aside(s)
  {
    if s.transferee.Some? && s.transferee.value != c {
      var t := s.transferee.value;
      var s1 := Detach(Indicate(s, t, Hold), t);
      ParkKeeps(s, t);
      ParkCounts(s, t);
      hide Detach, Indicate, Sound, Present;
      ReleaseKeeps(s1, t);
      hide Release, WellFormed;
      SameCalls(s1, Cancel(s, c));
    }
  }

  lemma ParkCounts(s: Phone, t: CallId)
    requires Sound(s) && Present(s) && t in s.calls
    ensures
      var s' := Detach(Indicate(s, t, Hold), t);
      && (Sound(s') <==> s.calls[t].aside) && Present(s') && Balanced(s') && Aside(s') == Aside(s)
  {
    var s' := Detach(Indicate(s, t, Hold), t);
    var call := s.calls[t].(state := Hold, attached := false);
    assert s'.calls == s.calls[t := call] && s'.held == s.held;
    hide Detach, Indicate, Marked, Present;
    PutCounts(s, s', t, call);
    InAside(s, t);
    assert Aside(s') == Aside(s);
    hide Aside;
  }

  lemma SameCalls(s: Phone, s': Phone)
    requires s'.calls == s.calls && s'.held == s.held
    ensures Aside(s') == Aside(s) && (Sound(s') <==> Sound(s)) && (Present(s') <==> Present(s))
    ensures Balanced(s') <==> Balanced(s)
  {
  }

  lemma RemoveCountsAfter(s1: Phone, s': Phone, c: CallId)
    requires Balanced(s1) && Present(s1) && WellFormed(s1) && c in s1.calls
    requires s' == if s1.calls[c].state == Hold then Leave(s1, c).(held := Dec(Leave(s1, c).held)) else Leave(s1, c)
    ensures Marked(s') <==> forall x :: x in s1.calls && x != c && s1.calls[x].state == Hold ==> s1.calls[x].aside
    ensures Balanced(s') <==> (s1.calls[c].aside <==> s1.calls[c].state == Hold)
    ensures Present(s')
  {
    LeaveLooks(s1, c);
    Without(s1, s', c);
    hide Leave, WellFormed, Marked, Present, Aside;
    if s1.calls[c].state == Hold {
      OneLess(s1, s', c);
    } else {
      Uncounted(s1, s', c);
    }
    InAside(s1, c);
  }

  /** A call is taken off the line. */
  lemma Without(s: Phone, s': Phone, c: CallId)
    requires Present(s) && s'.calls == s.calls - {c}
    ensures Marked(s') <==> forall x :: x in s.calls && x != c && s.calls[x].state == Hold ==> s.calls[x].aside
    ensures Present(s') && Aside(s') == Aside(s) - {c}
  {
    assert forall x :: x in s'.calls <==> x in s.calls && x != c;
    assert forall x :: x in s'.calls ==> s'.calls[x] == s.calls[x];
  }

  lemma InAside(s: Phone, c: CallId)
    requires c in s.calls
    ensures c in Aside(s) <==> s.calls[c].aside
  {
  }

  lemma LeaveLooks(s: Phone, c: CallId)
    requires WellFormed(s) && c in s.calls
    ensures Leave(s, c).calls == s.calls - {c} && Leave(s, c).held == s.held
  {
    ReleaseKeeps(s, c);
    hide Release, WellFormed;
    assert s.calls[c := s.calls[c].(attached := false)] - {c} == s.calls - {c};
  }

  /** A call that leaves is uncounted exactly if its state is HOLD: right exactly if that is the state
    * of every call aside, and if the transfer its end cancels had its transferee aside. */
  lemma RemoveCounts(s: Phone, c: CallId)
    requires Sound(s) && Present(s) && WellFormed(s) && c in s.calls
    ensures Sound(Remove(s, c)) <==>
            (s.calls[c].attached ==> CancelFits(s, c)) && (s.calls[c].aside ==> s.calls[c].state == Hold)
    ensures Present(Remove(s, c))
  {
    hide Cancel, Leave, CancelFits, Present, WellFormed, Balanced;
    var s1 := if IsAttached(s, c) then Cancel(s, c) else s;
    CancelCounts(s, c);
    CancelKeeps(s, c);
    RemoveCountsAfter(s1, Remove(s, c), c);
  }

  lemma ReopenCounts(s: Phone, c: CallId)
    requires Sound(s) && Present(s) && c in s.calls
    ensures Sound(Reopen(s, c)) <==> s.calls[c].aside
    ensures Present(Reopen(s, c))
  {
    hide Marked, Present;
    var s' := Reopen(s, c);
    PutCounts(s, s', c, s.calls[c].(attached := true, state := Connected, aside := false));
    OneLess(s, s', c);
  }

  /** A resume uncounts the call: right exactly if the call was aside. */
  lemma ResumedCounts(s: Phone, c: CallId)
    requires Sound(s) && Present(s) && WellFormed(s) && c in s.calls
    ensures Sound(Resumed(s, c)) <==> s.calls[c].aside
    ensures Present(Resumed(s, c))
  {
    hide Release, Reopen, WellFormed;
    ReleaseKeeps(s, c);
    ReopenCounts(Release(s, c), c);
    ReopenCounts(s, c);
  }

  /** A completed transfer uncounts the transferee, which then waits for its hangup: right exactly if
    * it was aside, and no longer in state HOLD, which that hangup would uncount once more. */
  lemma CompleteCounts(s: Phone, dest: CallId, peer: Peer)
    requires Sound(s) && Present(s) && WellFormed(s)
    ensures Sound(Complete(s, dest, peer)) <==>
            (CanComplete(s, dest, peer) && peer.attended ==>
               s.calls[s.transferee.value].aside && s.calls[s.transferee.value].state != Hold)
    ensures Present(Complete(s, dest, peer))
  {
    if CanComplete(s, dest, peer) {
      var t := s.transferee.value;
      ReleaseKeeps(s, t);
      var s' := Complete(s, dest, peer);
      hide Release, WellFormed;
      if peer.attended {
        assert s'.calls == s.calls[t := s.calls[t].(aside := false)];
        assert s'.held == Dec(s.held);
        hide Marked, Present, Complete, CanComplete;
        PutCounts(s, s', t, s.calls[t].(aside := false));
        PresentFacts(s, t);
        OneLess(s, s', t);
      } else {
        SameCalls(s, s');
      }
    }
  }

  lemma PresentFacts(s: Phone, c: CallId)
    requires Present(s) && c in s.calls
    ensures s.calls[c].attached ==> !s.calls[c].aside && s.calls[c].state != Hold
  {
  }
}
