/**
 * What comes of taking the locks and of the answer gate: exactly who passes it, and exactly why a thread
 * comes away without a PBX channel.
 */
module ChannelAnswer {
  import opened Common
  import opened ChannelLock

  /** A phone that answers with both locks held claims the call if and only if the PBX channel rings, is not
    * hanging up, and no phone is answering yet; otherwise it leaves everything as it is. */
  lemma GateClaims(s: State, t: Tid, p: Pbx, phone: Phone)
    requires t in s.threads && s.threads[t].pc == Locked(p) && s.threads[t].purpose == Answer(phone)
    ensures CanStep(s, t)
    ensures
      var s' := Apply(s, Run(t));
      if p in s.ringing && p !in s.hangup && !s.isAnswering then
        s' == s.(threads := s.threads[t := s.threads[t].(pc := Claimed(p))],
                 isAnswering := true, winners := s.winners + [t])
      else
        s' == s.(threads := s.threads[t := s.threads[t].(pc := Unref(p))])
  {
  }

  /** Whoever takes both locks for another purpose leaves the gate alone. */
  lemma OthersPassBy(s: State, t: Tid, p: Pbx)
    requires t in s.threads && s.threads[t].pc == Locked(p) && s.threads[t].purpose == Other
    ensures CanStep(s, t)
    ensures Apply(s, Run(t)) == s.(threads := s.threads[t := s.threads[t].(pc := Unref(p))])
  {
  }

  /** The phone that claimed the call gets it: it is attached, the PBX channel stops ringing, and the callback that
    * completes the answer is set, before the thread gives up its reference. */
  lemma ClaimedIsAnswered(s: State, t: Tid, p: Pbx, phone: Phone)
    requires t in s.threads && s.threads[t].pc == Claimed(p) && s.threads[t].purpose == Answer(phone)
    ensures CanStep(s, t)
    ensures
      var s1 := Apply(s, Run(t));
      && CanStep(s1, t)
      && var s2 := Apply(s1, Run(t));
         && CanStep(s2, t)
         && var s3 := Apply(s2, Run(t));
            && s3.threads[t].pc == Unref(p)
            && s3.attachments == s.attachments + [phone]
            && s3.ringing == s.ringing - {p}
            && s3.callbacks == s.callbacks + 1
  {
  }

  /** A phone comes to the gate and finds a call that rings and is not hanging up. */
  predicate FindsRinging(s: State, a: Action) {
    && a.Run? && a.t in s.threads && s.threads[a.t].pc.Locked? && s.threads[a.t].purpose.Answer?
    && s.threads[a.t].pc.p in s.ringing && s.threads[a.t].pc.p !in s.hangup
  }

  ghost predicate NoneFindsRinging(s: State, acts: seq<Action>)
    decreases |acts|
  {
    acts == [] || (Enabled(s, acts[0]) && !FindsRinging(s, acts[0]) && NoneFindsRinging(Apply(s, acts[0]), acts[1..]))
  }

  lemma StepWinners(s: State, a: Action)
    requires Enabled(s, a) && (s.isAnswering <==> s.winners != [])
    ensures
      var s' := Apply(s, a);
      && (s'.isAnswering <==> s'.winners != [])
      && (s.winners != [] ==> s'.winners != [])
      && (s.winners == [] ==> (s'.winners == [] <==> !FindsRinging(s, a)))
  {
  }

  lemma {:induction false} WinnersAlong(s: State, acts: seq<Action>, last: State)
    requires Execution(s, acts, last) && (s.isAnswering <==> s.winners != [])
    ensures s.winners != [] ==> last.winners != []
    ensures s.winners == [] ==> (last.winners == [] <==> NoneFindsRinging(s, acts))
    decreases |acts|
  {
    if acts != [] {
      StepWinners(s, acts[0]);
      hide Enabled, Apply, FindsRinging;
      WinnersAlong(Apply(s, acts[0]), acts[1..], last);
    }
  }

  /** In every interleaving, nobody answers exactly if no phone that got the locks for it found the call ringing
    * and not hanging up. */
  lemma SomebodyAnswers(first: State, acts: seq<Action>, last: State)
    requires Initial(first) && Execution(first, acts, last)
    ensures last.winners == [] <==> NoneFindsRinging(first, acts)
  {
    hide Execution, NoneFindsRinging;
    WinnersAlong(first, acts, last);
  }

  // ---------------------------------------------------------------- why a thread gets no PBX channel

  /** With both locks taken, a thread keeps them exactly if the PBX channel is still the owner. */
  lemma OwnerIsKept(s: State, t: Tid, p: Pbx)
    requires t in s.threads && s.threads[t].pc == Holding(p)
    ensures CanStep(s, t)
    ensures
      var pc := Apply(s, Run(t)).threads[t].pc;
      pc == if s.owner == Some(p) then Locked(p) else Mismatch(p)
  {
  }

  predicate Explained(th: Thread, owner: Option<Pbx>, changes: nat) {
    && (th.retries > 0 ==> th.retry)
    && (th.pc.GiveUp? ==> !th.retry && changes > 0)
    && (th.pc.Failed? ==> owner == None || (!th.retry && changes > 0))
  }

  ghost predicate AllExplained(s: State) {
    forall t | t in s.threads :: Explained(s.threads[t], s.owner, s.ownerChanges)
  }

  lemma NextExplained(th: Thread, owner: Option<Pbx>, changes: nat, gateOpen: bool)
    requires !th.pc.Finished? && Earned(th, owner, changes) && Explained(th, owner, changes)
    ensures Explained(Next(th, owner, changes, gateOpen).0, owner, changes)
  {
  }

  lemma RunExplained(s: State, t: Tid)
    requires RetriesEarned(s) && AllExplained(s) && CanStep(s, t)
    ensures AllExplained(Advance(s, t))
  {
    NextExplained(s.threads[t], s.owner, s.ownerChanges, PassesGate(s, s.threads[t]));
    assert Perform(s, t, EffectOf(s, t)).owner == s.owner;
    PerformKeeps(s, t, EffectOf(s, t));
    hide Next, Perform, RetriesEarned, PassesGate, Explained, CanStep;
  }

  lemma SetOwnerExplained(s: State, o: Option<Pbx>)
    requires ChannelAgrees(s) && AllExplained(s) && s.channel == None
    ensures AllExplained(Apply(s, SetOwner(o)))
  {
    var s' := Apply(s, SetOwner(o));
    assert s'.threads == s.threads && s'.ownerChanges == s.ownerChanges + 1;
    hide Apply;
    forall t | t in s'.threads ensures Explained(s'.threads[t], s'.owner, s'.ownerChanges) {
      assert Explained(s.threads[t], s.owner, s.ownerChanges) && !HoldsChannel(s.threads[t].pc);
    }
  }

  lemma StepExplained(s: State, a: Action)
    requires Inv(s) && AllExplained(s) && Enabled(s, a)
    ensures AllExplained(Apply(s, a))
  {
    hide ChannelAgrees, PbxAgrees, OwnerPinned, RefsBalanced, RetriesEarned, OneWinner, Advance, CanStep, Explained;
    match a
    case Run(t) => RunExplained(s, t);
    case SetOwner(o) => SetOwnerExplained(s, o);
    case PbxEvent(_, _, _) =>
  }

  lemma {:induction false} ExplainedAlong(s: State, acts: seq<Action>, last: State)
    requires Inv(s) && AllExplained(s) && Execution(s, acts, last)
    ensures AllExplained(last)
    decreases |acts|
  {
    if acts != [] {
      StepExplained(s, acts[0]);
      hide AllExplained, Inv;
      assert Inv(Apply(s, acts[0])) by { OneStepInv(s, acts[0]); }
      ExplainedAlong(Apply(s, acts[0]), acts[1..], last);
    }
  }

  lemma OneStepInv(s: State, a: Action)
    requires Inv(s) && Enabled(s, a)
    ensures Inv(Apply(s, a))
  {
    assert [a][1..] == [];
    assert Execution(s, [a], Apply(s, a));
    hide Inv, Apply, Enabled, Execution;
    ExecutionInv(s, [a], Apply(s, a));
  }

  /** In every interleaving, a thread that was told to retry comes away without a PBX channel only if the channel
    * has no owner; one that was not told so never retries, and else only if the owner was replaced. */
  lemma OnlyOwnerlessFails(first: State, acts: seq<Action>, s: State, t: Tid)
    requires Initial(first) && Execution(first, acts, s) && t in s.threads
    ensures s.threads[t].pc.Failed? && s.threads[t].retry ==> s.owner == None
    ensures s.threads[t].pc.Failed? && !s.threads[t].retry ==> s.owner == None || s.ownerChanges > 0
    ensures !s.threads[t].retry ==> s.threads[t].retries == 0
  {
    InitialInv(first);
    assert AllExplained(first);
    hide Inv, Initial, Execution;
    ExplainedAlong(first, acts, s);
  }
}
