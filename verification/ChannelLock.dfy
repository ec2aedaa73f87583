/**
 Taking the channel lock together with the lock of its PBX channel, and the gate through which a
 phone answers, as steps of any number of threads. Every lock operation is a step of its own, so
 the theorems below quantify over every interleaving, with the owner replaced in between.
 */
module ChannelLock {
  import opened Common

  type Tid = nat
  type Pbx = nat
  type Phone = nat

  /** Why a thread wants both locks: a phone answers, or any other user such as resume. */
  datatype Purpose = Answer(phone: Phone) | Other

  /** Where a thread stands; the parameter is the PBX channel it read from the owner field. */
  datatype Pc =
    | Start
    | Entered                // channel locked, owner not read yet
    | Referenced(p: Pbx)     // channel locked, a reference to p taken
    | WaitPbx(p: Pbx)        // channel unlocked, about to lock p
    | WaitChannel(p: Pbx)    // p locked, about to lock the channel again
    | Holding(p: Pbx)        // both locked, owner not compared yet
    | Mismatch(p: Pbx)       // owner had changed, channel unlocked again
    | Unlocked(p: Pbx)       // p unlocked too, its reference still owned
    | GiveUp                 // no retry wanted, about to lock the channel for the caller
    | Failed                 // returned no PBX channel
    | Locked(p: Pbx)         // returned p
    | Claimed(p: Pbx)        // passed the answer gate
    | Attached(p: Pbx)       // answering phone attached
    | Offhook(p: Pbx)        // PBX channel taken out of ringing
    | Unref(p: Pbx)          // caller done, about to drop the reference
    | UnlockPbx(p: Pbx)
    | UnlockChannel
    | Finished

  datatype Thread = Thread(pc: Pc, purpose: Purpose, retry: bool, readAt: nat, retries: nat)

  datatype State = State(
    channel: Option<Tid>,
    pbx: map<Pbx, Tid>,
    owner: Option<Pbx>,
    ownerChanges: nat,
    refs: map<Pbx, int>,
    threads: map<Tid, Thread>,
    ringing: set<Pbx>,
    hangup: set<Pbx>,
    isAnswering: bool,
    winners: seq<Tid>,
    attachments: seq<Phone>,
    callbacks: nat)

  datatype Action =
    | Run(t: Tid)
    | SetOwner(owner: Option<Pbx>)
    | PbxEvent(p: Pbx, ringing: bool, hangup: bool)

  predicate HoldsChannel(pc: Pc) {
    !(pc.Start? || pc.WaitPbx? || pc.WaitChannel? || pc.Mismatch? || pc.Unlocked? || pc.GiveUp? || pc.Finished?)
  }

  /** The PBX channel whose lock a thread holds. */
  function LockOf(pc: Pc): Option<Pbx> {
    match pc
    case WaitChannel(p) => Some(p)
    case Holding(p) => Some(p)
    case Mismatch(p) => Some(p)
    case Locked(p) => Some(p)
    case Claimed(p) => Some(p)
    case Attached(p) => Some(p)
    case Offhook(p) => Some(p)
    case Unref(p) => Some(p)
    case UnlockPbx(p) => Some(p)
    case _ => None
  }

  /** The PBX channel a thread owns a reference to. */
  function RefOf(pc: Pc): Option<Pbx> {
    match pc
    case Referenced(p) => Some(p)
    case WaitPbx(p) => Some(p)
    case Unlocked(p) => Some(p)
    case UnlockPbx(p) => None
    case _ => LockOf(pc)
  }

  predicate InGate(pc: Pc) {
    pc.Claimed? || pc.Attached? || pc.Offhook?
  }

  /** Threads that know the owner: they hold the channel since they read or compared it. */
  predicate KnowsOwner(pc: Pc) {
    pc.Referenced? || pc.Locked? || InGate(pc) || pc.Unref? || pc.UnlockPbx?
  }

  /** Where the first comparison of the owner still lies ahead, or has failed. */
  predicate Searching(pc: Pc) {
    !(pc.Locked? || InGate(pc) || pc.Unref? || pc.UnlockPbx? || pc.UnlockChannel? || pc.Finished?)
  }

  function RefCount(refs: map<Pbx, int>, p: Pbx): int {
    if p in refs then refs[p] else 0
  }

  function AddRef(refs: map<Pbx, int>, p: Pbx, n: int): map<Pbx, int> {
    refs[p := RefCount(refs, p) + n]
  }

  /** What one step does to the state that threads share. */
  datatype Effect =
    | TakeChannel | DropChannel
    | TakePbx(p: Pbx) | DropPbx(p: Pbx)
    | TakeRef(p: Pbx) | DropRef(p: Pbx)
    | Claim | Attach(phone: Phone) | TakeOffhook(p: Pbx) | SetCallback
    | Nothing

  /** The next program point of a thread and what it does on the way there. */
  function Next(th: Thread, owner: Option<Pbx>, changes: nat, gateOpen: bool): (Thread, Effect)
    requires !th.pc.Finished?
  {
    match th.pc
    case Start => (th.(pc := Entered), TakeChannel)
    case Entered =>
      if owner == None then (th.(pc := Failed), Nothing)
      else (th.(pc := Referenced(owner.value), readAt := changes), TakeRef(owner.value))
    case Referenced(p) => (th.(pc := WaitPbx(p)), DropChannel)
    case WaitPbx(p) => (th.(pc := WaitChannel(p)), TakePbx(p))
    case WaitChannel(p) => (th.(pc := Holding(p)), TakeChannel)
    case Holding(p) =>
      if owner == Some(p) then (th.(pc := Locked(p)), Nothing) else (th.(pc := Mismatch(p)), DropChannel)
    case Mismatch(p) => (th.(pc := Unlocked(p)), DropPbx(p))
    case Unlocked(p) =>
      (if th.retry then th.(pc := Start, retries := th.retries + 1) else th.(pc := GiveUp), DropRef(p))
    case GiveUp => (th.(pc := Failed), TakeChannel)
    case Failed => (th.(pc := Finished), DropChannel)
    case Locked(p) =>
      if th.purpose.Answer? && gateOpen then (th.(pc := Claimed(p)), Claim) else (th.(pc := Unref(p)), Nothing)
    case Claimed(p) =>
      (th.(pc := Attached(p)), if th.purpose.Answer? then Attach(th.purpose.phone) else Nothing)
    case Attached(p) => (th.(pc := Offhook(p)), TakeOffhook(p))
    case Offhook(p) => (th.(pc := Unref(p)), SetCallback)
    case Unref(p) => (th.(pc := UnlockPbx(p)), DropRef(p))
    case UnlockPbx(p) => (th.(pc := UnlockChannel), DropPbx(p))
    case UnlockChannel => (th.(pc := Finished), DropChannel)
  }

  /** A step waits only for a lock another thread holds. */
  predicate CanStep(s: State, t: Tid) {
    t in s.threads &&
    match s.threads[t].pc
    case Start => s.channel == None
    case WaitPbx(p) => p !in s.pbx
    case WaitChannel(_) => s.channel == None
    case GiveUp => s.channel == None
    case Finished => false
    case _ => true
  }

  function Perform(s: State, t: Tid, e: Effect): State {
    match e
    case TakeChannel => s.(channel := Some(t))
    case DropChannel => s.(channel := None)
    case TakePbx(p) => s.(pbx := s.pbx[p := t])
    case DropPbx(p) => s.(pbx := s.pbx - {p})
    case TakeRef(p) => s.(refs := AddRef(s.refs, p, 1))
    case DropRef(p) => s.(refs := AddRef(s.refs, p, -1))
    case Claim => s.(isAnswering := true, winners := s.winners + [t])
    case Attach(phone) => s.(attachments := s.attachments + [phone])
    case TakeOffhook(p) => s.(ringing := s.ringing - {p})
    case SetCallback => s.(callbacks := s.callbacks + 1)
    case Nothing => s
  }

  /** The answer gate: the PBX channel rings, is not hanging up, and nobody is answering yet. */
  predicate GateOpen(s: State, p: Pbx) {
    p in s.ringing && p !in s.hangup && !s.isAnswering
  }

  predicate PassesGate(s: State, th: Thread) {
    th.pc.Locked? && GateOpen(s, th.pc.p)
  }

  /** One step of thread t. */
  function Advance(s: State, t: Tid): State
    requires CanStep(s, t)
  {
    var (now, e) := Next(s.threads[t], s.owner, s.ownerChanges, PassesGate(s, s.threads[t]));
    Perform(s, t, e).(threads := s.threads[t := now])
  }

  /** Writers of the owner field hold the channel lock, so the field changes only while it is free. */
  predicate Enabled(s: State, a: Action) {
    match a
    case Run(t) => CanStep(s, t)
    case SetOwner(_) => s.channel == None
    case PbxEvent(_, _, _) => true
  }

  function Apply(s: State, a: Action): State
    requires Enabled(s, a)
  {
    match a
    case Run(t) => Advance(s, t)
    case SetOwner(o) =>
      var dropped := if s.owner.Some? then AddRef(s.refs, s.owner.value, -1) else s.refs;
      var taken := if o.Some? then AddRef(dropped, o.value, 1) else dropped;
      s.(owner := o, ownerChanges := s.ownerChanges + 1, refs := taken)
    case PbxEvent(p, r, h) =>
      s.(ringing := if r then s.ringing + {p} else s.ringing - {p},
         hangup := if h then s.hangup + {p} else s.hangup - {p})
  }

  ghost predicate Initial(s: State) {
    && s.channel == None && s.pbx == map[]
    && s.refs == (if s.owner.Some? then map[s.owner.value := 1] else map[])
    && s.ownerChanges == 0 && !s.isAnswering && s.winners == [] && s.attachments == [] && s.callbacks == 0
    && (forall t | t in s.threads :: s.threads[t].pc == Start && s.threads[t].readAt == 0 && s.threads[t].retries == 0)
  }

  ghost predicate Execution(first: State, acts: seq<Action>, last: State)
    decreases |acts|
  {
    if acts == [] then first == last
    else Enabled(first, acts[0]) && Execution(Apply(first, acts[0]), acts[1..], last)
  }

  // ---------------------------------------------------------------- the invariant

  ghost predicate ChannelAgrees(s: State) {
    && (s.channel.Some? ==> s.channel.value in s.threads)
    && (forall t | t in s.threads :: HoldsChannel(s.threads[t].pc) <==> s.channel == Some(t))
  }

  ghost predicate PbxAgrees(s: State) {
    && (forall p | p in s.pbx :: s.pbx[p] in s.threads && LockOf(s.threads[s.pbx[p]].pc) == Some(p))
    && (forall t | t in s.threads && LockOf(s.threads[t].pc).Some? ::
          var p := LockOf(s.threads[t].pc).value; p in s.pbx && s.pbx[p] == t)
  }

  ghost predicate OwnerPinned(s: State) {
    forall t | t in s.threads && KnowsOwner(s.threads[t].pc) :: s.owner == Some(s.threads[t].pc.p)
  }

  ghost function Holders(threads: map<Tid, Thread>, p: Pbx): set<Tid> {
    set t | t in threads && RefOf(threads[t].pc) == Some(p)
  }

  ghost predicate RefsBalanced(s: State) {
    forall p: Pbx :: RefCount(s.refs, p) == |Holders(s.threads, p)| + (if s.owner == Some(p) then 1 else 0)
  }

  /** A retry is paid for by an owner change since the owner was read. */
  ghost predicate Earned(th: Thread, owner: Option<Pbx>, changes: nat) {
    && th.readAt <= changes
    && th.retries <= changes
    && (RefOf(th.pc).Some? ==>
          && th.retries <= th.readAt
          && (th.readAt == changes ==> owner == RefOf(th.pc)))
    && (th.pc.Mismatch? || th.pc.Unlocked? ==> th.readAt < changes)
  }

  ghost predicate RetriesEarned(s: State) {
    forall t | t in s.threads :: Earned(s.threads[t], s.owner, s.ownerChanges)
  }

  ghost predicate OneWinner(s: State) {
    && (s.isAnswering <==> s.winners != [])
    && (forall t | t in s.threads && InGate(s.threads[t].pc) :: s.winners == [t])
    && (s.winners == [] ==> s.attachments == [] && s.callbacks == 0)
    && (s.winners != [] ==> |s.winners| == 1 && s.winners[0] in s.threads && Won(s, s.threads[s.winners[0]]))
  }

  ghost predicate Won(s: State, w: Thread) {
    && w.purpose.Answer?
    && !Searching(w.pc) && !w.pc.Locked?
    && s.attachments == (if w.pc.Claimed? then [] else [w.purpose.phone])
    && s.callbacks == (if InGate(w.pc) then 0 else 1)
  }

  ghost predicate Inv(s: State) {
    ChannelAgrees(s) && PbxAgrees(s) && OwnerPinned(s) && RefsBalanced(s) && RetriesEarned(s) && OneWinner(s)
  }

  // ---------------------------------------------------------------- what a step of one thread touches

  /** What a thread holds changes exactly by the effect of its step. */
  ghost predicate Consistent(was: Pc, now: Pc, e: Effect) {
    && (HoldsChannel(now) <==> e.TakeChannel? || (HoldsChannel(was) && !e.DropChannel?))
    && (e.TakeChannel? ==> !HoldsChannel(was)) && (e.DropChannel? ==> HoldsChannel(was))
    && LockOf(now) == (if e.TakePbx? then Some(e.p) else if e.DropPbx? then None else LockOf(was))
    && (e.TakePbx? ==> LockOf(was) == None) && (e.DropPbx? ==> LockOf(was) == Some(e.p))
    && RefOf(now) == (if e.TakeRef? then Some(e.p) else if e.DropRef? then None else RefOf(was))
    && (e.TakeRef? ==> RefOf(was) == None) && (e.DropRef? ==> RefOf(was) == Some(e.p))
  }

  lemma NextConsistent(th: Thread, owner: Option<Pbx>, changes: nat, gateOpen: bool)
    requires !th.pc.Finished?
    ensures var (now, e) := Next(th, owner, changes, gateOpen); Consistent(th.pc, now.pc, e)
  {
  }

  lemma NextKnowsOwner(th: Thread, owner: Option<Pbx>, changes: nat, gateOpen: bool)
    requires !th.pc.Finished? && (KnowsOwner(th.pc) ==> owner == Some(th.pc.p))
    ensures var now := Next(th, owner, changes, gateOpen).0.pc; KnowsOwner(now) ==> owner == Some(now.p)
  {
  }

  lemma NextEarned(th: Thread, owner: Option<Pbx>, changes: nat, gateOpen: bool)
    requires !th.pc.Finished? && Earned(th, owner, changes)
    ensures Earned(Next(th, owner, changes, gateOpen).0, owner, changes)
  {
  }

  /** Thread t moves from s to s' with effect e. */
  ghost predicate Moved(s: State, t: Tid, e: Effect, s': State) {
    && t in s.threads && t in s'.threads
    && s' == Perform(s, t, e).(threads := s.threads[t := s'.threads[t]])
    && Consistent(s.threads[t].pc, s'.threads[t].pc, e)
    && (e.TakeChannel? ==> s.channel == None)
    && (e.TakePbx? ==> e.p !in s.pbx)
  }

  lemma AdvanceMoves(s: State, t: Tid)
    requires CanStep(s, t)
    ensures Moved(s, t, EffectOf(s, t), Advance(s, t))
  {
    NextConsistent(s.threads[t], s.owner, s.ownerChanges, PassesGate(s, s.threads[t]));
  }

  function EffectOf(s: State, t: Tid): Effect
    requires CanStep(s, t)
  {
    Next(s.threads[t], s.owner, s.ownerChanges, PassesGate(s, s.threads[t])).1
  }

  lemma ChannelAgreesMoved(s: State, t: Tid, e: Effect, s': State)
    requires ChannelAgrees(s) && Moved(s, t, e, s')
    ensures ChannelAgrees(s')
  {
  }

  lemma PbxAgreesMoved(s: State, t: Tid, e: Effect, s': State)
    requires PbxAgrees(s) && Moved(s, t, e, s')
    ensures PbxAgrees(s')
  {
  }

  lemma HoldersMoved(threads: map<Tid, Thread>, t: Tid, now: Thread, p: Pbx)
    requires t in threads
    ensures |Holders(threads[t := now], p)| - |Holders(threads, p)|
            == (if RefOf(now.pc) == Some(p) then 1 else 0) - (if RefOf(threads[t].pc) == Some(p) then 1 else 0)
  {
    var mine := if RefOf(now.pc) == Some(p) then {t} else {};
    assert Holders(threads[t := now], p) == (Holders(threads, p) - {t}) + mine;
  }

  lemma RefsBalancedMoved(s: State, t: Tid, e: Effect, s': State)
    requires RefsBalanced(s) && Moved(s, t, e, s')
    ensures RefsBalanced(s')
  {
    forall p: Pbx
      ensures RefCount(s'.refs, p) == |Holders(s'.threads, p)| + (if s'.owner == Some(p) then 1 else 0)
    {
      HoldersMoved(s.threads, t, s'.threads[t], p);
    }
  }

  lemma KnowledgeMoved(s: State, t: Tid, e: Effect, s': State)
    requires OwnerPinned(s) && RetriesEarned(s) && Moved(s, t, e, s')
    requires Earned(s'.threads[t], s.owner, s.ownerChanges)
    requires KnowsOwner(s'.threads[t].pc) ==> s.owner == Some(s'.threads[t].pc.p)
    ensures OwnerPinned(s') && RetriesEarned(s')
  {
  }

  /** How the answering part of a thread relates to the effect of its step. */
  ghost predicate GateStep(was: Thread, now: Thread, e: Effect, gateOpen: bool) {
    && now.purpose == was.purpose
    && (e.Claim? <==> was.pc.Locked? && gateOpen && was.purpose.Answer?)
    && (e.Claim? <==> now.pc.Claimed?)
    && (was.pc.Claimed? <==> now.pc.Attached?)
    && (was.pc.Attached? <==> now.pc.Offhook?)
    && (was.pc.Attached? <==> e.TakeOffhook?)
    && (e.Attach? <==> was.pc.Claimed? && was.purpose.Answer?)
    && (e.Attach? ==> e.phone == was.purpose.phone)
    && (e.SetCallback? <==> was.pc.Offhook?)
    && (!Searching(was.pc) ==> !Searching(now.pc) && !now.pc.Locked?)
  }

  lemma NextGate(th: Thread, owner: Option<Pbx>, changes: nat, gateOpen: bool)
    requires !th.pc.Finished?
    ensures var (now, e) := Next(th, owner, changes, gateOpen); GateStep(th, now, e, gateOpen)
  {
  }

  lemma OneWinnerMoved(s: State, t: Tid, e: Effect, s': State)
    requires OneWinner(s) && ChannelAgrees(s) && Moved(s, t, e, s')
    requires GateStep(s.threads[t], s'.threads[t], e, PassesGate(s, s.threads[t]))
    ensures OneWinner(s')
  {
    OnlyHolderInGate(s, t);
    assert InGate(s.threads[t].pc) ==> s.winners == [t];
    hide Consistent, ChannelAgrees, HoldsChannel;
  }

  lemma OnlyHolderInGate(s: State, t: Tid)
    requires ChannelAgrees(s) && t in s.threads
    ensures InGate(s.threads[t].pc) || s.threads[t].pc.Locked? ==>
              forall u | u in s.threads && u != t :: !InGate(s.threads[u].pc)
  {
  }

  // ---------------------------------------------------------------- the invariant is kept

  lemma AdvanceInv(s: State, t: Tid)
    requires Inv(s) && CanStep(s, t)
    ensures Inv(Advance(s, t))
  {
    var th := s.threads[t];
    var gate := PassesGate(s, th);
    AdvanceMoves(s, t);
    NextKnowsOwner(th, s.owner, s.ownerChanges, gate);
    NextEarned(th, s.owner, s.ownerChanges, gate);
    NextGate(th, s.owner, s.ownerChanges, gate);
    MovedInv(s, t, EffectOf(s, t), Advance(s, t));
  }

  lemma MovedInv(s: State, t: Tid, e: Effect, s': State)
    requires Inv(s) && Moved(s, t, e, s')
    requires Earned(s'.threads[t], s.owner, s.ownerChanges)
    requires KnowsOwner(s'.threads[t].pc) ==> s.owner == Some(s'.threads[t].pc.p)
    requires GateStep(s.threads[t], s'.threads[t], e, PassesGate(s, s.threads[t]))
    ensures Inv(s')
  {
    ChannelAgreesMoved(s, t, e, s');
    PbxAgreesMoved(s, t, e, s');
    RefsBalancedMoved(s, t, e, s');
    KnowledgeMoved(s, t, e, s');
    OneWinnerMoved(s, t, e, s');
  }

  lemma SetOwnerInv(s: State, o: Option<Pbx>)
    requires Inv(s) && s.channel == None
    ensures Inv(Apply(s, SetOwner(o)))
  {
    var s' := Apply(s, SetOwner(o));
    assert RefsBalanced(s') by {
      forall p: Pbx
        ensures RefCount(s'.refs, p) == |Holders(s'.threads, p)| + (if s'.owner == Some(p) then 1 else 0)
      {
        SetOwnerRefs(s, o, p);
      }
    }
    hide RefsBalanced, RefCount, AddRef;
    SetOwnerPins(s, s');
    SetOwnerEarns(s, s');
  }

  lemma SetOwnerRefs(s: State, o: Option<Pbx>, p: Pbx)
    requires RefsBalanced(s) && s.channel == None
    ensures var s' := Apply(s, SetOwner(o));
            RefCount(s'.refs, p) == |Holders(s'.threads, p)| + (if s'.owner == Some(p) then 1 else 0)
  {
    hide Holders;
    assert RefCount(s.refs, p) == |Holders(s.threads, p)| + (if s.owner == Some(p) then 1 else 0);
  }

  lemma SetOwnerPins(s: State, s': State)
    requires ChannelAgrees(s) && s.channel == None && s'.threads == s.threads
    ensures OwnerPinned(s')
  {
  }

  lemma SetOwnerEarns(s: State, s': State)
    requires ChannelAgrees(s) && s.channel == None && RetriesEarned(s)
    requires s'.threads == s.threads && s'.ownerChanges == s.ownerChanges + 1
    ensures RetriesEarned(s')
  {
  }

  lemma {:induction false} ExecutionInv(first: State, acts: seq<Action>, last: State)
    requires Inv(first) && Execution(first, acts, last)
    ensures Inv(last)
    decreases |acts|
  {
    if acts != [] {
      match acts[0] {
        case Run(t) => AdvanceInv(first, t);
        case SetOwner(o) => SetOwnerInv(first, o);
        case PbxEvent(_, _, _) =>
      }
      ExecutionInv(Apply(first, acts[0]), acts[1..], last);
    }
  }

  lemma InitialInv(s: State)
    requires Initial(s)
    ensures Inv(s)
  {
    forall p: Pbx ensures Holders(s.threads, p) == {} {}
  }

  // ---------------------------------------------------------------- theorems

  /**
   In every interleaving: a thread that got a PBX channel holds both locks, that channel is still the
   owner, and the thread owns exactly one reference; a thread that got none holds the channel lock
   and nothing else; and nobody waits for a PBX lock while holding the channel.
   */
  lemma LockFullContract(first: State, acts: seq<Action>, s: State, t: Tid)
    requires Initial(first) && Execution(first, acts, s) && t in s.threads
    ensures s.threads[t].pc.Locked? ==>
              var p := s.threads[t].pc.p;
              && s.channel == Some(t) && p in s.pbx && s.pbx[p] == t && s.owner == Some(p)
              && (forall q :: t in Holders(s.threads, q) <==> q == p)
              && RefCount(s.refs, p) == |Holders(s.threads, p)| + 1
    ensures s.threads[t].pc.Failed? ==>
              && s.channel == Some(t)
              && (forall p | p in s.pbx :: s.pbx[p] != t)
              && (forall p :: t !in Holders(s.threads, p))
    ensures s.threads[t].pc.WaitPbx? ==> s.channel != Some(t)
  {
    hide Execution, Initial, RetriesEarned, OneWinner;
    InitialInv(first);
    ExecutionInv(first, acts, s);
  }

  /** The lock of a PBX channel is only ever held while somebody owns a reference to it. */
  lemma LockedIsReferenced(first: State, acts: seq<Action>, s: State, p: Pbx)
    requires Initial(first) && Execution(first, acts, s) && p in s.pbx
    ensures RefCount(s.refs, p) >= 1
  {
    hide Execution, Initial, RetriesEarned, OneWinner;
    InitialInv(first);
    ExecutionInv(first, acts, s);
    var t := s.pbx[p];
    if s.threads[t].pc.UnlockPbx? {
      assert s.owner == Some(p);
    } else {
      assert {t} <= Holders(s.threads, p);
      SubsetCardinality({t}, Holders(s.threads, p));
    }
  }

  lemma SubsetCardinality(a: set<Tid>, b: set<Tid>)
    requires a <= b
    ensures |a| <= |b|
  {
    assert b == a + (b - a);
  }

  /** Once everybody is done, the references left are the owner's own: none leaked, none dropped twice. */
  lemma ReferencesReturned(first: State, acts: seq<Action>, s: State, p: Pbx)
    requires Initial(first) && Execution(first, acts, s)
    requires forall t | t in s.threads :: s.threads[t].pc.Finished?
    ensures RefCount(s.refs, p) == (if s.owner == Some(p) then 1 else 0)
    ensures s.channel == None && s.pbx == map[]
  {
    hide Execution, Initial, RetriesEarned, OneWinner, OwnerPinned;
    InitialInv(first);
    ExecutionInv(first, acts, s);
    assert Holders(s.threads, p) == {};
    NobodyHolds(s);
  }

  lemma NobodyHolds(s: State)
    requires ChannelAgrees(s) && PbxAgrees(s)
    requires forall t | t in s.threads :: s.threads[t].pc.Finished?
    ensures s.channel == None && s.pbx == map[]
  {
    forall p: Pbx
      ensures p !in s.pbx
    {
    }
    assert s.pbx.Keys == {};
  }

  /** No deadlock: while some thread is not done, some thread can take a step. */
  lemma NoDeadlock(first: State, acts: seq<Action>, s: State, t: Tid) returns (u: Tid)
    requires Initial(first) && Execution(first, acts, s)
    requires t in s.threads && !s.threads[t].pc.Finished?
    ensures CanStep(s, u)
  {
    InitialInv(first);
    ExecutionInv(first, acts, s);
    if s.channel.Some? {
      u := s.channel.value;
    } else if s.threads[t].pc.WaitPbx? && s.threads[t].pc.p in s.pbx {
      u := s.pbx[s.threads[t].pc.p];
    } else {
      u := t;
    }
  }

  /** Steps still ahead on a path without a retry. */
  function Rank(pc: Pc): nat {
    match pc
    case Start => 15
    case Entered => 14
    case Referenced(_) => 13
    case WaitPbx(_) => 12
    case WaitChannel(_) => 11
    case Holding(_) => 10
    case Mismatch(_) => 9
    case Unlocked(_) => 8
    case Locked(_) => 7
    case Claimed(_) => 6
    case Attached(_) => 5
    case Offhook(_) => 4
    case Unref(_) => 3
    case UnlockPbx(_) => 2
    case GiveUp => 2
    case UnlockChannel => 1
    case Failed => 1
    case Finished => 0
  }

  /** Every retry runs eight more steps, and every retry is paid for by an owner change. */
  function Budget(s: State, t: Tid): int
    requires t in s.threads
  {
    Rank(s.threads[t].pc) + 8 * (s.ownerChanges - s.threads[t].retries)
  }

  function StepsOf(acts: seq<Action>, t: Tid): nat {
    if acts == [] then 0 else (if acts[0] == Run(t) then 1 else 0) + StepsOf(acts[1..], t)
  }

  function OwnerChangesIn(acts: seq<Action>): nat {
    if acts == [] then 0 else (if acts[0].SetOwner? then 1 else 0) + OwnerChangesIn(acts[1..])
  }

  lemma NextRank(th: Thread, owner: Option<Pbx>, changes: nat, gateOpen: bool)
    requires !th.pc.Finished?
    ensures var now := Next(th, owner, changes, gateOpen).0;
            Rank(now.pc) - 8 * now.retries < Rank(th.pc) - 8 * th.retries
  {
  }

  lemma BudgetStep(s: State, a: Action, t: Tid)
    requires Enabled(s, a) && t in s.threads
    ensures t in Apply(s, a).threads
    ensures Budget(Apply(s, a), t) + StepsOf([a], t) <= Budget(s, t) + 8 * OwnerChangesIn([a])
  {
    hide Next, Rank;
    if a.Run? {
      NextRank(s.threads[a.t], s.owner, s.ownerChanges, PassesGate(s, s.threads[a.t]));
      PerformKeeps(s, a.t, EffectOf(s, a.t));
      hide Perform;
    }
  }

  lemma PerformKeeps(s: State, t: Tid, e: Effect)
    ensures Perform(s, t, e).threads == s.threads && Perform(s, t, e).ownerChanges == s.ownerChanges
  {
  }

  lemma {:induction false} BudgetSpent(first: State, acts: seq<Action>, last: State, t: Tid)
    requires Execution(first, acts, last) && t in first.threads
    ensures t in last.threads
    ensures Budget(last, t) + StepsOf(acts, t) <= Budget(first, t) + 8 * OwnerChangesIn(acts)
    decreases |acts|
  {
    if acts != [] {
      BudgetStep(first, acts[0], t);
      BudgetSpent(Apply(first, acts[0]), acts[1..], last, t);
    }
  }

  /** Retries are bounded by owner changes, so k changes cost a thread at most 15 + 8k steps in all. */
  lemma StepsBounded(first: State, acts: seq<Action>, last: State, t: Tid)
    requires Initial(first) && Execution(first, acts, last) && t in first.threads
    ensures t in last.threads && last.threads[t].retries <= last.ownerChanges
    ensures StepsOf(acts, t) <= 15 + 8 * OwnerChangesIn(acts)
  {
    InitialInv(first);
    BudgetSpent(first, acts, last, t);
    ExecutionInv(first, acts, last);
  }

  /**
   However many phones answer, at most one passes the gate: the channel is attached to one phone, and
   once that thread is past the gate, its completion callback has been set exactly once.
   */
  lemma OneAnswer(first: State, acts: seq<Action>, s: State)
    requires Initial(first) && Execution(first, acts, s)
    ensures |s.winners| <= 1 && |s.attachments| <= 1 && s.callbacks <= 1
    ensures forall t, u | t in s.threads && u in s.threads && InGate(s.threads[t].pc) && InGate(s.threads[u].pc) :: t == u
    ensures s.winners != [] ==>
              var w := s.winners[0];
              && w in s.threads && s.threads[w].purpose.Answer?
              && (s.threads[w].pc.Finished? ==>
                    s.attachments == [s.threads[w].purpose.phone] && s.callbacks == 1)
    ensures s.winners == [] ==> s.attachments == [] && s.callbacks == 0
  {
    InitialInv(first);
    ExecutionInv(first, acts, s);
  }
}
