/** The numbering of calls, and finding the call a phone's message is about. */
module CallIds {
  import opened Common

  const WORD := 0x1_0000_0000
  const LAST := 0xFFFF_FFFF

  // ---------------------------------------------------------------------------------------------
  // Numbering

  /** The counter is a 32-bit word; at its upper limit it starts again from one, without moving on. */
  function NextId(counter: nat): (nat, nat)
  {
    if counter < LAST then (counter, counter + 1) else (1, 1)
  }

  /** The counter after k calls. */
  function Counter(k: nat): (c: nat)
    ensures 1 <= c <= LAST
  {
    if k == 0 then 1 else NextId(Counter(k - 1)).1
  }

  function Id(k: nat): (id: nat)
    ensures 1 <= id < LAST
  {
    NextId(Counter(k)).0
  }

  /** The low bits of a number, each flipped: an exclusive or with as many ones. */
  function Flip(a: nat, bits: nat): nat {
    if bits == 0 then 0 else (1 - a % 2) + 2 * Flip(a / 2, bits - 1)
  }

  function Power(bits: nat): nat {
    if bits == 0 then 1 else 2 * Power(bits - 1)
  }

  lemma {:induction false} FlipIsDifference(a: nat, bits: nat)
    requires a < Power(bits)
    ensures Flip(a, bits) == Power(bits) - 1 - a
  {
    if bits > 0 {
      FlipIsDifference(a / 2, bits - 1);
    }
  }

  /** The pass-through party id of a call: its id with all 32 bits flipped. */
  function Complement(id: nat): (p: nat) {
    Flip(id, 32)
  }

  lemma WordIsPower()
    ensures Power(32) == WORD
  {
    assert Power(8) == 0x100;
    assert Power(16) == 0x1_0000;
    assert Power(24) == 0x100_0000;
  }

  lemma ComplementIsDifference(id: nat)
    requires id < WORD
    ensures Complement(id) == LAST - id
  {
    WordIsPower();
    FlipIsDifference(id, 32);
    hide Flip, Power;
  }

  lemma {:induction false} CounterBeforeWrap(k: nat)
    requires k < LAST
    ensures Counter(k) == k + 1
  {
    if k > 0 {
      CounterBeforeWrap(k - 1);
    }
  }

  /** Until the counter wraps, no two calls share an id; neither id of a call is ever zero, and each is the
    * complement of the other. */
  lemma IdsDiffer(i: nat, j: nat)
    requires i < j < LAST - 1
    ensures Id(i) != Id(j) && Complement(Id(i)) != Complement(Id(j))
    ensures Id(i) != 0 && Complement(Id(i)) != 0 && Complement(Complement(Id(i))) == Id(i)
  {
    CounterBeforeWrap(i);
    CounterBeforeWrap(j);
    ComplementIsDifference(Id(i));
    ComplementIsDifference(Id(j));
    ComplementIsDifference(Complement(Id(i)));
  }

  /** Two calls in a row share an id exactly at the wrap, and then it is the id one. */
  lemma WrapRepeats(k: nat)
    ensures Id(k) == Id(k + 1) <==> Counter(k) == LAST
    ensures Id(k) == Id(k + 1) ==> Id(k) == 1
  {
  }

  /** The first time this happens. */
  lemma FirstWrap()
    ensures Id(LAST - 1) == 1 && Id(LAST) == 1
  {
    CounterBeforeWrap(LAST - 1);
    WrapRepeats(LAST - 1);
  }

  // ---------------------------------------------------------------------------------------------
  // Finding a call

  datatype Channel = Channel(callid: nat, down: bool)

  /** All lines with their calls, those of the device by its buttons, and the device's active call. */
  datatype Phone = Phone(lines: seq<seq<Channel>>, buttons: seq<nat>, active: Option<Channel>)

  function PassThru(c: Channel): nat {
    Complement(c.callid)
  }

  lemma SamePassSameId(c: Channel, e: Channel)
    requires c.callid < WORD && e.callid < WORD && PassThru(c) == PassThru(e)
    ensures c.callid == e.callid
  {
    ComplementIsDifference(c.callid);
    ComplementIsDifference(e.callid);
  }

  predicate Matches(c: Channel, ref: nat, ref1: nat, pass: nat) {
    && (pass != 0 ==> PassThru(c) == pass)
    && (ref != 0 ==> c.callid == ref)
    && (ref1 != 0 ==> c.callid == ref1)
  }

  function FirstByPass(l: seq<Channel>, pass: nat): Option<Channel> {
    if l == [] then None else if PassThru(l[0]) == pass then Some(l[0]) else FirstByPass(l[1..], pass)
  }

  function FirstById(l: seq<Channel>, id: nat): Option<Channel> {
    if l == [] then None else if l[0].callid == id && !l[0].down then Some(l[0]) else FirstById(l[1..], id)
  }

  function OnDevice(p: Phone, buttons: seq<nat>, pass: nat): Option<Channel> {
    if buttons == [] then None
    else if buttons[0] < |p.lines| && FirstByPass(p.lines[buttons[0]], pass).Some? then
      FirstByPass(p.lines[buttons[0]], pass)
    else
      OnDevice(p, buttons[1..], pass)
  }

  function OnLines(lines: seq<seq<Channel>>, id: nat): Option<Channel> {
    if lines == [] then None
    else if FirstById(lines[0], id).Some? then FirstById(lines[0], id)
    else OnLines(lines[1..], id)
  }

  /** The search that takes no short cut. */
  function Search(p: Phone, ref: nat, ref1: nat, pass: nat): Option<Channel> {
    if pass != 0 && OnDevice(p, p.buttons, pass).Some? then OnDevice(p, p.buttons, pass)
    else if ref != 0 || ref1 != 0 then OnLines(p.lines, if ref != 0 then ref else ref1)
    else None
  }

  function ActiveCall(p: Phone): Option<Channel> {
    if p.active.Some? && !p.active.value.down then p.active else None
  }

  /** The active call is tried first. */
  function Find(p: Phone, ref: nat, ref1: nat, pass: nat): Option<Channel> {
    var a := ActiveCall(p);
    if a.Some? && Matches(a.value, ref, ref1, pass) then a else Search(p, ref, ref1, pass)
  }

  /** No two calls have the same id, and the active one is on a line of the device. */
  ghost predicate Consistent(p: Phone) {
    && (forall i, j, k, m :: 0 <= i < |p.lines| && 0 <= j < |p.lines[i]| && 0 <= k < |p.lines| && 0 <= m < |p.lines[k]| ==>
          p.lines[i][j].callid == p.lines[k][m].callid ==> p.lines[i][j] == p.lines[k][m])
    && (forall i, j :: 0 <= i < |p.lines| && 0 <= j < |p.lines[i]| ==> 0 < p.lines[i][j].callid < LAST)
    && (p.active.Some? ==>
          exists b, j :: 0 <= b < |p.buttons| && p.buttons[b] < |p.lines| && 0 <= j < |p.lines[p.buttons[b]]|
                         && p.lines[p.buttons[b]][j] == p.active.value)
  }

  lemma {:induction false} FirstByPassFinds(l: seq<Channel>, c: Channel)
    requires c in l && (forall j :: 0 <= j < |l| && PassThru(l[j]) == PassThru(c) ==> l[j] == c)
    ensures FirstByPass(l, PassThru(c)) == Some(c)
    decreases |l|
  {
    if PassThru(l[0]) != PassThru(c) {
      FirstByPassFinds(l[1..], c);
    }
  }

  lemma {:induction false} FirstByPassIs(l: seq<Channel>, pass: nat)
    ensures FirstByPass(l, pass).Some? ==> FirstByPass(l, pass).value in l && PassThru(FirstByPass(l, pass).value) == pass
    decreases |l|
  {
    if l != [] {
      FirstByPassIs(l[1..], pass);
    }
  }

  lemma {:induction false} FirstByIdFinds(l: seq<Channel>, c: Channel)
    requires !c.down && (forall j :: 0 <= j < |l| && l[j].callid == c.callid ==> l[j] == c)
    ensures FirstById(l, c.callid) == if c in l then Some(c) else None
    decreases |l|
  {
    if l != [] {
      FirstByIdFinds(l[1..], c);
    }
  }

  lemma {:induction false} OnLinesFinds(lines: seq<seq<Channel>>, c: Channel, i: nat)
    requires !c.down && i < |lines| && c in lines[i]
    requires forall k, m :: 0 <= k < |lines| && 0 <= m < |lines[k]| && lines[k][m].callid == c.callid ==> lines[k][m] == c
    ensures OnLines(lines, c.callid) == Some(c)
    decreases |lines|
  {
    FirstByIdFinds(lines[0], c);
    if c !in lines[0] {
      OnLinesFinds(lines[1..], c, i - 1);
    }
  }

  lemma {:induction false} OnDeviceFinds(p: Phone, buttons: seq<nat>, c: Channel, b: nat)
    requires b < |buttons| && buttons[b] < |p.lines| && c in p.lines[buttons[b]]
    requires forall k, m :: 0 <= k < |p.lines| && 0 <= m < |p.lines[k]| && PassThru(p.lines[k][m]) == PassThru(c) ==>
               p.lines[k][m] == c
    ensures OnDevice(p, buttons, PassThru(c)) == Some(c)
    decreases |buttons|
  {
    var k := buttons[0];
    if k < |p.lines| {
      FirstByPassIs(p.lines[k], PassThru(c));
      if c in p.lines[k] {
        FirstByPassFinds(p.lines[k], c);
      }
    }
    if b > 0 {
      OnDeviceFinds(p, buttons[1..], c, b - 1);
    }
  }

  /** The short cut changes nothing: the call found is the one the full search finds, unless the message
    * has no key at all, when it is the active call instead of none. */
  lemma ShortCutIsSearch(p: Phone, ref: nat, ref1: nat, pass: nat)
    requires Consistent(p)
    ensures Find(p, ref, ref1, pass) == Search(p, ref, ref1, pass) <==>
            (ref != 0 || ref1 != 0 || pass != 0 || ActiveCall(p).None?)
  {
    var a := ActiveCall(p);
    if a.Some? && Matches(a.value, ref, ref1, pass) && (ref != 0 || ref1 != 0 || pass != 0) {
      var c := a.value;
      var b, j :| 0 <= b < |p.buttons| && p.buttons[b] < |p.lines| && 0 <= j < |p.lines[p.buttons[b]]|
                  && p.lines[p.buttons[b]][j] == c;
      assert c in p.lines[p.buttons[b]];
      if pass != 0 {
        forall k, m | 0 <= k < |p.lines| && 0 <= m < |p.lines[k]| && PassThru(p.lines[k][m]) == PassThru(c)
          ensures p.lines[k][m] == c
        {
          SamePassSameId(p.lines[k][m], c);
        }
        OnDeviceFinds(p, p.buttons, c, b);
      } else {
        OnLinesFinds(p.lines, c, p.buttons[b]);
      }
    }
  }

  // ---------------------------------------------------------------------------------------------
  // In place

  class Directory {
    var callCount: nat

    constructor ()
      ensures callCount == Counter(0)
    {
      callCount := 1;
    }

    /** Numbers the next call, under the lock of the counter. */
    method Allocate(ghost k: nat) returns (callid: nat, passthru: nat)
      requires callCount == Counter(k)
      modifies this
      ensures callid == Id(k) && passthru == Complement(callid) && callCount == Counter(k + 1)
    {
      hide Complement;
      if callCount < LAST {
        callid := callCount;
        callCount := callCount + 1;
      } else {
        callCount := 1;
        callid := callCount;
      }
      passthru := Complement(callid);
    }
  }

  /** References taken on the calls, by call. */
  class Holder {
    var refs: multiset<Channel>

    constructor ()
      ensures refs == multiset{}
    {
      refs := multiset{};
    }

    /** Finds the call a message is about and hands it out retained: just once, and no other call. */
    method GetChannel(p: Phone, ref: nat, ref1: nat, pass: nat) returns (channel: Option<Channel>)
      modifies this
      ensures channel == Find(p, ref, ref1, pass)
      ensures refs == old(refs) + if channel.Some? then multiset{channel.value} else multiset{}
    {
      hide PassThru, OnDevice, OnLines;
      channel := ActiveCall(p);
      if channel.Some? {
        refs := refs + multiset{channel.value};
        if (pass != 0 && PassThru(channel.value) != pass)
           || (ref != 0 && channel.value.callid != ref)
           || (ref1 != 0 && channel.value.callid != ref1)
        {
          refs := refs - multiset{channel.value};
          assert refs == old(refs);
          channel := None;
        }
      }
      assert refs == old(refs) + if channel.Some? then multiset{channel.value} else multiset{};
      assert channel.Some? <==> ActiveCall(p).Some? && Matches(ActiveCall(p).value, ref, ref1, pass);
      if channel.None? && pass != 0 {
        channel := OnDevice(p, p.buttons, pass);
        if channel.Some? { refs := refs + multiset{channel.value}; }
      }
      if channel.None? && (ref != 0 || ref1 != 0) {
        channel := OnLines(p.lines, if ref != 0 then ref else ref1);
        if channel.Some? { refs := refs + multiset{channel.value}; }
      }
    }
  }
}
