/** Which call a message is about: what the search finds, and when it finds nothing. */
module CallSearch {
  import opened Common
  import opened CallIds

  /** The call is on one of the lines, is not down, and has the id. */
  ghost predicate OnALine(lines: seq<seq<Channel>>, id: nat, c: Channel) {
    c.callid == id && !c.down && exists i :: 0 <= i < |lines| && c in lines[i]
  }

  /** The call is on the line of one of the buttons and has the pass-through id. */
  ghost predicate OnAButton(p: Phone, buttons: seq<nat>, pass: nat, c: Channel) {
    Complement(c.callid) == pass && exists b :: 0 <= b < |buttons| && buttons[b] < |p.lines| && c in p.lines[buttons[b]]
  }

  lemma {:induction false} FirstByIdExact(l: seq<Channel>, id: nat)
    ensures
      var r := FirstById(l, id);
      && (r.Some? ==> r.value in l && r.value.callid == id && !r.value.down)
      && (r.None? ==> forall c :: c in l ==> c.callid != id || c.down)
    decreases |l|
  {
    if l != [] {
      FirstByIdExact(l[1..], id);
      assert forall c :: c in l <==> c == l[0] || c in l[1..];
    }
  }

  lemma {:induction false} FirstByPassExact(l: seq<Channel>, pass: nat)
    ensures
      var r := FirstByPass(l, pass);
      && (r.Some? ==> r.value in l && Complement(r.value.callid) == pass)
      && (r.None? ==> forall c :: c in l ==> Complement(c.callid) != pass)
    decreases |l|
  {
    hide Complement;
    if l != [] {
      FirstByPassExact(l[1..], pass);
      assert forall c :: c in l <==> c == l[0] || c in l[1..];
    }
  }

  lemma {:induction false} OnLinesExact(lines: seq<seq<Channel>>, id: nat)
    ensures
      var r := OnLines(lines, id);
      && (r.Some? ==> OnALine(lines, id, r.value))
      && (r.None? ==> forall c :: !OnALine(lines, id, c))
    decreases |lines|
  {
    if lines != [] {
      FirstByIdExact(lines[0], id);
      OnLinesExact(lines[1..], id);
      var r := OnLines(lines, id);
      if r.None? {
        forall c ensures !OnALine(lines, id, c) {
          assert !OnALine(lines[1..], id, c);
          if i :| 0 < i < |lines| && c in lines[i] { assert c in lines[1..][i - 1]; }
        }
      } else if FirstById(lines[0], id).None? {
        var i :| 0 <= i < |lines[1..]| && r.value in lines[1..][i];
        assert r.value in lines[i + 1];
      }
    }
  }

  lemma {:induction false} OnDeviceExact(p: Phone, buttons: seq<nat>, pass: nat)
    ensures
      var r := OnDevice(p, buttons, pass);
      && (r.Some? ==> OnAButton(p, buttons, pass, r.value))
      && (r.None? ==> forall c :: !OnAButton(p, buttons, pass, c))
    decreases |buttons|
  {
    hide Complement;
    if buttons != [] {
      if buttons[0] < |p.lines| { FirstByPassExact(p.lines[buttons[0]], pass); }
      OnDeviceExact(p, buttons[1..], pass);
      var r := OnDevice(p, buttons, pass);
      if r.None? {
        forall c ensures !OnAButton(p, buttons, pass, c) {
          assert !OnAButton(p, buttons[1..], pass, c);
          if b :| 0 < b < |buttons| && buttons[b] < |p.lines| && c in p.lines[buttons[b]] {
            assert buttons[1..][b - 1] == buttons[b];
          }
        }
      } else if buttons[0] >= |p.lines| || FirstByPass(p.lines[buttons[0]], pass).None? {
        var b :| 0 <= b < |buttons[1..]| && buttons[1..][b] < |p.lines| && r.value in p.lines[buttons[1..][b]];
        assert buttons[b + 1] == buttons[1..][b];
      }
    }
  }

  /** What a message with these keys is about: the active call if it is not down and has all the ids that are given;
    * or a call of the device with the pass-through id; or, by the first reference that is given, a call on any line
    * that is not down. */
  ghost predicate About(p: Phone, ref: nat, ref1: nat, pass: nat, c: Channel) {
    || (p.active == Some(c) && !c.down && (pass == 0 || Complement(c.callid) == pass)
        && (ref == 0 || c.callid == ref) && (ref1 == 0 || c.callid == ref1))
    || (pass != 0 && OnAButton(p, p.buttons, pass, c))
    || (ref != 0 && OnALine(p.lines, ref, c))
    || (ref == 0 && ref1 != 0 && OnALine(p.lines, ref1, c))
  }

  /** The search finds a call that the message is about, if and only if there is one. */
  lemma FindsWhatItIsAbout(p: Phone, ref: nat, ref1: nat, pass: nat)
    ensures
      var r := Find(p, ref, ref1, pass);
      && (r.Some? ==> About(p, ref, ref1, pass, r.value))
      && (r.None? ==> forall c :: !About(p, ref, ref1, pass, c))
  {
    hide OnALine, OnAButton, OnLines, OnDevice, Complement;
    OnDeviceExact(p, p.buttons, pass);
    OnLinesExact(p.lines, if ref != 0 then ref else ref1);
  }
}
