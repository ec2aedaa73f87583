/**
 * When the call information is sent and what a phone then has, and what becomes of the two reasons and the
 * presentation when they are set, read and copied.
 */
module CallInfoEffects {
  import opened Common
  import opened CallInfo

  // ---------------------------------------------------------------------------------------------
  // Sending

  /** The information is sent if and only if it was changed or the caller insists, and there is a device: then the phone
    * has exactly what is stored, and nothing counts as changed. */
  lemma SentWhenChanged(s: Store, force: bool, device: bool)
    requires Shaped(s.content)
    ensures Step(s, Send(force, device)) ==
            if device && (s.changed || force) then Store(s.content, false, Some(s.content), s.sending) else s
    ensures Step(s, Transmit(force, device)) ==
            if device && (s.changed || force) && s.sending == None
            then Store(s.content, s.changed, Some(s.content), Some(s.content)) else s
    ensures Step(s, Lower) == if s.sending == None then s else Store(s.content, false, s.last, None)
  {
  }

  /** Setting marks the information as changed if and only if it was, or some setting of the list differs from what is
    * stored when its turn comes; replacing it always does. Neither sends anything. */
  lemma ChangedWhenSet(s: Store, list: seq<Setting>, content: Content)
    requires Shaped(s.content) && Shaped(content)
    ensures
      var s' := Step(s, Set(list));
      && (s'.changed <==> s.changed || exists i :: 0 <= i < |list| && Differs(SetAll(s.content, list[..i]), list[i]))
      && s'.content == SetAll(s.content, list) && s'.last == s.last && s'.sending == s.sending
    ensures Step(s, Replace(content)) == Store(content, true, s.last, s.sending)
  {
    ChangesCount(s.content, list);
  }

  /** A setting that differs from what is stored: a text from the one in its field, before it is cut. */
  predicate Differs(c: Content, s: Setting)
    requires Shaped(c)
  {
    match s
    case SetText(k, None) => false
    case SetText(k, Some(text)) => Text(c, k) != text
    case SetOrigReason(n) => c.origReason != n
    case SetLastReason(n) => c.lastReason != n
    case SetPresentation(n) => c.presentation != n
  }

  lemma {:induction false} ChangesCount(c: Content, list: seq<Setting>)
    requires Shaped(c)
    ensures Changes(c, list) > 0 <==> exists i :: 0 <= i < |list| && Differs(SetAll(c, list[..i]), list[i])
    decreases |list|
  {
    if list != [] {
      var c1, rest := SetOne(c, list[0]), list[1..];
      ChangesCount(c1, rest);
      assert Counts(c, list[0]) == Differs(c, list[0]);
      assert SetAll(c, list[..0]) == c;
      hide SetOne, Differs, Counts;
      forall i | 0 <= i < |rest| ensures SetAll(c1, rest[..i]) == SetAll(c, list[..i + 1]) {
        assert list[..i + 1][0] == list[0] && list[..i + 1][1..] == rest[..i];
      }
      if Changes(c1, rest) > 0 {
        var i :| 0 <= i < |rest| && Differs(SetAll(c1, rest[..i]), rest[i]);
        assert Differs(SetAll(c, list[..i + 1]), list[i + 1]);
      }
      if j :| 0 < j < |list| && Differs(SetAll(c, list[..j]), list[j]) {
        assert Differs(SetAll(c1, rest[..j - 1]), rest[j - 1]);
      }
    }
  }

  /** So whatever was set is on the phone after the next send, unless nothing differed: then it was there before. */
  lemma SetThenSent(s: Store, list: seq<Setting>, force: bool)
    requires Shaped(s.content) && Honest(s)
    ensures
      var s' := Run(s, [Set(list), Send(force, true)]);
      && s'.last == Some(SetAll(s.content, list)) && s'.content == SetAll(s.content, list) && !s'.changed
  {
    var e := [Set(list), Send(force, true)];
    var s1 := Step(s, e[0]);
    StepHonest(s, e[0]);
    SentWhenChanged(s1, force, true);
    assert s1.content == SetAll(s.content, list);
    hide Step, SetAll;
    assert e[1..] == [Send(force, true)] && e[1..][1..] == [];
    assert Run(s, e) == Run(s1, e[1..]) == Run(Step(s1, e[1]), []);
  }

  // ---------------------------------------------------------------------------------------------
  // The two reasons and the presentation

  datatype Number = OrigReason | LastReason | Presentation

  function NumberOf(c: Content, n: Number): nat {
    match n
    case OrigReason => c.origReason
    case LastReason => c.lastReason
    case Presentation => c.presentation
  }

  /** The number that a setting gives, if it is for that one. */
  function Given(s: Setting, n: Number): Option<nat> {
    match s
    case SetOrigReason(r) => if n == OrigReason then Some(r) else None
    case SetLastReason(r) => if n == LastReason then Some(r) else None
    case SetPresentation(r) => if n == Presentation then Some(r) else None
    case SetText(_, _) => None
  }

  /** The last number that a list gives, or else the one that was there. */
  function LastNumber(list: seq<Setting>, n: Number, was: nat): nat {
    if list == [] then was
    else
      var last := list[|list| - 1];
      if Given(last, n).Some? then Given(last, n).value else LastNumber(list[..|list| - 1], n, was)
  }

  lemma {:induction false} SetAllEnds(c: Content, list: seq<Setting>)
    requires Shaped(c) && list != []
    ensures SetAll(c, list) == SetOne(SetAll(c, list[..|list| - 1]), list[|list| - 1])
    decreases |list|
  {
    hide SetOne;
    if |list| > 1 {
      SetAllEnds(SetOne(c, list[0]), list[1..]);
      assert list[1..][..|list| - 2] == list[..|list| - 1][1..];
    } else {
      assert SetAll(SetOne(c, list[0]), list[1..]) == SetOne(c, list[0]);
    }
  }

  /** Setting a list of keys and then reading a reason or the presentation yields the last one given for it, or the one
    * that was there. */
  lemma {:induction false} ReadAfterSet(c: Content, list: seq<Setting>, n: Number)
    requires Shaped(c)
    ensures NumberOf(SetAll(c, list), n) == LastNumber(list, n, NumberOf(c, n))
    decreases |list|
  {
    if list != [] {
      ReadAfterSet(c, list[..|list| - 1], n);
      SetAllEnds(c, list);
      hide SetAll;
    }
  }

  /** What each query of the getter yields. */
  lemma QueriesRead(c: Content, k: Key)
    requires Shaped(c)
    ensures Read(c, ReadOrigReason) == NumberValue(NumberOf(c, OrigReason))
    ensures Read(c, ReadLastReason) == NumberValue(NumberOf(c, LastReason))
    ensures Read(c, ReadPresentation) == NumberValue(NumberOf(c, Presentation))
    ensures Read(c, ReadText(k)) == TextValue(if Flag(c, k) == Some(false) then "" else Text(c, k))
  {
  }

  function CopyOf(n: Number): Copy {
    match n
    case OrigReason => CopyOrigReason
    case LastReason => CopyLastReason
    case Presentation => CopyPresentation
  }

  /** Copying a list of keys copies a reason or the presentation if and only if the list names it; otherwise it is as in
    * the object the copy starts from. */
  lemma {:induction false} NumbersCopied(c: Content, src: Content, pairs: seq<Copy>, n: Number)
    requires Shaped(c) && Shaped(src)
    ensures NumberOf(CopyAll(c, src, pairs), n) == if CopyOf(n) in pairs then NumberOf(src, n) else NumberOf(c, n)
    decreases |pairs|
  {
    if pairs != [] {
      var c1 := CopyOne(c, src, pairs[0]);
      assert NumberOf(c1, n) == if pairs[0] == CopyOf(n) then NumberOf(src, n) else NumberOf(c, n);
      NumbersCopied(c1, src, pairs[1..], n);
      assert pairs == [pairs[0]] + pairs[1..];
      hide CopyOne;
    }
  }

  /** Keys that are copied leave the reasons and the presentation alone, and the other way round. */
  lemma NumbersLeaveTexts(c: Content, src: Content, p: Copy, k: Key)
    requires Shaped(c) && Shaped(src) && !p.CopyText?
    ensures Text(CopyOne(c, src, p), k) == Text(c, k) && Flag(CopyOne(c, src, p), k) == Flag(c, k)
  {
  }

  // ---------------------------------------------------------------------------------------------
  // How much fits

  /** The keys for names. */
  const NAMES := {CalledName, CallingName, OrigCalledName, OrigCallingName, LastRedirectingName, HuntPilotName}

  /** A name keeps the first 39 characters of what it is set to, a number or a mailbox the first 23. */
  lemma LongTextsAreCut(c: Content, k: Key, text: string)
    requires Shaped(c)
    ensures
      var limit := if k in NAMES then 39 else 23;
      var r := Text(SetOne(c, SetText(k, Some(text))), k);
      r == if Text(c, k) == text then text else if |text| <= limit then text else text[..limit]
  {
  }
}
