/**
 * The store of call information: names, numbers and voice mailboxes of the parties of a call, two
 * redirect reasons and the presentation, with a validity flag for each number and mailbox and a flag that
 * says whether anything changed since the information was last sent to a phone.
 */
module CallInfo {
  import opened Common

  datatype Group = Called | Calling | OrigCalled | OrigCalling | LastRedirecting | HuntPilot

  datatype Field = NameField | NumberField | VoicemailField

  datatype Key =
    | CalledName | CalledNumber | CalledVoicemail
    | CallingName | CallingNumber | CallingVoicemail
    | OrigCalledName | OrigCalledNumber | OrigCalledVoicemail
    | OrigCallingName | OrigCallingNumber
    | LastRedirectingName | LastRedirectingNumber | LastRedirectingVoicemail
    | HuntPilotName | HuntPilotNumber

  const NAME_SIZE := 40
  const NUMBER_SIZE := 24
  const GROUPS := 6

  datatype Entry = Entry(name: string, number: string, voicemail: string, numberValid: bool, voicemailValid: bool)

  const BLANK := Entry("", "", "", false, false)

  datatype Content = Content(entries: seq<Entry>, origReason: nat, lastReason: nat, presentation: nat)

  const PRESENTATION_ALLOWED := 1

  const NEW := Content([BLANK, BLANK, BLANK, BLANK, BLANK, BLANK], 0, 0, PRESENTATION_ALLOWED)

  /** One argument pair of the setter; a text can be a null pointer. */
  datatype Setting =
    | SetText(key: Key, text: Option<string>)
    | SetOrigReason(reason: nat)
    | SetLastReason(reason: nat)
    | SetPresentation(shown: nat)

  // ---------------------------------------------------------------------------------------------
  // Keys and fields

  function Lookup(k: Key): (Group, Field) {
    match k
    case CalledName => (Called, NameField)
    case CalledNumber => (Called, NumberField)
    case CalledVoicemail => (Called, VoicemailField)
    case CallingName => (Calling, NameField)
    case CallingNumber => (Calling, NumberField)
    case CallingVoicemail => (Calling, VoicemailField)
    case OrigCalledName => (OrigCalled, NameField)
    case OrigCalledNumber => (OrigCalled, NumberField)
    case OrigCalledVoicemail => (OrigCalled, VoicemailField)
    case OrigCallingName => (OrigCalling, NameField)
    case OrigCallingNumber => (OrigCalling, NumberField)
    case LastRedirectingName => (LastRedirecting, NameField)
    case LastRedirectingNumber => (LastRedirecting, NumberField)
    case LastRedirectingVoicemail => (LastRedirecting, VoicemailField)
    case HuntPilotName => (HuntPilot, NameField)
    case HuntPilotNumber => (HuntPilot, NumberField)
  }

  function Index(g: Group): (i: nat)
    ensures i < GROUPS
  {
    match g
    case Called => 0
    case Calling => 1
    case OrigCalled => 2
    case OrigCalling => 3
    case LastRedirecting => 4
    case HuntPilot => 5
  }

  function Size(f: Field): nat {
    if f == NameField then NAME_SIZE else NUMBER_SIZE
  }

  function TextOf(e: Entry, f: Field): string {
    match f
    case NameField => e.name
    case NumberField => e.number
    case VoicemailField => e.voicemail
  }

  /** A name has no flag of its own. */
  function FlagOf(e: Entry, f: Field): Option<bool> {
    match f
    case NameField => None
    case NumberField => Some(e.numberValid)
    case VoicemailField => Some(e.voicemailValid)
  }

  function WithText(e: Entry, f: Field, text: string): Entry {
    match f
    case NameField => e.(name := text)
    case NumberField => e.(number := text)
    case VoicemailField => e.(voicemail := text)
  }

  function WithFlag(e: Entry, f: Field, valid: bool): Entry {
    match f
    case NameField => e
    case NumberField => e.(numberValid := valid)
    case VoicemailField => e.(voicemailValid := valid)
  }

  /** What fits into a buffer of that size, with room for the terminator. */
  function Cut(text: string, size: nat): (r: string)
    requires size > 0
    ensures |r| < size && r <= text
    ensures r == "" <==> text == "" || size == 1
  {
    if |text| < size then text else text[..size - 1]
  }

  predicate Shaped(c: Content) {
    |c.entries| == GROUPS
  }

  function Text(c: Content, k: Key): string
    requires Shaped(c)
  {
    TextOf(c.entries[Index(Lookup(k).0)], Lookup(k).1)
  }

  function Flag(c: Content, k: Key): Option<bool>
    requires Shaped(c)
  {
    FlagOf(c.entries[Index(Lookup(k).0)], Lookup(k).1)
  }

  // ---------------------------------------------------------------------------------------------
  // Setting and getting

  /** A text is stored, with its flag, only if it differs from the one there. */
  function PutText(e: Entry, f: Field, text: string): Entry {
    if TextOf(e, f) == text then e
    else WithFlag(WithText(e, f, Cut(text, Size(f))), f, text != "")
  }

  function SetOne(c: Content, s: Setting): (r: Content)
    requires Shaped(c)
    ensures Shaped(r)
  {
    match s
    case SetText(k, text) =>
      var (g, f) := Lookup(k);
      if text.None? then c else c.(entries := c.entries[Index(g) := PutText(c.entries[Index(g)], f, text.value)])
    case SetOrigReason(n) => c.(origReason := n)
    case SetLastReason(n) => c.(lastReason := n)
    case SetPresentation(n) => c.(presentation := n)
  }

  /** Whether a setting counts as a change; a text too long for its field does so every time. */
  predicate Counts(c: Content, s: Setting)
    requires Shaped(c)
  {
    match s
    case SetText(k, text) => text.Some? && text.value != Text(c, k)
    case SetOrigReason(n) => n != c.origReason
    case SetLastReason(n) => n != c.lastReason
    case SetPresentation(n) => n != c.presentation
  }

  function SetAll(c: Content, list: seq<Setting>): (r: Content)
    requires Shaped(c)
    ensures Shaped(r)
    decreases |list|
  {
    if list == [] then c else SetAll(SetOne(c, list[0]), list[1..])
  }

  function Changes(c: Content, list: seq<Setting>): nat
    requires Shaped(c)
    decreases |list|
  {
    if list == [] then 0 else (if Counts(c, list[0]) then 1 else 0) + Changes(SetOne(c, list[0]), list[1..])
  }

  /** What the getter hands out for a key: nothing if the field is flagged as not valid. */
  function Get(c: Content, k: Key): string
    requires Shaped(c)
  {
    if Flag(c, k) == Some(false) then "" else Text(c, k)
  }

  /** One argument pair of the getter, and what it can yield. */
  datatype Query = ReadText(key: Key) | ReadOrigReason | ReadLastReason | ReadPresentation

  datatype Value = TextValue(text: string) | NumberValue(number: nat)

  function Read(c: Content, q: Query): Value
    requires Shaped(c)
  {
    match q
    case ReadText(k) => TextValue(Get(c, k))
    case ReadOrigReason => NumberValue(c.origReason)
    case ReadLastReason => NumberValue(c.lastReason)
    case ReadPresentation => NumberValue(c.presentation)
  }

  /** How many of the buffers, null pointers apart, hold something else than what is read into them. */
  function Differences(c: Content, list: seq<Query>, buffers: seq<Option<Value>>): nat
    requires Shaped(c) && |list| == |buffers|
  {
    if list == [] then 0
    else
      var i := |list| - 1;
      Differences(c, list[..i], buffers[..i]) + if buffers[i].Some? && buffers[i].value != Read(c, list[i]) then 1 else 0
  }

  // ---------------------------------------------------------------------------------------------
  // The map it refines

  /** Fits: every text fits its field.  Flagged: the flags hold exactly for the texts that are not empty. */
  ghost predicate Fits(c: Content)
    requires Shaped(c)
  {
    forall k: Key :: |Text(c, k)| < Size(Lookup(k).1)
  }

  ghost predicate Flagged(c: Content)
    requires Shaped(c)
  {
    forall k: Key :: Flag(c, k).Some? ==> Flag(c, k).value == (Text(c, k) != "")
  }

  /** The last text given for a key in a list, cut to the field, or else the one that was there. */
  function LastText(list: seq<Setting>, k: Key, was: string): string {
    if list == [] then was
    else
      var now := if list[0].SetText? && list[0].key == k && list[0].text.Some?
                 then Cut(list[0].text.value, Size(Lookup(k).1)) else was;
      LastText(list[1..], k, now)
  }

  /** No two keys share a field. */
  lemma KeysDiffer(k: Key, m: Key)
    requires k != m
    ensures Index(Lookup(k).0) != Index(Lookup(m).0) || Lookup(k).1 != Lookup(m).1
  {
  }

  lemma SetOneText(c: Content, s: Setting, k: Key)
    requires Shaped(c) && |Text(c, k)| < Size(Lookup(k).1)
    ensures
      var r := SetOne(c, s);
      && Text(r, k) == (if s.SetText? && s.key == k && s.text.Some? then Cut(s.text.value, Size(Lookup(k).1))
                        else Text(c, k))
      && (Flag(c, k).Some? && Flag(c, k).value == (Text(c, k) != "") ==>
            Flag(r, k).Some? && Flag(r, k).value == (Text(r, k) != ""))
  {
    if s.SetText? && s.key != k {
      KeysDiffer(k, s.key);
    }
    hide Lookup, Index;
  }

  lemma FlagIsForNumbers(c: Content, d: Content, k: Key)
    requires Shaped(c) && Shaped(d)
    ensures Flag(c, k).Some? <==> Flag(d, k).Some?
  {
  }

  lemma {:induction false} SetAllText(c: Content, list: seq<Setting>, k: Key)
    requires Shaped(c) && |Text(c, k)| < Size(Lookup(k).1)
    ensures
      var r := SetAll(c, list);
      && Text(r, k) == LastText(list, k, Text(c, k))
      && |Text(r, k)| < Size(Lookup(k).1)
      && (Flag(c, k).Some? && Flag(c, k).value == (Text(c, k) != "") ==>
            Flag(r, k).Some? && Flag(r, k).value == (Text(r, k) != ""))
    decreases |list|
  {
    hide Lookup, Index, Flag, Text, SetOne;
    if list != [] {
      SetOneText(c, list[0], k);
      SetAllText(SetOne(c, list[0]), list[1..], k);
    }
  }

  /** Setting a list of keys and then getting any key yields the last text given for it, cut to its field,
    * or the text it had; and flags stay exact. */
  lemma GetAfterSet(c: Content, list: seq<Setting>)
    requires Shaped(c) && Fits(c) && Flagged(c)
    ensures
      var r := SetAll(c, list);
      && (forall k: Key :: Get(r, k) == LastText(list, k, Get(c, k)))
      && Fits(r) && Flagged(r)
  {
    hide Lookup, Index, SetAll, TextOf, FlagOf;
    var r := SetAll(c, list);
    forall k: Key
      ensures Get(r, k) == LastText(list, k, Get(c, k)) && |Text(r, k)| < Size(Lookup(k).1)
      ensures Flag(r, k).Some? ==> Flag(r, k).value == (Text(r, k) != "")
    {
      assert |Text(c, k)| < Size(Lookup(k).1);
      assert Flag(c, k).Some? ==> Flag(c, k).value == (Text(c, k) != "");
      SetAllText(c, list, k);
      FlagIsForNumbers(c, r, k);
    }
  }

  /** Keys a list does not name are untouched. */
  lemma {:induction false} OthersUntouched(list: seq<Setting>, k: Key, was: string)
    requires forall i :: 0 <= i < |list| && list[i].SetText? && list[i].key == k ==> list[i].text.None?
    ensures LastText(list, k, was) == was
    decreases |list|
  {
    if list != [] {
      OthersUntouched(list[1..], k, was);
    }
  }

  // ---------------------------------------------------------------------------------------------
  // What was sent last

  lemma {:induction false} NoChangeNoDifference(c: Content, list: seq<Setting>)
    requires Shaped(c) && Changes(c, list) == 0
    ensures SetAll(c, list) == c
    decreases |list|
  {
    if list != [] {
      SetOneSame(c, list[0]);
      NoChangeNoDifference(SetOne(c, list[0]), list[1..]);
    }
  }

  lemma SetOneSame(c: Content, s: Setting)
    requires Shaped(c) && !Counts(c, s)
    ensures SetOne(c, s) == c
  {
    if s.SetText? && s.text.Some? {
      var i := Index(Lookup(s.key).0);
      assert c.entries[i := c.entries[i]] == c.entries;
    }
  }

  /** A store with the history of what was sent last; `sending` is what another thread has sent without
    * having lowered the changed flag yet. */
  datatype Store = Store(content: Content, changed: bool, last: Option<Content>, sending: Option<Content>)

  datatype Event =
    | Set(list: seq<Setting>)
    | Send(force: bool, device: bool)
    | Transmit(force: bool, device: bool)
    | Lower
    | Replace(content: Content)

  function Step(s: Store, e: Event): (r: Store)
    requires Shaped(s.content) && (e.Replace? ==> Shaped(e.content))
    ensures Shaped(r.content)
  {
    match e
    case Set(list) => s.(content := SetAll(s.content, list), changed := s.changed || Changes(s.content, list) > 0)
    case Send(force, device) =>
      if (s.changed || force) && device then s.(last := Some(s.content), changed := false) else s
    case Transmit(force, device) =>
      if s.sending.None? && (s.changed || force) && device then
        s.(last := Some(s.content), sending := Some(s.content))
      else
        s
    case Lower => if s.sending.Some? then s.(changed := false, sending := None) else s
    case Replace(content) => s.(content := content, changed := true)
  }

  predicate Runnable(events: seq<Event>) {
    forall i :: 0 <= i < |events| && events[i].Replace? ==> Shaped(events[i].content)
  }

  function Run(s: Store, events: seq<Event>): (r: Store)
    requires Shaped(s.content) && Runnable(events)
    ensures Shaped(r.content)
    decreases |events|
  {
    if events == [] then s else Run(Step(s, events[0]), events[1..])
  }

  /** If nothing is marked as changed, the phone has been sent exactly what is stored. */
  predicate Honest(s: Store) {
    !s.changed ==> s.last == Some(s.content)
  }

  /** A send that nothing interrupts keeps the flag honest; one that is interrupted does so exactly if the
    * content was not changed in between. */
  lemma StepHonest(s: Store, e: Event)
    requires Shaped(s.content) && (e.Replace? ==> Shaped(e.content)) && Honest(s)
    ensures !e.Lower? ==> Honest(Step(s, e))
    ensures e.Lower? && s.sending.Some? ==> (Honest(Step(s, e)) <==> s.last == Some(s.content))
  {
    if e.Set? && Changes(s.content, e.list) == 0 {
      NoChangeNoDifference(s.content, e.list);
    }
    hide SetAll, Changes;
  }

  /** In every run of whole sends, an unset flag means that what is stored is what was last sent. */
  lemma {:induction false} UnchangedIsSent(s: Store, events: seq<Event>)
    requires Shaped(s.content) && Runnable(events) && Honest(s) && s.sending.None?
    requires forall i :: 0 <= i < |events| ==> !events[i].Transmit? && !events[i].Lower?
    ensures Honest(Run(s, events))
    decreases |events|
  {
    if events != [] {
      StepHonest(s, events[0]);
      hide Step;
      assert Step(s, events[0]).sending == s.sending by { NoSending(s, events[0]); }
      UnchangedIsSent(Step(s, events[0]), events[1..]);
    }
  }

  lemma NoSending(s: Store, e: Event)
    requires Shaped(s.content) && (e.Replace? ==> Shaped(e.content)) && !e.Transmit? && !e.Lower?
    ensures Step(s, e).sending == s.sending
  {
  }

  /** A change that another thread makes between sending and lowering the flag is never sent by itself. */
  lemma ChangeDuringSendIsLost()
    ensures
      var s := Run(Store(NEW, true, None, None), [Transmit(false, true), Set([SetOrigReason(4)]), Lower]);
      !s.changed && s.last == Some(NEW) && s.content == NEW.(origReason := 4)
  {
    var e := [Transmit(false, true), Set([SetOrigReason(4)]), Lower];
    var s1 := Step(Store(NEW, true, None, None), e[0]);
    assert s1 == Store(NEW, true, Some(NEW), Some(NEW));
    assert [SetOrigReason(4)][1..] == [];
    var s2 := Step(s1, e[1]);
    assert s2 == s1.(content := NEW.(origReason := 4));
    var s3 := Step(s2, e[2]);
    hide Step;
    assert e[1..][1..] == e[2..] && e[2..][1..] == [];
    assert Run(s1, e[1..]) == Run(s2, e[2..]);
    assert Run(s2, e[2..]) == Run(s3, []);
  }

  // ---------------------------------------------------------------------------------------------
  // Copying by key

  datatype Copy = CopyText(src: Key, dst: Key) | CopyOrigReason | CopyLastReason | CopyPresentation | Mismatch

  const WIPED := Content([BLANK, BLANK, BLANK, BLANK, BLANK, BLANK], 0, 0, 0)

  function CopyField(src: Entry, f: Field, dst: Entry, g: Field): Entry {
    var text := Cut(TextOf(src, f), Size(g));
    match FlagOf(src, f)
    case Some(true) => WithFlag(WithText(dst, g, text), g, true)
    case Some(false) => WithText(dst, g, "")
    case None => WithText(dst, g, text)
  }

  function CopyOne(c: Content, src: Content, p: Copy): (r: Content)
    requires Shaped(c) && Shaped(src)
    ensures Shaped(r)
  {
    match p
    case CopyText(a, b) =>
      var (ga, fa) := Lookup(a);
      var (gb, fb) := Lookup(b);
      c.(entries := c.entries[Index(gb) := CopyField(src.entries[Index(ga)], fa, c.entries[Index(gb)], fb)])
    case CopyOrigReason => c.(origReason := src.origReason)
    case CopyLastReason => c.(lastReason := src.lastReason)
    case CopyPresentation => c.(presentation := src.presentation)
    case Mismatch => c
  }

  /** The copy starts from nothing: whatever no pair names is wiped in the destination. */
  function CopyAll(c: Content, src: Content, pairs: seq<Copy>): (r: Content)
    requires Shaped(c) && Shaped(src)
    ensures Shaped(r)
    decreases |pairs|
  {
    if pairs == [] then c else CopyAll(CopyOne(c, src, pairs[0]), src, pairs[1..])
  }

  lemma CopyFieldText(src: Entry, f: Field, dst: Entry, g: Field)
    ensures
      var r := CopyField(src, f, dst, g);
      && TextOf(r, g) == Cut(if FlagOf(src, f) == Some(false) then "" else TextOf(src, f), Size(g))
      && (FlagOf(dst, g).Some? ==> FlagOf(r, g) == if FlagOf(src, f) == Some(true) then Some(true) else FlagOf(dst, g))
      && (forall h: Field :: h != g ==> TextOf(r, h) == TextOf(dst, h) && FlagOf(r, h) == FlagOf(dst, h))
  {
    match g
    case NameField =>
    case NumberField =>
    case VoicemailField =>
  }

  lemma CopyOneText(c: Content, src: Content, a: Key, b: Key, k: Key)
    requires Shaped(c) && Shaped(src)
    ensures
      var r := CopyOne(c, src, CopyText(a, b));
      && (k != b ==> Text(r, k) == Text(c, k) && Flag(r, k) == Flag(c, k))
      && (k == b ==> Text(r, k) == Cut(Get(src, a), Size(Lookup(b).1)))
      && (k == b && Flag(c, b).Some? ==> Flag(r, b) == if Flag(src, a) == Some(true) then Some(true) else Flag(c, b))
  {
    if k != b {
      KeysDiffer(k, b);
    }
    hide Lookup, Index, CopyField, TextOf, FlagOf;
    CopyFieldText(src.entries[Index(Lookup(a).0)], Lookup(a).1, c.entries[Index(Lookup(b).0)], Lookup(b).1);
  }

  /** Copying one key leaves the flags exact if and only if it is not a name, with text, that is copied to
    * a number or a mailbox: that text is stored there without its flag, so that getting it yields nothing. */
  lemma CopyKeepsFlags(src: Content, a: Key, b: Key)
    requires Shaped(src) && Fits(src) && Flagged(src)
    ensures Flagged(CopyAll(WIPED, src, [CopyText(a, b)])) <==>
            (Flag(src, a).None? && Flag(WIPED, b).Some? ==> Text(src, a) == "")
  {
    var pairs := [CopyText(a, b)];
    var r := CopyOne(WIPED, src, pairs[0]);
    assert pairs[1..] == [];
    assert CopyAll(WIPED, src, pairs) == r;
    assert Flag(src, a).Some? ==> Flag(src, a).value == (Text(src, a) != "");
    hide Lookup, Index, TextOf, FlagOf, CopyOne, CopyAll;
    forall k: Key
      ensures Text(WIPED, k) == "" && (Flag(WIPED, k).Some? ==> !Flag(WIPED, k).value)
      ensures k != b ==> Text(r, k) == Text(WIPED, k) && Flag(r, k) == Flag(WIPED, k)
    {
      WipedIsBlank(k);
      CopyOneText(WIPED, src, a, b, k);
    }
    CopyOneText(WIPED, src, a, b, b);
    FlagIsForNumbers(r, WIPED, b);
    hide Text, Flag;
    assert Flagged(r) ==> (Flag(r, b).Some? ==> Flag(r, b).value == (Text(r, b) != ""));
  }

  /** The text of the last key copied to k, cut to its field, or else the one that was there. */
  function LastCopied(src: Content, pairs: seq<Copy>, k: Key, was: string): string
    requires Shaped(src)
  {
    if pairs == [] then was
    else
      var now := if pairs[0].CopyText? && pairs[0].dst == k then Cut(Get(src, pairs[0].src), Size(Lookup(k).1)) else was;
      LastCopied(src, pairs[1..], k, now)
  }

  /** Some number or mailbox that is valid in the source is copied to k. */
  predicate Vouched(src: Content, pairs: seq<Copy>, k: Key)
    requires Shaped(src)
  {
    pairs != [] &&
    ((pairs[0].CopyText? && pairs[0].dst == k && Flag(src, pairs[0].src) == Some(true)) || Vouched(src, pairs[1..], k))
  }

  lemma {:induction false} CopyAllText(c: Content, src: Content, pairs: seq<Copy>, k: Key)
    requires Shaped(c) && Shaped(src)
    ensures Text(CopyAll(c, src, pairs), k) == LastCopied(src, pairs, k, Text(c, k))
    ensures Flag(c, k).Some? ==>
              Flag(CopyAll(c, src, pairs), k) == if Vouched(src, pairs, k) then Some(true) else Flag(c, k)
    decreases |pairs|
  {
    if pairs != [] {
      var c1 := CopyOne(c, src, pairs[0]);
      if pairs[0].CopyText? { CopyOneText(c, src, pairs[0].src, pairs[0].dst, k); }
      FlagIsForNumbers(c, c1, k);
      assert !pairs[0].CopyText? ==> Text(c1, k) == Text(c, k) && Flag(c1, k) == Flag(c, k);
      hide Lookup, Index, TextOf, FlagOf, CopyOne, Get, Text, Flag;
      CopyAllText(c1, src, pairs[1..], k);
    }
  }

  /** Copying any list of keys yields for every key the text last copied to it, or nothing; and it leaves the
    * flags exact if and only if each number or mailbox ends up with a text just when something valid was
    * copied to it. */
  lemma CopyListKeepsFlags(src: Content, pairs: seq<Copy>)
    requires Shaped(src)
    ensures
      var r := CopyAll(WIPED, src, pairs);
      && (forall k: Key :: Text(r, k) == LastCopied(src, pairs, k, ""))
      && (Flagged(r) <==> forall k: Key :: Flag(WIPED, k).Some? ==>
            (LastCopied(src, pairs, k, "") != "" <==> Vouched(src, pairs, k)))
  {
    var r := CopyAll(WIPED, src, pairs);
    hide Lookup, Index, TextOf, FlagOf, CopyAll, LastCopied, Vouched;
    forall k: Key
      ensures Text(r, k) == LastCopied(src, pairs, k, "")
      ensures Flag(r, k).Some? <==> Flag(WIPED, k).Some?
      ensures Flag(WIPED, k).Some? ==> Flag(r, k) == Some(Vouched(src, pairs, k))
    {
      WipedIsBlank(k);
      CopyAllText(WIPED, src, pairs, k);
      FlagIsForNumbers(WIPED, r, k);
    }
    hide Text, Flag;
  }

  lemma WipedIsBlank(k: Key)
    ensures Text(WIPED, k) == "" && (Flag(WIPED, k).Some? ==> !Flag(WIPED, k).value)
  {
  }

  /** Whatever the pairs, a key that is the destination of none of them reads as nothing afterwards. */
  lemma {:induction false} CopyWipesOthers(c: Content, src: Content, pairs: seq<Copy>, k: Key)
    requires Shaped(c) && Shaped(src)
    requires forall i :: 0 <= i < |pairs| && pairs[i].CopyText? ==> pairs[i].dst != k
    ensures Text(CopyAll(c, src, pairs), k) == Text(c, k)
    decreases |pairs|
  {
    if pairs != [] {
      if pairs[0].CopyText? {
        CopyOneText(c, src, pairs[0].src, pairs[0].dst, k);
      }
      hide Text, CopyOne;
      assert Text(CopyOne(c, src, pairs[0]), k) == Text(c, k) by { CopyOther(c, src, pairs[0], k); }
      CopyWipesOthers(CopyOne(c, src, pairs[0]), src, pairs[1..], k);
    }
  }

  lemma CopyOther(c: Content, src: Content, p: Copy, k: Key)
    requires Shaped(c) && Shaped(src) && (p.CopyText? ==> p.dst != k)
    ensures Text(CopyOne(c, src, p), k) == Text(c, k)
  {
    if p.CopyText? {
      CopyOneText(c, src, p.src, p.dst, k);
    }
  }
}
