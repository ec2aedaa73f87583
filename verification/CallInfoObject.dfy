/** The call information object, set, copied, read and sent in place. */
module CallInfoObject {
  import opened Common
  import C = CallInfo

  class CallInfo {
    const entries: array<C.Entry>
    var origReason: nat
    var lastReason: nat
    var presentation: nat
    var changed: bool
    var last: Option<C.Content>

    ghost predicate Valid() {
      entries.Length == C.GROUPS
    }

    function View(): (c: C.Content)
      requires Valid()
      reads this, entries
      ensures C.Shaped(c)
    {
      C.Content(entries[..], origReason, lastReason, presentation)
    }

    function State(): C.Store
      requires Valid()
      reads this, entries
    {
      C.Store(View(), changed, last, None)
    }

    constructor ()
      ensures Valid() && fresh(entries)
      ensures State() == C.Store(C.NEW, true, None, None)
    {
      entries := new C.Entry[C.GROUPS](i => C.BLANK);
      origReason, lastReason, presentation := 0, 0, C.PRESENTATION_ALLOWED;
      changed, last := true, None;
    }

    method SetField(k: C.Key, text: string) returns (differs: bool)
      requires Valid()
      modifies entries
      ensures View() == C.SetOne(old(View()), C.SetText(k, Some(text)))
      ensures differs == C.Counts(old(View()), C.SetText(k, Some(text)))
    {
      var i, f := C.Index(C.Lookup(k).0), C.Lookup(k).1;
      var e := entries[i];
      differs := C.TextOf(e, f) != text;
      hide C.Lookup, C.Index, C.WithText, C.WithFlag, C.TextOf;
      if differs {
        entries[i] := C.WithFlag(C.WithText(e, f, C.Cut(text, C.Size(f))), f, text != "");
      }
      assert entries[..] == old(entries[..])[i := entries[i]];
    }

    method Setter(list: seq<C.Setting>) returns (changes: nat)
      requires Valid()
      modifies this, entries
      ensures State() == C.Step(old(State()), C.Set(list))
      ensures changes == C.Changes(old(View()), list)
      ensures C.Fits(old(View())) && C.Flagged(old(View())) ==>
                && C.Fits(View()) && C.Flagged(View())
                && (forall k: C.Key :: C.Get(View(), k) == C.LastText(list, k, C.Get(old(View()), k)))
    {
      hide C.Get, C.Fits, C.Flagged;
      ghost var was := View();
      changes := SetEach(list);
      if changes > 0 { changed := true; }
      if C.Fits(was) && C.Flagged(was) { C.GetAfterSet(was, list); }
    }

    method SetEach(list: seq<C.Setting>) returns (changes: nat)
      requires Valid()
      modifies `origReason, `lastReason, `presentation, entries
      ensures View() == C.SetAll(old(View()), list)
      ensures changes == C.Changes(old(View()), list)
    {
      hide C.SetOne, C.Counts;
      changes := 0;
      assert list[0..] == list;
      for i := 0 to |list|
        invariant C.SetAll(View(), list[i..]) == C.SetAll(old(View()), list)
        invariant changes + C.Changes(View(), list[i..]) == C.Changes(old(View()), list)
      {
        assert list[i..][0] == list[i] && list[i..][1..] == list[i + 1..];
        var differs := ApplySetting(list[i]);
        if differs { changes := changes + 1; }
      }
      assert list[|list|..] == [];
    }

    method ApplySetting(s: C.Setting) returns (differs: bool)
      requires Valid()
      modifies `origReason, `lastReason, `presentation, entries
      ensures View() == C.SetOne(old(View()), s)
      ensures differs == C.Counts(old(View()), s)
    {
      differs := false;
      match s
      case SetText(k, text) =>
        if text.Some? { differs := SetField(k, text.value); }
      case SetOrigReason(n) =>
        if n != origReason { origReason, differs := n, true; }
      case SetLastReason(n) =>
        if n != lastReason { lastReason, differs := n, true; }
      case SetPresentation(n) =>
        if n != presentation { presentation, differs := n, true; }
    }

    /** Reads a list of keys into the caller's buffers and counts those that change; a null pointer is skipped. */
    method Getter(list: seq<C.Query>, buffers: array<Option<C.Value>>) returns (entries: nat)
      requires Valid() && C.Fits(View()) && buffers.Length == |list|
      requires buffers as object != this.entries as object
      requires forall i :: 0 <= i < |list| && !list[i].ReadText? ==> buffers[i].Some?
      modifies buffers
      ensures View() == old(View())
      ensures forall i :: 0 <= i < |list| ==>
                buffers[i] == if old(buffers[i]).None? then None else Some(C.Read(View(), list[i]))
      ensures entries == C.Differences(View(), list, old(buffers[..]))
    {
      entries := 0;
      ghost var was := buffers[..];
      for i := 0 to |list|
        invariant View() == old(View())
        invariant forall j :: 0 <= j < i ==>
                    buffers[j] == if was[j].None? then None else Some(C.Read(View(), list[j]))
        invariant forall j :: i <= j < |list| ==> buffers[j] == was[j]
        invariant entries == C.Differences(View(), list[..i], was[..i])
      {
        assert list[..i + 1][..i] == list[..i] && was[..i + 1][..i] == was[..i];
        if buffers[i].Some? {
          var value := ReadOne(list[i], buffers[i].value);
          if value != buffers[i].value {
            buffers[i] := Some(value);
            entries := entries + 1;
          }
        }
      }
      assert list[..|list|] == list && was[..|list|] == was;
    }

    /** Reads one value; a text is written only if it differs, and cut to its field. */
    method ReadOne(q: C.Query, buffer: C.Value) returns (value: C.Value)
      requires Valid() && C.Fits(View())
      ensures value == C.Read(View(), q)
    {
      match q
      case ReadText(k) =>
        assert |C.Text(View(), k)| < C.Size(C.Lookup(k).1);
        var e, f := entries[C.Index(C.Lookup(k).0)], C.Lookup(k).1;
        hide C.Lookup, C.Index, C.TextOf, C.FlagOf;
        if C.FlagOf(e, f) == Some(false) {
          value := C.TextValue("");
        } else if C.TextValue(C.TextOf(e, f)) != buffer {
          value := C.TextValue(C.Cut(C.TextOf(e, f), C.Size(f)));
        } else {
          value := buffer;
        }
      case ReadOrigReason => value := C.NumberValue(origReason);
      case ReadLastReason => value := C.NumberValue(lastReason);
      case ReadPresentation => value := C.NumberValue(presentation);
    }

    method Send(force: bool, device: bool) returns (ok: bool)
      requires Valid()
      modifies `changed, `last
      ensures State() == C.Step(old(State()), C.Send(force, device))
    {
      ok := (changed || force) && device;
      if ok {
        last := Some(View());
        changed := false;
      }
    }

    /** Copies keys of another object here; the copy is made apart and then replaces everything. */
    method CopyByKey(src: CallInfo, pairs: seq<C.Copy>)
      requires Valid() && src.Valid()
      modifies this, entries
      ensures State() == C.Step(old(State()), C.Replace(C.CopyAll(C.WIPED, old(src.View()), pairs)))
    {
      hide C.CopyOne;
      var from, tmp := src.View(), C.WIPED;
      assert pairs[0..] == pairs;
      for i := 0 to |pairs|
        invariant C.Shaped(tmp)
        invariant C.CopyAll(tmp, from, pairs[i..]) == C.CopyAll(C.WIPED, from, pairs)
      {
        assert pairs[i..][0] == pairs[i] && pairs[i..][1..] == pairs[i + 1..];
        tmp := C.CopyOne(tmp, from, pairs[i]);
      }
      assert pairs[|pairs|..] == [];
      forall i | 0 <= i < entries.Length {
        entries[i] := tmp.entries[i];
      }
      assert entries[..] == tmp.entries;
      origReason, lastReason, presentation := tmp.origReason, tmp.lastReason, tmp.presentation;
      changed := true;
    }
  }
}
