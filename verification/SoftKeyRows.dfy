/**
 * The rows of softkeys a phone is sent, the record the driver keeps of them, the mask that greys keys
 * out by position, and the way back from a key press to the label that was configured.
 */
module SoftKeyRows {
  type Label = nat

  // Labels that the device or the build can withhold, and the hole an operator can ask for
  const EMPTY: Label := 0
  const TRANSFER: Label := 4
  const CFWDALL: Label := 5
  const CFWDBUSY: Label := 6
  const CFWDNOANSWER: Label := 7
  const ENDCALL: Label := 9
  const CONFRN: Label := 13
  const PARK: Label := 14
  const JOIN: Label := 15
  const MEETME: Label := 16
  const PICKUP: Label := 17
  const GPICKUP: Label := 18
  const PRIVATE: Label := 54
  const TRNSFVM: Label := 62
  const DND: Label := 63
  const CALLBACK: Label := 65
  const DIRTRFR: Label := 77
  const IDIVERT: Label := 80
  const CBARGE: Label := 81
  const VIDEO_MODE: Label := 88

  /** The labels in the order of the softkey template; a key is known to the phone by its place here. */
  function SoftKeys(): seq<Label> {
    [1, 2, 3, 4, 5, 6, 7, 8, 9, 10, 11, 12, 13, 14, 15, 16, 17, 18, 202, 65, 67, 63, 79, 78, 54, 62, 77, 80, 88, 60,
     0, 201]
  }

  lemma HoleIsAKey()
    ensures EMPTY in SoftKeys()
  {
    assert SoftKeys()[30] == EMPTY;
  }

  const ROW_SIZE := 16
  const KEY_SETS := 16
  const STEALABLE := 11

  /** What the device and its lines offer, and what is compiled in. */
  datatype Device = Device(
    park: bool, transfer: bool, dnd: bool, cfwdAll: bool, cfwdBusy: bool, cfwdNoAnswer: bool, privacy: bool,
    trnsfvm: bool, meetme: bool, directedPickup: bool, pickupGroup: bool,
    advanced: bool, conference: bool, pickup: bool, video: bool)

  type KeyMode = m: nat | m < KEY_SETS

  datatype KeySet = KeySet(id: KeyMode, keys: seq<Label>)

  /** A key on the wire: 1 and up for a place in the template, 0 for a hole. */
  datatype Key = Key(index: nat, info: nat)

  const HOLE := Key(0, 0)

  predicate Offered(d: Device, k: Label) {
    && (k == PARK ==> d.park)
    && (k == TRANSFER ==> d.transfer)
    && (k == DND ==> d.dnd)
    && (k == CFWDALL ==> d.cfwdAll)
    && (k == CFWDBUSY ==> d.cfwdBusy)
    && (k == CFWDNOANSWER ==> d.cfwdNoAnswer)
    && (k == TRNSFVM || k == IDIVERT ==> d.trnsfvm)
    && (k == MEETME ==> d.meetme)
    && (k == CALLBACK || k == CBARGE ==> d.advanced)
    && (k == JOIN || k == CONFRN ==> d.conference)
    && (k == PICKUP && d.pickup ==> d.directedPickup)
    && (k == GPICKUP && d.pickup ==> d.pickupGroup)
    && (k == PRIVATE ==> d.privacy)
    && (k == VIDEO_MODE ==> d.video)
  }

  /** The keys of a configured list that get a position: holes and what the device is offered. */
  function Kept(d: Device, keys: seq<Label>): seq<Label> {
    if keys == [] then []
    else (if Offered(d, keys[0]) && keys[0] in SoftKeys() then [keys[0]] else []) + Kept(d, keys[1..])
  }

  /** The row a phone is to be sent: the kept keys, packed, as many as there are positions. */
  function Row(d: Device, keys: seq<Label>): (row: seq<Label>)
    ensures |row| <= ROW_SIZE
  {
    var kept := Kept(d, keys);
    if |kept| <= ROW_SIZE then kept else kept[..ROW_SIZE]
  }

  function PlaceOf(k: Label, from: nat): (j: nat)
    requires from <= |SoftKeys()|
    ensures j <= |SoftKeys()|
    ensures j < |SoftKeys()| ==> from <= j && SoftKeys()[j] == k
    ensures forall i :: from <= i < j ==> SoftKeys()[i] != k
    decreases |SoftKeys()| - from
  {
    if from == |SoftKeys()| || SoftKeys()[from] == k then from else PlaceOf(k, from + 1)
  }

  function Encode(k: Label): Key {
    var j := PlaceOf(k, 0);
    if k == EMPTY || j == |SoftKeys()| then HOLE else Key(j + 1, j + 301)
  }

  /** The label a pressed key stands for; the nokia client's direct transfer key ends the call. */
  function Decode(event: nat, nokia: bool): (k: Label)
    requires 0 < event <= |SoftKeys()|
  {
    var k := SoftKeys()[event - 1];
    if nokia && k == DIRTRFR then ENDCALL else k
  }

  /** Whatever position is no hole, pressing it gives back the label of that position in the row. */
  lemma PressDecodes(d: Device, keys: seq<Label>, p: nat, nokia: bool)
    requires p < |Row(d, keys)|
    ensures
      var k := Row(d, keys)[p];
      && (Encode(k) == HOLE <==> k == EMPTY)
      && (k != EMPTY ==>
            0 < Encode(k).index <= |SoftKeys()| && Encode(k).info == Encode(k).index + 300
            && Decode(Encode(k).index, nokia) == if nokia && k == DIRTRFR then ENDCALL else k)
  {
    hide SoftKeys, Offered;
    KeptIsKnown(d, keys, p);
    assert Row(d, keys)[p] == Kept(d, keys)[p];
    var k := Kept(d, keys)[p];
    var i :| 0 <= i < |SoftKeys()| && SoftKeys()[i] == k;
    assert PlaceOf(k, 0) <= i;
  }

  lemma {:induction false} KeptIsKnown(d: Device, keys: seq<Label>, p: nat)
    requires p < |Kept(d, keys)|
    ensures Kept(d, keys)[p] in SoftKeys() && Offered(d, Kept(d, keys)[p]) && Kept(d, keys)[p] in keys
  {
    hide SoftKeys, Offered;
    var first := if Offered(d, keys[0]) && keys[0] in SoftKeys() then [keys[0]] else [];
    if p >= |first| {
      KeptIsKnown(d, keys[1..], p - |first|);
    }
  }

  lemma {:induction false} KeptAppend(d: Device, a: seq<Label>, b: seq<Label>)
    ensures Kept(d, a + b) == Kept(d, a) + Kept(d, b)
  {
    hide SoftKeys, Offered;
    if a == [] {
      assert a + b == b;
    } else {
      assert (a + b)[1..] == a[1..] + b;
      KeptAppend(d, a[1..], b);
    }
  }

  lemma KeptNext(d: Device, keys: seq<Label>, c: nat)
    requires c < |keys|
    ensures Kept(d, keys[..c + 1]) == Kept(d, keys[..c]) +
            if Offered(d, keys[c]) && keys[c] in SoftKeys() then [keys[c]] else []
    ensures Kept(d, keys[..c + 1]) <= Kept(d, keys)
  {
    assert keys[..c + 1] == keys[..c] + [keys[c]];
    KeptAppend(d, keys[..c], [keys[c]]);
    assert [keys[c]][1..] == [];
    assert keys == keys[..c + 1] + keys[c + 1..];
    KeptAppend(d, keys[..c + 1], keys[c + 1..]);
  }

  /** A configured key that the device is offered takes the position given by the number of such keys
    * before it, unless the row is full by then; so a key that is withheld leaves no gap. */
  lemma RowPosition(d: Device, keys: seq<Label>, c: nat)
    requires c < |keys| && Offered(d, keys[c]) && keys[c] in SoftKeys()
    ensures
      var p := |Kept(d, keys[..c])|;
      p < ROW_SIZE ==> p < |Row(d, keys)| && Row(d, keys)[p] == keys[c]
  {
    hide SoftKeys, Offered;
    KeptNext(d, keys, c);
    var p := |Kept(d, keys[..c])|;
    assert Kept(d, keys[..c + 1])[p] == keys[c];
  }

  /** Sets with keys have different key modes; the unused entries all read as mode 0. */
  predicate Distinct(sets: seq<KeySet>) {
    forall i, j :: 0 <= i < j < |sets| && sets[i].keys != [] && sets[j].keys != [] ==> sets[i].id != sets[j].id
  }

  /** The row a key mode gets from a list of sets: that of its set with keys, if there is one. */
  function RowFor(d: Device, sets: seq<KeySet>, id: KeyMode): (row: seq<Label>)
    ensures |row| <= ROW_SIZE
  {
    if sets == [] then []
    else
      var last := sets[|sets| - 1];
      if last.id == id && last.keys != [] then Row(d, last.keys) else RowFor(d, sets[..|sets| - 1], id)
  }

  lemma {:induction false} RowForNone(d: Device, sets: seq<KeySet>, id: KeyMode)
    requires forall k :: 0 <= k < |sets| && sets[k].keys != [] ==> sets[k].id != id
    ensures RowFor(d, sets, id) == []
    decreases |sets|
  {
    if sets != [] {
      RowForNone(d, sets[..|sets| - 1], id);
    }
  }

  lemma {:induction false} RowForOne(d: Device, sets: seq<KeySet>, k: nat)
    requires Distinct(sets) && k < |sets| && sets[k].keys != []
    ensures RowFor(d, sets, sets[k].id) == Row(d, sets[k].keys)
    decreases |sets|
  {
    if k < |sets| - 1 {
      RowForOne(d, sets[..|sets| - 1], k);
    }
  }

  /** The place of a label in the template, as the inner loop searches it. */
  method FindKey(k: Label) returns (j: nat)
    ensures j == PlaceOf(k, 0)
  {
    j := 0;
    while j < |SoftKeys()| && SoftKeys()[j] != k
      invariant j <= |SoftKeys()|
      invariant forall i :: 0 <= i < j ==> SoftKeys()[i] != k
    {
      j := j + 1;
    }
  }

  /** The message row and the record of one key mode, in their fixed buffers. */
  ghost predicate Packed(wire: array<Key>, sent: array<Label>, row: seq<Label>)
    reads wire, sent
  {
    && wire.Length == sent.Length == ROW_SIZE
    && |row| <= ROW_SIZE
    && (forall p :: 0 <= p < |row| ==> sent[p] == row[p] && wire[p] == Encode(row[p]))
    && (forall p :: |row| <= p < ROW_SIZE ==> wire[p] == HOLE)
  }

  /** Writes a key with its place in the template, or a hole, at the next position. */
  method PutKey(wire: array<Key>, sent: array<Label>, k: Label, place: nat, ghost done: seq<Label>, cp: nat)
    requires Packed(wire, sent, done) && cp == |done| < ROW_SIZE
    requires k == EMPTY || place == PlaceOf(k, 0) < |SoftKeys()|
    modifies wire, sent
    ensures Packed(wire, sent, done + [k])
  {
    hide SoftKeys;
    if k != EMPTY {
      wire[cp] := Key(place + 1, place + 301);
    }
    sent[cp] := k;
  }

  /** Packs one configured list: c walks the list, cp only moves on when a position is taken. */
  method PackRow(d: Device, keys: seq<Label>, wire: array<Key>, sent: array<Label>) returns (cp: nat)
    requires Packed(wire, sent, [])
    modifies wire, sent
    ensures Packed(wire, sent, Row(d, keys)) && cp == |Row(d, keys)|
  {
    hide SoftKeys, Offered;
    HoleIsAKey();
    assert keys[..0] == [] && keys[..|keys|] == keys;
    assert Kept(d, keys[..0]) == [];
    hide Kept, Packed, Encode;
    var c := 0;
    cp := 0;
    while c < |keys| && cp < ROW_SIZE
      invariant 0 <= c <= |keys| && cp == |Kept(d, keys[..c])| <= ROW_SIZE
      invariant Kept(d, keys[..c]) <= Kept(d, keys)
      invariant Packed(wire, sent, Kept(d, keys[..c]))
    {
      ghost var done := Kept(d, keys[..c]);
      KeptNext(d, keys, c);
      if Offered(d, keys[c]) {
        if keys[c] == EMPTY {
          PutKey(wire, sent, EMPTY, 0, done, cp);
          cp := cp + 1;
        } else {
          var j := FindKey(keys[c]);
          if j < |SoftKeys()| {
            PutKey(wire, sent, keys[c], j, done, cp);
            cp := cp + 1;
          }
        }
      }
      c := c + 1;
    }
  }

  /** Sets the bits of the positions that show a label. */
  method SetSoftkeyState(mask: array<bool>, sent: array<Label>, count: nat, k: Label, enable: bool)
    requires mask.Length == sent.Length && count <= sent.Length
    modifies mask
    ensures forall p :: 0 <= p < mask.Length ==>
              mask[p] == if p < count && sent[p] == k then enable else old(mask[p])
  {
    for i := 0 to count
      invariant forall p :: 0 <= p < mask.Length ==>
                  mask[p] == if p < i && sent[p] == k then enable else old(mask[p])
    {
      if sent[i] == k { mask[i] := enable; }
    }
  }

  /** The device's softkey configuration: one buffer per key mode for the message, the record and the mask. */
  class Configuration {
    const wire: seq<array<Key>>
    const transmitted: seq<array<Label>>
    const mask: seq<array<bool>>
    const transmittedCount: array<nat>

    constructor (wire: seq<array<Key>>, transmitted: seq<array<Label>>, mask: seq<array<bool>>, counts: array<nat>)
      requires Shaped(wire, transmitted, mask, counts)
      ensures Valid()
    {
      this.wire, this.transmitted, this.mask, this.transmittedCount := wire, transmitted, mask, counts;
    }

    static ghost predicate Shaped(wire: seq<array<Key>>, transmitted: seq<array<Label>>, mask: seq<array<bool>>, counts: array<nat>) {
      && |wire| == |transmitted| == |mask| == counts.Length == KEY_SETS
      && (forall i :: 0 <= i < KEY_SETS ==>
            wire[i].Length == transmitted[i].Length == mask[i].Length == ROW_SIZE)
      && (forall i, j :: 0 <= i < j < KEY_SETS ==>
            wire[i] != wire[j] && transmitted[i] != transmitted[j] && mask[i] != mask[j])
      && (forall i :: 0 <= i < KEY_SETS ==> (counts as object) != (transmitted[i] as object))
    }

    ghost predicate Valid() {
      Shaped(wire, transmitted, mask, transmittedCount)
    }

    /** Message and record of a key mode agree with the row, position by position, and so does the count. */
    ghost predicate Holds(id: KeyMode, row: seq<Label>)
      requires Valid()
      reads wire[id], transmitted[id], transmittedCount
    {
      Packed(wire[id], transmitted[id], row) && transmittedCount[id] == |row|
    }

    /** Builds every row of a fresh message and records what became of it. */
    method BuildRows(d: Device, sets: seq<KeySet>)
      requires Valid() && Distinct(sets)
      requires forall i: KeyMode :: Packed(wire[i], transmitted[i], [])
      modifies wire, transmitted, transmittedCount
      ensures forall i: KeyMode :: Holds(i, RowFor(d, sets, i))
    {
      hide Row, SoftKeys, Offered;
      forall i | 0 <= i < KEY_SETS {
        transmittedCount[i] := 0;
      }
      for k := 0 to |sets|
        invariant forall i: KeyMode :: Holds(i, RowFor(d, sets[..k], i))
      {
        var id, keys := sets[k].id, sets[k].keys;
        assert sets[..k + 1][..k] == sets[..k];
        if keys != [] {
          RowForNone(d, sets[..k], id);
          assert Holds(id, []);
          var cp := PackRow(d, keys, wire[id], transmitted[id]);
          transmittedCount[id] := cp;
        }
      }
      assert sets[..|sets|] == sets;
    }

    /** The mask before any key is greyed: every position is enabled. */
    ghost predicate AllEnabled()
      requires Valid()
      reads mask
    {
      forall i, p :: 0 <= i < KEY_SETS && 0 <= p < ROW_SIZE ==> mask[i][p]
    }

    /** Greys the video mode and join keys of the rows up to the stealable one. */
    method GreyKeys()
      requires Valid() && AllEnabled()
      requires forall i :: 0 <= i < KEY_SETS ==> transmittedCount[i] <= ROW_SIZE
      modifies mask
      ensures forall i, p :: 0 <= i < KEY_SETS && 0 <= p < transmittedCount[i] ==>
                mask[i][p] == !(i < STEALABLE && transmitted[i][p] in {VIDEO_MODE, JOIN})
    {
      for k := 0 to STEALABLE
        invariant forall i, p :: k <= i < KEY_SETS && 0 <= p < ROW_SIZE ==> mask[i][p]
        invariant forall i, p :: 0 <= i < k && 0 <= p < transmittedCount[i] ==>
                    mask[i][p] == (transmitted[i][p] !in {VIDEO_MODE, JOIN})
      {
        SetSoftkeyState(mask[k], transmitted[k], transmittedCount[k], VIDEO_MODE, false);
        SetSoftkeyState(mask[k], transmitted[k], transmittedCount[k], JOIN, false);
      }
    }

    /** The whole request: in the end the bit at a position greys the key the phone shows there, and what
      * that key sends when it is pressed decodes to the very label the bit was set for. */
    method HandleSoftKeySetReq(d: Device, sets: seq<KeySet>)
      requires Valid() && Distinct(sets) && AllEnabled()
      requires forall i: KeyMode :: Packed(wire[i], transmitted[i], [])
      modifies wire, transmitted, transmittedCount, mask
      ensures forall k, p :: 0 <= k < |sets| && 0 <= p < |Row(d, sets[k].keys)| ==>
                ShownAs(sets[k].id, p, Row(d, sets[k].keys)[p])
    {
      BuildRows(d, sets);
      forall i | 0 <= i < KEY_SETS
        ensures transmittedCount[i] <= ROW_SIZE
      {
        var id: KeyMode := i;
        assert Holds(id, RowFor(d, sets, id));
      }
      GreyKeys();
      forall k, p | 0 <= k < |sets| && 0 <= p < |Row(d, sets[k].keys)|
        ensures ShownAs(sets[k].id, p, Row(d, sets[k].keys)[p])
      {
        RowForOne(d, sets, k);
        assert Holds(sets[k].id, Row(d, sets[k].keys));
        PressDecodes(d, sets[k].keys, p, false);
        hide Row, SoftKeys, Offered;
      }
    }

    /** Position p of a row shows a label: that is what the record says, what a press of the key on the
      * wire decodes to, and what the bit at p enables or greys. */
    ghost predicate ShownAs(id: KeyMode, p: nat, k: Label)
      requires Valid() && p < ROW_SIZE
      reads wire[id], transmitted[id], transmittedCount, mask[id]
    {
      && p < transmittedCount[id]
      && transmitted[id][p] == k
      && (k == EMPTY ==> wire[id][p] == HOLE)
      && (k != EMPTY ==> 0 < wire[id][p].index <= |SoftKeys()| && Decode(wire[id][p].index, false) == k)
      && mask[id][p] == !(id < STEALABLE && k in {VIDEO_MODE, JOIN})
    }
  }
}
