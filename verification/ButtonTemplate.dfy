/**
 * The placement of the configured buttons on a phone's button template, and the template on the wire.
 *
 * The template is a row of slots; the phone model fills it with placeholders that say what may go where.
 * The driver takes the configured buttons in order and puts each on the first placeholder left.
 */
module ButtonTemplate {
  import opened Common

  // Placeholders, internal to the driver
  const MULTI := 0xF1
  const LINE := 0xF2
  const SPEEDDIAL := 0xF3
  const HINT := 0xF4
  const ABBRDIAL := 0xF5

  // Button types the phone knows
  const UNUSED := 0x00
  const SPEEDDIAL_BUTTON := 0x02
  const HOLD_BUTTON := 0x03
  const TRANSFER_BUTTON := 0x04
  const LINE_BUTTON := 0x09
  const FEATURE_BUTTON := 0x13
  const SERVICE_BUTTON := 0x14
  const BLF_BUTTON := 0x15
  const MULTIBLINK_BUTTON := 0x26
  const CONFERENCE_BUTTON := 0x7D
  const PICKUP_BUTTON := 0x80
  const MOBILITY_BUTTON := 0x81
  const DO_NOT_DISTURB_BUTTON := 0x82
  const CONF_LIST_BUTTON := 0x83
  const REMOVE_LAST_BUTTON := 0x84
  const QUALITY_REPORT_BUTTON := 0x85
  const CALLBACK_BUTTON := 0x86
  const OTHER_PICKUP_BUTTON := 0x87
  const VIDEO_MODE_BUTTON := 0x88
  const NEW_CALL_BUTTON := 0x89
  const END_CALL_BUTTON := 0x8A
  const HUNT_GROUP_BUTTON := 0x8B
  const PARKING_BUTTON := 0xC0
  const TEST_F_BUTTON := 0xC1
  const MESSAGES_BUTTON := 0xC2
  const DIRECTORY_BUTTON := 0xC3
  const TEST_I_BUTTON := 0xC4
  const APPLICATION_BUTTON := 0xC5
  const UNDEFINED := 0xFF

  type Button = nat

  /** The features that the driver tells apart; `Monitor` also stands for device state where that is compiled
    * in, `Other` for all that get the plain feature button. */
  datatype Feature =
    | HoldKey | TransferKey | Monitor | Multiblink | Dnd(options: bool) | ParkingLot | Mobility | Conference
    | Pickup | DoNotDisturb | ConfList | RemoveLastParticipant | HuntGroup | QualityReport | Callback | OtherPickup
    | VideoMode | NewCall | EndCall | TestF | TestI | TestG | TestH | TestJ | Other

  datatype Kind =
    | LineKey(name: string, found: bool)
    | EmptyKey
    | ServiceKey
    | SpeeddialKey(text: string, hint: string)
    | FeatureKey(text: string, feature: Feature)

  /** A configured button; instance 0 means that it is not placed. */
  datatype Config = Config(kind: Kind, instance: nat, hintActive: bool)

  datatype Slot = Slot(button: Button, instance: nat)

  /** `dynamic` and `park`: dynamic speeddials and native park are compiled in. */
  datatype Env = Env(dynamic: bool, park: bool, observer: bool, protocol: nat, plainBlink: bool)

  /** The next instance of each kind. */
  datatype Counters = Counters(line: nat, service: nat, dial: nat)

  const FIRST := Counters(1, 1, 1)

  predicate Placeholder(button: Button) {
    MULTI <= button <= ABBRDIAL
  }

  /** The configured button that takes a slot: it is not placed yet, and it has a name or a label if its
    * kind needs one. */
  predicate Takes(c: Config) {
    c.instance == 0 &&
    match c.kind
    case LineKey(name, _) => name != ""
    case EmptyKey => true
    case ServiceKey => true
    case SpeeddialKey(text, _) => text != ""
    case FeatureKey(text, _) => text != ""
  }

  /** The button type of a feature; a parking lot without native park leaves the placeholder as it is. */
  function FeatureButton(f: Feature, env: Env): Button {
    match f
    case HoldKey => HOLD_BUTTON
    case TransferKey => TRANSFER_BUTTON
    case Monitor => if env.protocol >= 15 && !env.plainBlink then MULTIBLINK_BUTTON else FEATURE_BUTTON
    case Multiblink => if env.protocol >= 15 && !env.plainBlink then MULTIBLINK_BUTTON else FEATURE_BUTTON
    case Dnd(options) => if !options && env.protocol >= 15 then MULTIBLINK_BUTTON else FEATURE_BUTTON
    case ParkingLot =>
      if !env.park then MULTI
      else if !env.observer then PARKING_BUTTON
      else if env.protocol > 15 then MULTIBLINK_BUTTON else FEATURE_BUTTON
    case Mobility => MOBILITY_BUTTON
    case Conference => CONFERENCE_BUTTON
    case Pickup => PICKUP_BUTTON
    case DoNotDisturb => DO_NOT_DISTURB_BUTTON
    case ConfList => CONF_LIST_BUTTON
    case RemoveLastParticipant => REMOVE_LAST_BUTTON
    case HuntGroup => HUNT_GROUP_BUTTON
    case QualityReport => QUALITY_REPORT_BUTTON
    case Callback => CALLBACK_BUTTON
    case OtherPickup => OTHER_PICKUP_BUTTON
    case VideoMode => VIDEO_MODE_BUTTON
    case NewCall => NEW_CALL_BUTTON
    case EndCall => END_CALL_BUTTON
    case TestF => TEST_F_BUTTON
    case TestI => TEST_I_BUTTON
    case TestG => MESSAGES_BUTTON
    case TestH => DIRECTORY_BUTTON
    case TestJ => APPLICATION_BUTTON
    case Other => FEATURE_BUTTON
  }

  datatype Filled = Filled(slot: Slot, config: Config, next: Counters)

  /** A configured button meets a placeholder: it is placed there with the next instance of its kind, or
    * the slot is wasted. */
  function Fill(slot: Slot, c: Config, n: Counters, env: Env): Filled {
    var misfit := Filled(slot.(button := UNUSED), c, n);
    match c.kind
    case LineKey(_, found) =>
      if slot.button != MULTI && slot.button != LINE then misfit
      else if found then Filled(Slot(LINE_BUTTON, n.line), c.(instance := n.line), n.(line := n.line + 1))
      else Filled(Slot(UNUSED, 0), c.(instance := 0), n)
    case EmptyKey =>
      if slot.button == MULTI || slot.button == LINE || slot.button == SPEEDDIAL then
        Filled(Slot(UNUSED, 0), c.(instance := 0), n)
      else
        misfit
    case ServiceKey =>
      if slot.button != MULTI then misfit
      else Filled(Slot(SERVICE_BUTTON, n.service), c.(instance := n.service), n.(service := n.service + 1))
    case SpeeddialKey(_, hint) =>
      if slot.button == MULTI && hint != "" then
        if env.dynamic && env.protocol >= 15 then
          Filled(Slot(BLF_BUTTON, n.dial), c.(instance := n.dial, hintActive := true), n.(dial := n.dial + 1))
        else
          Filled(Slot(LINE_BUTTON, n.line), c.(instance := n.line, hintActive := true), n.(line := n.line + 1))
      else if slot.button == MULTI || slot.button == SPEEDDIAL || slot.button == ABBRDIAL then
        Filled(Slot(SPEEDDIAL_BUTTON, n.dial), c.(instance := n.dial, hintActive := false), n.(dial := n.dial + 1))
      else
        misfit
    case FeatureKey(_, f) =>
      if slot.button != MULTI then misfit
      else Filled(Slot(FeatureButton(f, env), n.dial), c.(instance := n.dial), n.(dial := n.dial + 1))
  }

  // ---------------------------------------------------------------------------------------------
  // Button by button: what the nested loops do

  function FirstFree(slots: seq<Slot>): (i: nat)
    ensures i <= |slots|
    ensures i < |slots| ==> Placeholder(slots[i].button)
    ensures forall k :: 0 <= k < i ==> !Placeholder(slots[k].button)
  {
    if slots == [] || Placeholder(slots[0].button) then 0 else 1 + FirstFree(slots[1..])
  }

  datatype Template = Template(slots: seq<Slot>, configs: seq<Config>, next: Counters)

  function PlaceOne(slots: seq<Slot>, c: Config, n: Counters, env: Env): (seq<Slot>, Config, Counters) {
    var i := FirstFree(slots);
    if Takes(c) && i < |slots| then
      var f := Fill(slots[i], c, n, env);
      (slots[i := f.slot], f.config, f.next)
    else
      (slots, c, n)
  }

  function PlaceAll(slots: seq<Slot>, configs: seq<Config>, n: Counters, env: Env): Template
    decreases |configs|
  {
    if configs == [] then Template(slots, [], n)
    else
      var (slots1, c, n1) := PlaceOne(slots, configs[0], n, env);
      var rest := PlaceAll(slots1, configs[1..], n1, env);
      rest.(configs := [c] + rest.configs)
  }

  // ---------------------------------------------------------------------------------------------
  // Slot by slot: the zip of the slots with the buttons that take one

  function Zip(slots: seq<Slot>, configs: seq<Config>, n: Counters, env: Env): Template
    decreases |slots| + |configs|
  {
    if slots == [] || configs == [] then Template(slots, configs, n)
    else if !Placeholder(slots[0].button) then
      var rest := Zip(slots[1..], configs, n, env);
      rest.(slots := [slots[0]] + rest.slots)
    else if !Takes(configs[0]) then
      var rest := Zip(slots, configs[1..], n, env);
      rest.(configs := [configs[0]] + rest.configs)
    else
      var f := Fill(slots[0], configs[0], n, env);
      var rest := Zip(slots[1..], configs[1..], f.next, env);
      rest.(slots := [f.slot] + rest.slots, configs := [f.config] + rest.configs)
  }

  /** Without native park a parking lot button leaves its slot open. */
  predicate LeavesOpen(c: Config, env: Env) {
    c.kind.FeatureKey? && c.kind.feature == ParkingLot && !env.park
  }

  lemma FillSettles(slot: Slot, c: Config, n: Counters, env: Env)
    requires Placeholder(slot.button)
    ensures Placeholder(Fill(slot, c, n, env).slot.button) <==> slot.button == MULTI && LeavesOpen(c, env)
    ensures slot.button == MULTI && LeavesOpen(c, env) ==>
              Fill(slot, c, n, env) == Filled(Slot(MULTI, n.dial), c.(instance := n.dial), n.(dial := n.dial + 1))
  {
  }

  lemma FirstFreeSkips(slots: seq<Slot>)
    requires slots != [] && !Placeholder(slots[0].button)
    ensures FirstFree(slots) == 1 + FirstFree(slots[1..])
  {
  }

  /** A first slot that is no placeholder takes no part in the placement. */
  lemma {:induction false} PlaceSkips(first: Slot, slots: seq<Slot>, configs: seq<Config>, n: Counters, env: Env)
    requires !Placeholder(first.button)
    ensures
      var rest := PlaceAll(slots, configs, n, env);
      PlaceAll([first] + slots, configs, n, env) == rest.(slots := [first] + rest.slots)
    decreases |configs|
  {
    if configs != [] {
      var s := [first] + slots;
      assert s[1..] == slots;
      FirstFreeSkips(s);
      var i := FirstFree(slots);
      if i < |slots| {
        var f := Fill(slots[i], configs[0], n, env);
        assert s[1 + i := f.slot] == [first] + slots[i := f.slot];
      }
      var (slots1, c, n1) := PlaceOne(slots, configs[0], n, env);
      assert PlaceOne(s, configs[0], n, env) == ([first] + slots1, c, n1);
      PlaceSkips(first, slots1, configs[1..], n1, env);
    }
  }

  lemma {:induction false} PlaceNothing(configs: seq<Config>, n: Counters, env: Env)
    ensures PlaceAll([], configs, n, env) == Template([], configs, n)
    decreases |configs|
  {
    if configs != [] {
      PlaceNothing(configs[1..], n, env);
      assert [configs[0]] + configs[1..] == configs;
    }
  }

  /** How many of the slots are placeholders. */
  function Free(slots: seq<Slot>): nat {
    if slots == [] then 0 else (if Placeholder(slots[0].button) then 1 else 0) + Free(slots[1..])
  }

  /** How many of the buttons take a slot. */
  function Wanting(configs: seq<Config>): nat {
    if configs == [] then 0 else (if Takes(configs[0]) then 1 else 0) + Wanting(configs[1..])
  }

  /** Slot i is the placeholder of the same rank, counted from the left, as button k has among the buttons
    * that take one. */
  predicate Paired(slots: seq<Slot>, configs: seq<Config>, i: nat, k: nat) {
    && i < |slots| && Placeholder(slots[i].button)
    && k < |configs| && Takes(configs[k])
    && Free(slots[..i]) == Wanting(configs[..k])
  }

  lemma TailOfPrefix<T>(s: seq<T>, i: nat)
    requires 0 < i <= |s|
    ensures s[..i][0] == s[0] && s[..i][1..] == s[1..][..i - 1]
  {
  }

  /** No button that leaves its slot open is followed by another one that takes a slot. */
  ghost predicate SharesNothing(slots: seq<Slot>, configs: seq<Config>, env: Env) {
    forall i: nat, k: nat :: Paired(slots, configs, i, k) && slots[i].button == MULTI && LeavesOpen(configs[k], env) ==>
      Wanting(configs[k + 1..]) == 0
  }

  /** The same, found by going through slots and buttons. */
  predicate NoneShared(slots: seq<Slot>, configs: seq<Config>, env: Env)
    decreases |slots| + |configs|
  {
    if slots == [] || configs == [] then true
    else if !Placeholder(slots[0].button) then NoneShared(slots[1..], configs, env)
    else if !Takes(configs[0]) then NoneShared(slots, configs[1..], env)
    else if slots[0].button == MULTI && LeavesOpen(configs[0], env) then Wanting(configs[1..]) == 0
    else NoneShared(slots[1..], configs[1..], env)
  }

  lemma PairedTails(slots: seq<Slot>, configs: seq<Config>, i: nat, k: nat)
    requires slots != [] && configs != []
    ensures !Placeholder(slots[0].button) && i > 0 ==>
              (Paired(slots, configs, i, k) <==> Paired(slots[1..], configs, i - 1, k))
    ensures Placeholder(slots[0].button) && !Takes(configs[0]) && k > 0 ==>
              (Paired(slots, configs, i, k) <==> Paired(slots, configs[1..], i, k - 1))
    ensures Placeholder(slots[0].button) && Takes(configs[0]) && i > 0 && k > 0 ==>
              (Paired(slots, configs, i, k) <==> Paired(slots[1..], configs[1..], i - 1, k - 1))
    ensures Placeholder(slots[0].button) && Takes(configs[0]) && Paired(slots, configs, i, k) ==> (i == 0 <==> k == 0)
  {
    if 0 < i <= |slots| { TailOfPrefix(slots, i); }
    if 0 < k <= |configs| { TailOfPrefix(configs, k); }
  }

  lemma {:induction false} WantingAfter(configs: seq<Config>, k: nat)
    requires k < |configs| && Takes(configs[k])
    ensures Wanting(configs) > 0
    decreases k
  {
    if k > 0 { WantingAfter(configs[1..], k - 1); }
  }

  lemma {:induction false} SharedIsFound(slots: seq<Slot>, configs: seq<Config>, env: Env)
    ensures NoneShared(slots, configs, env) <==> SharesNothing(slots, configs, env)
    decreases |slots| + |configs|
  {
    if slots != [] && configs != [] {
      if !Placeholder(slots[0].button) {
        SharedIsFound(slots[1..], configs, env);
        SkipSlot(slots, configs, env);
      } else if !Takes(configs[0]) {
        SharedIsFound(slots, configs[1..], env);
        SkipConfig(slots, configs, env);
      } else {
        SharedIsFound(slots[1..], configs[1..], env);
        TakeBoth(slots, configs, env);
      }
    }
  }

  lemma SkipSlot(slots: seq<Slot>, configs: seq<Config>, env: Env)
    requires slots != [] && configs != [] && !Placeholder(slots[0].button)
    ensures SharesNothing(slots, configs, env) <==> SharesNothing(slots[1..], configs, env)
  {
    forall i: nat, k: nat | Paired(slots, configs, i, k)
      ensures i > 0 && Paired(slots[1..], configs, i - 1, k)
    {
      PairedTails(slots, configs, i, k);
    }
    forall i: nat, k: nat | Paired(slots[1..], configs, i, k)
      ensures Paired(slots, configs, i + 1, k) && slots[i + 1] == slots[1..][i]
    {
      PairedTails(slots, configs, i + 1, k);
    }
  }

  lemma SkipConfig(slots: seq<Slot>, configs: seq<Config>, env: Env)
    requires slots != [] && configs != [] && Placeholder(slots[0].button) && !Takes(configs[0])
    ensures SharesNothing(slots, configs, env) <==> SharesNothing(slots, configs[1..], env)
  {
    forall i: nat, k: nat | Paired(slots, configs, i, k)
      ensures k > 0 && Paired(slots, configs[1..], i, k - 1) && configs[1..][k..] == configs[k + 1..]
    {
      PairedTails(slots, configs, i, k);
    }
    forall i: nat, k: nat | Paired(slots, configs[1..], i, k)
      ensures Paired(slots, configs, i, k + 1) && configs[1..][k + 1..] == configs[k + 2..]
    {
      PairedTails(slots, configs, i, k + 1);
    }
  }

  lemma TakeBoth(slots: seq<Slot>, configs: seq<Config>, env: Env)
    requires slots != [] && configs != [] && Placeholder(slots[0].button) && Takes(configs[0])
    ensures SharesNothing(slots, configs, env) <==>
            (slots[0].button == MULTI && LeavesOpen(configs[0], env) ==> Wanting(configs[1..]) == 0)
            && SharesNothing(slots[1..], configs[1..], env)
    ensures Wanting(configs[1..]) == 0 ==> SharesNothing(slots[1..], configs[1..], env)
  {
    assert Paired(slots, configs, 0, 0);
    forall i: nat, k: nat | Paired(slots, configs, i, k)
      ensures (i == 0 && k == 0) || (i > 0 && k > 0 && Paired(slots[1..], configs[1..], i - 1, k - 1)
                                   && configs[1..][k..] == configs[k + 1..])
    {
      PairedTails(slots, configs, i, k);
    }
    forall i: nat, k: nat | Paired(slots[1..], configs[1..], i, k)
      ensures Paired(slots, configs, i + 1, k + 1) && configs[1..][k + 1..] == configs[k + 2..]
      ensures Wanting(configs[1..]) > 0
    {
      PairedTails(slots, configs, i + 1, k + 1);
      WantingAfter(configs[1..], k);
    }
  }

  lemma {:induction false} NothingWanted(slots: seq<Slot>, configs: seq<Config>, n: Counters, env: Env)
    requires Wanting(configs) == 0
    ensures PlaceAll(slots, configs, n, env) == Template(slots, configs, n)
    ensures Zip(slots, configs, n, env) == Template(slots, configs, n)
    decreases |slots| + |configs|
  {
    if configs != [] {
      assert [configs[0]] + configs[1..] == configs;
      NothingWanted(slots, configs[1..], n, env);
      if slots != [] {
        assert [slots[0]] + slots[1..] == slots;
        NothingWanted(slots[1..], configs, n, env);
      }
    }
  }

  /** An open slot does not stay as it is while there are buttons that take one. */
  lemma {:induction false} OpenSlotIsTaken(slots: seq<Slot>, configs: seq<Config>, n: Counters, env: Env)
    requires slots != [] && slots[0].button == MULTI && Wanting(configs) > 0
    ensures
      var t := PlaceAll(slots, configs, n, env);
      |t.slots| > 0 && (t.slots[0].button == MULTI ==> t.slots[0].instance >= n.dial)
    decreases |configs|
  {
    if !Takes(configs[0]) {
      OpenSlotIsTaken(slots, configs[1..], n, env);
    } else {
      var f := Fill(slots[0], configs[0], n, env);
      FillSettles(slots[0], configs[0], n, env);
      var slots1 := slots[0 := f.slot];
      assert slots1 == [f.slot] + slots[1..];
      if !Placeholder(f.slot.button) {
        PlaceSkips(f.slot, slots[1..], configs[1..], f.next, env);
      } else if Wanting(configs[1..]) > 0 {
        OpenSlotIsTaken(slots1, configs[1..], f.next, env);
      } else {
        NothingWanted(slots1, configs[1..], f.next, env);
      }
    }
  }

  /** Taking the buttons one by one and searching a slot for each is the zip of the placeholders, left to
    * right, with the buttons that take one, if and only if no button shares the slot of one before it. */
  lemma PlacementIsZip(slots: seq<Slot>, configs: seq<Config>, n: Counters, env: Env)
    ensures PlaceAll(slots, configs, n, env) == Zip(slots, configs, n, env) <==> SharesNothing(slots, configs, env)
  {
    SharedIsFound(slots, configs, env);
    ZipUnlessShared(slots, configs, n, env);
  }

  lemma {:induction false} ZipUnlessShared(slots: seq<Slot>, configs: seq<Config>, n: Counters, env: Env)
    ensures PlaceAll(slots, configs, n, env) == Zip(slots, configs, n, env) <==> NoneShared(slots, configs, env)
    decreases |slots| + |configs|
  {
    if slots == [] {
      PlaceNothing(configs, n, env);
    } else if configs != [] {
      if !Placeholder(slots[0].button) {
        assert [slots[0]] + slots[1..] == slots;
        PlaceSkips(slots[0], slots[1..], configs, n, env);
        ZipUnlessShared(slots[1..], configs, n, env);
        SameTails(slots[0], PlaceAll(slots[1..], configs, n, env), Zip(slots[1..], configs, n, env));
      } else if !Takes(configs[0]) {
        ZipUnlessShared(slots, configs[1..], n, env);
        SameHeads(configs[0], PlaceAll(slots, configs[1..], n, env), Zip(slots, configs[1..], n, env));
      } else {
        TakeFirst(slots, configs, n, env);
        if !(slots[0].button == MULTI && LeavesOpen(configs[0], env)) {
          var f := Fill(slots[0], configs[0], n, env);
          ZipUnlessShared(slots[1..], configs[1..], f.next, env);
        }
      }
    }
  }

  lemma SameTails(slot: Slot, a: Template, b: Template)
    ensures a.(slots := [slot] + a.slots) == b.(slots := [slot] + b.slots) <==> a == b
  {
    assert ([slot] + a.slots)[1..] == a.slots && ([slot] + b.slots)[1..] == b.slots;
  }

  lemma SameHeads(config: Config, a: Template, b: Template)
    ensures a.(configs := [config] + a.configs) == b.(configs := [config] + b.configs) <==> a == b
  {
    assert ([config] + a.configs)[1..] == a.configs && ([config] + b.configs)[1..] == b.configs;
  }

  /** The first button meets the first slot. */
  lemma TakeFirst(slots: seq<Slot>, configs: seq<Config>, n: Counters, env: Env)
    requires slots != [] && configs != [] && Placeholder(slots[0].button) && Takes(configs[0])
    ensures
      var f := Fill(slots[0], configs[0], n, env);
      PlaceAll(slots, configs, n, env) == Zip(slots, configs, n, env) <==>
        if slots[0].button == MULTI && LeavesOpen(configs[0], env) then Wanting(configs[1..]) == 0
        else PlaceAll(slots[1..], configs[1..], f.next, env) == Zip(slots[1..], configs[1..], f.next, env)
  {
    var f := Fill(slots[0], configs[0], n, env);
    FillSettles(slots[0], configs[0], n, env);
    var slots1 := slots[0 := f.slot];
    assert slots1 == [f.slot] + slots[1..];
    var placed := PlaceAll(slots1, configs[1..], f.next, env);
    var zipped := Zip(slots[1..], configs[1..], f.next, env);
    assert PlaceAll(slots, configs, n, env) == placed.(configs := [f.config] + placed.configs);
    assert Zip(slots, configs, n, env) == zipped.(slots := [f.slot] + zipped.slots, configs := [f.config] + zipped.configs);
    SameHeads(f.config, placed, zipped.(slots := [f.slot] + zipped.slots));
    if slots[0].button == MULTI && LeavesOpen(configs[0], env) {
      if Wanting(configs[1..]) == 0 {
        NothingWanted(slots1, configs[1..], f.next, env);
        NothingWanted(slots[1..], configs[1..], f.next, env);
      } else {
        OpenSlotIsTaken(slots1, configs[1..], f.next, env);
        assert ([f.slot] + zipped.slots)[0] == f.slot;
      }
    } else {
      PlaceSkips(f.slot, slots[1..], configs[1..], f.next, env);
      SameTails(f.slot, PlaceAll(slots[1..], configs[1..], f.next, env), zipped);
    }
  }

  // ---------------------------------------------------------------------------------------------
  // Which button lands where

  /** A placeholder on which a button of this kind gets an instance. */
  predicate Suits(button: Button, kind: Kind) {
    match kind
    case LineKey(_, found) => found && (button == MULTI || button == LINE)
    case EmptyKey => false
    case ServiceKey => button == MULTI
    case SpeeddialKey(_, _) => button == MULTI || button == SPEEDDIAL || button == ABBRDIAL
    case FeatureKey(_, _) => button == MULTI
  }

  /** What the phone is to show for a button placed on a placeholder that suits it. */
  function Shown(button: Button, kind: Kind, env: Env): Button {
    match kind
    case LineKey(_, _) => LINE_BUTTON
    case EmptyKey => UNUSED
    case ServiceKey => SERVICE_BUTTON
    case SpeeddialKey(_, hint) =>
      if hint == "" || button != MULTI then SPEEDDIAL_BUTTON
      else if env.dynamic && env.protocol >= 15 then BLF_BUTTON
      else LINE_BUTTON
    case FeatureKey(_, f) => FeatureButton(f, env)
  }

  predicate Positive(n: Counters) {
    n.line > 0 && n.service > 0 && n.dial > 0
  }

  lemma ZipShape(slots: seq<Slot>, configs: seq<Config>, n: Counters, env: Env)
    ensures |Zip(slots, configs, n, env).slots| == |slots| && |Zip(slots, configs, n, env).configs| == |configs|
    decreases |slots| + |configs|
  {
    if slots != [] && configs != [] {
      if !Placeholder(slots[0].button) {
        ZipShape(slots[1..], configs, n, env);
      } else if !Takes(configs[0]) {
        ZipShape(slots, configs[1..], n, env);
      } else {
        ZipShape(slots[1..], configs[1..], Fill(slots[0], configs[0], n, env).next, env);
      }
    }
  }

  /** The j-th button that takes a slot gets the j-th placeholder: with one instance for both if the
    * placeholder suits it, otherwise the slot is wasted and the button stays unplaced. */
  lemma {:induction false} PlacedByRank(slots: seq<Slot>, configs: seq<Config>, n: Counters, env: Env, i: nat, k: nat)
    requires Paired(slots, configs, i, k) && Positive(n)
    ensures
      var t := Zip(slots, configs, n, env);
      && |t.slots| == |slots| && |t.configs| == |configs|
      && t.configs[k].kind == configs[k].kind
      && (Suits(slots[i].button, configs[k].kind) ==>
            t.slots[i] == Slot(Shown(slots[i].button, configs[k].kind, env), t.configs[k].instance)
            && t.configs[k].instance > 0)
      && (!Suits(slots[i].button, configs[k].kind) ==> t.slots[i].button == UNUSED && t.configs[k].instance == 0)
    decreases |slots| + |configs|
  {
    ZipShape(slots, configs, n, env);
    if i > 0 { TailOfPrefix(slots, i); }
    if k > 0 { TailOfPrefix(configs, k); }
    if !Placeholder(slots[0].button) {
      PlacedByRank(slots[1..], configs, n, env, i - 1, k);
    } else if !Takes(configs[0]) {
      PlacedByRank(slots, configs[1..], n, env, i, k - 1);
    } else if i > 0 && k > 0 {
      PlacedByRank(slots[1..], configs[1..], Fill(slots[0], configs[0], n, env).next, env, i - 1, k - 1);
    }
  }

  /** Everything else is left alone: slots that are no placeholders or come after the last button, and
    * buttons that take no slot or come after the last placeholder. */
  lemma {:induction false} RestUntouched(slots: seq<Slot>, configs: seq<Config>, n: Counters, env: Env)
    ensures
      var t := Zip(slots, configs, n, env);
      && |t.slots| == |slots| && |t.configs| == |configs|
      && (forall i :: 0 <= i < |slots| && (!Placeholder(slots[i].button) || Free(slots[..i]) >= Wanting(configs)) ==>
            t.slots[i] == slots[i])
      && (forall k :: 0 <= k < |configs| && (!Takes(configs[k]) || Wanting(configs[..k]) >= Free(slots)) ==>
            t.configs[k] == configs[k])
    decreases |slots| + |configs|
  {
    ZipShape(slots, configs, n, env);
    if slots != [] && configs != [] {
      forall i | 0 < i <= |slots| ensures slots[..i][0] == slots[0] && slots[..i][1..] == slots[1..][..i - 1] {
        TailOfPrefix(slots, i);
      }
      forall k | 0 < k <= |configs| ensures configs[..k][0] == configs[0] && configs[..k][1..] == configs[1..][..k - 1] {
        TailOfPrefix(configs, k);
      }
      if !Placeholder(slots[0].button) {
        RestUntouched(slots[1..], configs, n, env);
      } else if !Takes(configs[0]) {
        RestUntouched(slots, configs[1..], n, env);
      } else {
        RestUntouched(slots[1..], configs[1..], Fill(slots[0], configs[0], n, env).next, env);
      }
    }
  }

  // ---------------------------------------------------------------------------------------------
  // Instances

  datatype Family = Lines | Services | Dials

  /** The family whose instances a placed button is numbered in. */
  function FamilyOf(c: Config, env: Env): Family {
    match c.kind
    case LineKey(_, _) => Lines
    case EmptyKey => Lines
    case ServiceKey => Services
    case SpeeddialKey(_, _) => if c.hintActive && !(env.dynamic && env.protocol >= 15) then Lines else Dials
    case FeatureKey(_, _) => Dials
  }

  function Next(n: Counters, f: Family): nat {
    match f
    case Lines => n.line
    case Services => n.service
    case Dials => n.dial
  }

  /** How many of the buttons are placed with an instance of the family. */
  function Numbered(configs: seq<Config>, f: Family, env: Env): nat {
    if configs == [] then 0
    else (if configs[0].instance > 0 && FamilyOf(configs[0], env) == f then 1 else 0) + Numbered(configs[1..], f, env)
  }

  predicate Unplaced(configs: seq<Config>) {
    forall k :: 0 <= k < |configs| ==> configs[k].instance == 0
  }

  lemma FillNumbers(slot: Slot, c: Config, n: Counters, env: Env, f: Family)
    requires c.instance == 0 && Positive(n)
    ensures
      var r := Fill(slot, c, n, env);
      && Positive(r.next) && r.config.kind == c.kind
      && Next(r.next, f) == Next(n, f) + (if r.config.instance > 0 && FamilyOf(r.config, env) == f then 1 else 0)
      && (r.config.instance > 0 && FamilyOf(r.config, env) == f ==> r.config.instance == Next(n, f))
  {
  }

  /** In every family the instances of the placed buttons are consecutive, in the order of the buttons. */
  lemma {:induction false} InstancesRun(slots: seq<Slot>, configs: seq<Config>, n: Counters, env: Env, f: Family)
    requires Unplaced(configs) && Positive(n)
    ensures
      var t := Zip(slots, configs, n, env);
      && Next(t.next, f) == Next(n, f) + Numbered(t.configs, f, env)
      && (forall k :: 0 <= k < |t.configs| && t.configs[k].instance > 0 && FamilyOf(t.configs[k], env) == f ==>
            t.configs[k].instance == Next(n, f) + Numbered(t.configs[..k], f, env))
    decreases |slots| + |configs|
  {
    var t := Zip(slots, configs, n, env);
    if slots == [] || configs == [] {
      NoneNumbered(t.configs, f, env);
    } else if !Placeholder(slots[0].button) {
      InstancesRun(slots[1..], configs, n, env, f);
    } else {
      forall k | 0 < k <= |t.configs|
        ensures t.configs[..k][0] == t.configs[0] && t.configs[..k][1..] == t.configs[1..][..k - 1]
      {
        TailOfPrefix(t.configs, k);
      }
      if !Takes(configs[0]) {
        InstancesRun(slots, configs[1..], n, env, f);
      } else {
        var r := Fill(slots[0], configs[0], n, env);
        FillNumbers(slots[0], configs[0], n, env, f);
        InstancesRun(slots[1..], configs[1..], r.next, env, f);
      }
    }
  }

  lemma NoneNumbered(configs: seq<Config>, f: Family, env: Env)
    requires Unplaced(configs)
    ensures Numbered(configs, f, env) == 0
  {
  }

  /** A longer list with a placed button at its end numbers strictly more. */
  lemma {:induction false} NumberedGrows(configs: seq<Config>, j: nat, k: nat, f: Family, env: Env)
    requires j < k <= |configs| && configs[j].instance > 0 && FamilyOf(configs[j], env) == f
    ensures Numbered(configs[..j], f, env) < Numbered(configs[..k], f, env)
    decreases |configs|
  {
    TailOfPrefix(configs, k);
    if j > 0 {
      TailOfPrefix(configs, j);
      NumberedGrows(configs[1..], j - 1, k - 1, f, env);
    }
  }

  /** No two placed buttons of a family share an instance. */
  lemma InstancesDiffer(slots: seq<Slot>, configs: seq<Config>, env: Env, j: nat, k: nat)
    requires Unplaced(configs) && j < k < |configs|
    requires |Zip(slots, configs, FIRST, env).configs| == |configs|
    requires
      var t := Zip(slots, configs, FIRST, env);
      t.configs[j].instance > 0 && t.configs[k].instance > 0 && FamilyOf(t.configs[j], env) == FamilyOf(t.configs[k], env)
    ensures
      var t := Zip(slots, configs, FIRST, env);
      t.configs[j].instance < t.configs[k].instance
  {
    var t := Zip(slots, configs, FIRST, env);
    var f := FamilyOf(t.configs[j], env);
    InstancesRun(slots, configs, FIRST, env, f);
    NumberedGrows(t.configs, j, k, f, env);
  }

  // ---------------------------------------------------------------------------------------------
  // Pressing a feature button

  /** The first feature button with the pressed instance, as the feature handler looks it up. */
  function FindFeature(configs: seq<Config>, instance: nat): (k: nat)
    ensures k <= |configs|
    ensures k < |configs| ==> configs[k].instance == instance && configs[k].kind.FeatureKey?
    ensures forall j :: 0 <= j < k ==> !(configs[j].instance == instance && configs[j].kind.FeatureKey?)
  {
    if configs == [] then 0
    else if configs[0].instance == instance && configs[0].kind.FeatureKey? then 0
    else 1 + FindFeature(configs[1..], instance)
  }

  lemma ZipKinds(slots: seq<Slot>, configs: seq<Config>, n: Counters, env: Env)
    ensures |Zip(slots, configs, n, env).configs| == |configs|
    ensures forall k :: 0 <= k < |configs| ==> Zip(slots, configs, n, env).configs[k].kind == configs[k].kind
    decreases |slots| + |configs|
  {
    if slots != [] && configs != [] {
      if !Placeholder(slots[0].button) {
        ZipKinds(slots[1..], configs, n, env);
      } else if !Takes(configs[0]) {
        ZipKinds(slots, configs[1..], n, env);
      } else {
        ZipKinds(slots[1..], configs[1..], Fill(slots[0], configs[0], n, env).next, env);
      }
    }
  }

  /** On a fresh device the feature button shown on a slot is found again by the instance that the phone
    * sends when that slot is pressed. */
  lemma FeaturePressFindsItsButton(slots: seq<Slot>, configs: seq<Config>, env: Env, i: nat, k: nat)
    requires Unplaced(configs) && SharesNothing(slots, configs, env)
    requires Paired(slots, configs, i, k) && configs[k].kind.FeatureKey? && slots[i].button == MULTI
    ensures
      var t := PlaceAll(slots, configs, FIRST, env);
      && |t.slots| == |slots|
      && t.slots[i].button == FeatureButton(configs[k].kind.feature, env)
      && FindFeature(t.configs, t.slots[i].instance) == k
  {
    PlacementIsZip(slots, configs, FIRST, env);
    PlacedByRank(slots, configs, FIRST, env, i, k);
    ZipKinds(slots, configs, FIRST, env);
    var t := Zip(slots, configs, FIRST, env);
    var j := FindFeature(t.configs, t.slots[i].instance);
    if j < k {
      InstancesDiffer(slots, configs, env, j, k);
    }
  }

  /** Without native park a parking lot button leaves its placeholder open, and the next button takes the
    * same slot: two configured buttons end up with one slot between them. */
  lemma ParkingLotSharesItsSlot()
    ensures
      var env := Env(true, false, true, 20, false);
      var configs := [Config(FeatureKey("park", ParkingLot), 0, false), Config(FeatureKey("dnd", Other), 0, false)];
      var t := PlaceAll([Slot(MULTI, 0)], configs, FIRST, env);
      t.slots == [Slot(FEATURE_BUTTON, 2)] && t.configs[0].instance == 1 && t.configs[1].instance == 2
  {
    var env := Env(true, false, true, 20, false);
    var a, b := Config(FeatureKey("park", ParkingLot), 0, false), Config(FeatureKey("dnd", Other), 0, false);
    assert [Slot(MULTI, 0)][0 := Slot(MULTI, 1)] == [Slot(MULTI, 1)];
    assert [Slot(MULTI, 1)][0 := Slot(FEATURE_BUTTON, 2)] == [Slot(FEATURE_BUTTON, 2)];
    var one := PlaceOne([Slot(MULTI, 0)], a, FIRST, env);
    assert one == ([Slot(MULTI, 1)], a.(instance := 1), Counters(1, 1, 2));
    var two := PlaceOne([Slot(MULTI, 1)], b, Counters(1, 1, 2), env);
    assert two == ([Slot(FEATURE_BUTTON, 2)], b.(instance := 2), Counters(1, 1, 3));
    assert [a, b][1..] == [b] && [b][1..] == [];
    assert PlaceAll([Slot(MULTI, 1)], [b], Counters(1, 1, 2), env).configs == [b.(instance := 2)];
  }

  // ---------------------------------------------------------------------------------------------
  // The template on the wire

  /** Placeholders nobody took become unused, but for those that only a line could take. */
  function Clear(slot: Slot): Slot {
    if slot.button == MULTI || slot.button == ABBRDIAL || slot.button == SPEEDDIAL || slot.button == HINT then
      slot.(button := UNUSED)
    else
      slot
  }

  function Wire(slot: Slot): Button {
    if slot.button == HINT || slot.button == LINE then
      if slot.instance == 0 then UNDEFINED else LINE_BUTTON
    else if slot.button == MULTI || slot.button == UNUSED then UNDEFINED
    else slot.button
  }

  /** The row as the phone receives it. */
  function Sent(slots: seq<Slot>): (row: seq<Slot>)
    ensures |row| == |slots|
    ensures forall i :: 0 <= i < |slots| ==> row[i] == Slot(Wire(Clear(slots[i])), slots[i].instance)
  {
    if slots == [] then [] else [Slot(Wire(Clear(slots[0])), slots[0].instance)] + Sent(slots[1..])
  }

  /** No placeholder reaches the phone, whatever the template, and a slot is shown as undefined exactly if
    * nothing was placed there. */
  lemma NoPlaceholderIsSent(slots: seq<Slot>, i: nat)
    requires i < |slots|
    ensures !Placeholder(Sent(slots)[i].button)
    ensures Sent(slots)[i].button == UNDEFINED <==>
              || slots[i].button == UNUSED
              || slots[i].button == UNDEFINED
              || (Placeholder(slots[i].button) && (slots[i].button == LINE ==> slots[i].instance == 0))
    ensures !Placeholder(slots[i].button) && slots[i].button != UNUSED ==> Sent(slots)[i].button == slots[i].button
  {
  }

  // ---------------------------------------------------------------------------------------------
  // In place

  /** The nested loops: every button searches the template from the left. */
  method PlaceButtons(btn: array<Slot>, buttons: array<Config>, env: Env)
    requires btn as object != buttons as object
    modifies btn, buttons
    ensures
      var t := PlaceAll(old(btn[..]), old(buttons[..]), FIRST, env);
      btn[..] == t.slots && buttons[..] == t.configs
  {
    hide PlaceOne;
    var n := FIRST;
    ghost var goal := PlaceAll(btn[..], buttons[..], FIRST, env);
    assert buttons[..][0..] == buttons[..];
    for k := 0 to buttons.Length
      invariant buttons[k..] == old(buttons[k..])
      invariant
        var rest := PlaceAll(btn[..], buttons[k..], n, env);
        goal == rest.(configs := buttons[..k] + rest.configs)
    {
      ghost var tail, was := buttons[k + 1..], buttons[..k];
      ghost var one := PlaceOne(btn[..], buttons[k], n, env);
      assert buttons[k..][0] == buttons[k] && buttons[k..][1..] == tail;
      n := PlaceButton(btn, buttons, k, n, env);
      assert buttons[k + 1..] == tail;
      assert buttons[..k + 1] == was + [one.1];
    }
    assert buttons[buttons.Length..] == [] && buttons[..buttons.Length] == buttons[..];
  }

  /** Placeholders nobody took are set to unused. */
  method ClearUnused(btn: array<Slot>)
    modifies btn
    ensures forall i :: 0 <= i < btn.Length ==> btn[i] == Clear(old(btn[i]))
  {
    for i := 0 to btn.Length
      invariant forall j :: 0 <= j < i ==> btn[j] == Clear(old(btn[j]))
      invariant forall j :: i <= j < btn.Length ==> btn[j] == old(btn[j])
    {
      if btn[i].button == MULTI || btn[i].button == ABBRDIAL || btn[i].button == SPEEDDIAL || btn[i].button == HINT {
        btn[i] := btn[i].(button := UNUSED);
      }
    }
  }

  method MakeButtonTemplate(btn: array<Slot>, buttons: array<Config>, env: Env)
    requires btn as object != buttons as object
    modifies btn, buttons
    ensures
      var t := PlaceAll(old(btn[..]), old(buttons[..]), FIRST, env);
      && buttons[..] == t.configs
      && |t.slots| == btn.Length
      && (forall i :: 0 <= i < btn.Length ==> btn[i] == Clear(t.slots[i]))
  {
    hide PlaceAll, Clear;
    PlaceButtons(btn, buttons, env);
    ghost var placed, configs := btn[..], buttons[..];
    ClearUnused(btn);
    assert buttons[..] == configs;
  }

  /** The inner loop for one button. */
  method PlaceButton(btn: array<Slot>, buttons: array<Config>, k: nat, n: Counters, env: Env) returns (next: Counters)
    requires k < buttons.Length && btn as object != buttons as object
    modifies btn, buttons
    ensures (btn[..], buttons[k], next) == PlaceOne(old(btn[..]), old(buttons[k]), n, env)
    ensures forall j :: 0 <= j < buttons.Length && j != k ==> buttons[j] == old(buttons[j])
  {
    next := n;
    var c := buttons[k];
    if c.instance > 0 { return; }
    var i := 0;
    while i < btn.Length
      invariant 0 <= i <= btn.Length
      invariant forall j :: 0 <= j < i ==> !Takes(c) || !Placeholder(btn[j].button)
      invariant btn[..] == old(btn[..]) && buttons[k] == c && next == n
      invariant forall j :: 0 <= j < buttons.Length ==> buttons[j] == old(buttons[j])
    {
      if Placeholder(btn[i].button) && Takes(c) {
        assert FirstFree(btn[..]) == i;
        var f := Fill(btn[i], c, n, env);
        btn[i] := f.slot;
        buttons[k] := f.config;
        return f.next;
      }
      i := i + 1;
    }
  }

  /** The message: the row of slots, and how many of them are announced. */
  method SendTemplate(btn: array<Slot>) returns (row: seq<Slot>, count: nat)
    requires forall i :: 0 <= i < btn.Length ==> btn[i] == Clear(btn[i])
    ensures row == Sent(btn[..])
    ensures count <= btn.Length
    ensures forall i :: count <= i < btn.Length ==> row[i].button == UNDEFINED
    ensures count > 0 ==> btn[count - 1].button != UNUSED
  {
    row, count := [], 0;
    for i := 0 to btn.Length
      invariant |row| == i && count <= i
      invariant forall j :: 0 <= j < i ==> row[j] == Slot(Wire(Clear(btn[j])), btn[j].instance)
      invariant forall j :: count <= j < i ==> btn[j].button == UNUSED
      invariant count > 0 ==> btn[count - 1].button != UNUSED
    {
      if btn[i].button != UNUSED { count := i + 1; }
      row := row + [Slot(Wire(btn[i]), btn[i].instance)];
    }
  }
}
