/**
 * What a press of a feature button does. The phone sends back the type of the button as a stimulus, with its
 * instance; a table of stimuli gives the handler, and the feature handler looks the button up by its instance.
 * The stimuli are numbered here as the protocol numbers them, independently of the button types.
 */
module FeaturePress {
  import opened Common
  import opened ButtonTemplate

  type Stimulus = nat

  /** The handlers of stimuli; none for what the driver does not handle. */
  datatype Handler =
    | Nobody | Redial | Speeddial | BlfSpeeddial | LineHandler | HoldHandler | TransferHandler | Voicemail
    | ConferenceHandler | ForwardAll | ForwardBusy | ForwardNoAnswer | CallPark | GroupPickup | FeatureHandler

  /** The table of stimuli; whatever it does not name has no handler. */
  function HandlerOf(stimulus: Stimulus): Handler {
    if stimulus == 0x01 then Redial
    else if stimulus == 0x02 then Speeddial
    else if stimulus == 0x03 then HoldHandler
    else if stimulus == 0x04 then TransferHandler
    else if stimulus == 0x05 then ForwardAll
    else if stimulus == 0x06 then ForwardBusy
    else if stimulus == 0x07 then ForwardNoAnswer
    else if stimulus == 0x09 then LineHandler
    else if stimulus == 0x0E then FeatureHandler                            // video
    else if stimulus == 0x0F then Voicemail
    else if stimulus == 0x13 then FeatureHandler                            // feature
    else if stimulus == 0x15 then BlfSpeeddial
    else if stimulus == 0x26 then FeatureHandler                            // multiblink feature
    else if stimulus == 0x7D then ConferenceHandler
    else if stimulus == 0x7E then CallPark
    else if stimulus == 0x80 then GroupPickup
    else if stimulus == 0x81 || stimulus == 0x82 then FeatureHandler        // mobility, do not disturb
    else if 0x85 <= stimulus <= 0x8B then FeatureHandler                    // quality report to hunt group
    else if 0xC0 <= stimulus <= 0xC5 then FeatureHandler                    // parking lot to application
    else Nobody
  }

  /** The handlers that are called only with a line. */
  predicate NeedsLine(h: Handler) {
    !(h == Speeddial || h == BlfSpeeddial || h == LineHandler || h == FeatureHandler)
  }

  datatype Outcome =
    | NotHandled           // the stimulus has no handler
    | NoLine               // the handler needs a line, and no line has the instance
    | Called(h: Handler)   // a handler of its own
    | Found(k: nat)        // the feature handler found the button
    | NotFound             // the feature handler found none

  /** A press on a phone of the SCCP dialect, with a positive instance; `lines` are the instances of the lines of the
    * phone. Of the instance only the lowest byte counts. */
  function Press(configs: seq<Config>, lines: set<nat>, stimulus: Stimulus, instance: nat): Outcome {
    var h := HandlerOf(stimulus);
    var pressed := instance % 256;
    if stimulus == 0x00 || stimulus >= 0xFF || h == Nobody then NotHandled
    else if NeedsLine(h) && pressed !in lines then NoLine
    else if h != FeatureHandler then Called(h)
    else
      var k := FindFeature(configs, pressed);
      if k < |configs| then Found(k) else NotFound
  }

  /** The feature whose name the protocol gives a stimulus, for the features that have a stimulus of their own. */
  function Named(stimulus: Stimulus): Option<Feature> {
    if stimulus == 0x03 then Some(HoldKey)
    else if stimulus == 0x04 then Some(TransferKey)
    else if stimulus == 0x7D then Some(Conference)
    else if stimulus == 0x80 then Some(Pickup)
    else if stimulus == 0x81 then Some(Mobility)
    else if stimulus == 0x82 then Some(DoNotDisturb)
    else if stimulus == 0x83 then Some(ConfList)
    else if stimulus == 0x84 then Some(RemoveLastParticipant)
    else if stimulus == 0x85 then Some(QualityReport)
    else if stimulus == 0x86 then Some(Callback)
    else if stimulus == 0x87 then Some(OtherPickup)
    else if stimulus == 0x88 then Some(VideoMode)
    else if stimulus == 0x89 then Some(NewCall)
    else if stimulus == 0x8A then Some(EndCall)
    else if stimulus == 0x8B then Some(HuntGroup)
    else if stimulus == 0xC0 then Some(ParkingLot)
    else if stimulus == 0xC1 then Some(TestF)
    else if stimulus == 0xC2 then Some(TestG)
    else if stimulus == 0xC3 then Some(TestH)
    else if stimulus == 0xC4 then Some(TestI)
    else if stimulus == 0xC5 then Some(TestJ)
    else None
  }

  /** The features that share the types for features and for blinking features. */
  predicate Shares(f: Feature, env: Env) {
    f.Monitor? || f.Multiblink? || f.Dnd? || f.Other? || (f.ParkingLot? && env.observer)
  }

  /** A feature that is shown blinking: the protocol is recent enough, and nothing about the button or the phone speaks
    * against it. */
  predicate Blinks(f: Feature, env: Env) {
    || ((f.Monitor? || f.Multiblink?) && env.protocol >= 15 && !env.plainBlink)
    || (f == Dnd(false) && env.protocol >= 15)
    || (f.ParkingLot? && env.observer && env.protocol >= 16)
  }

  /** What a press of the button of a feature should do. */
  function Wanted(f: Feature, k: nat, line: bool): Outcome {
    match f
    case HoldKey => if line then Called(HoldHandler) else NoLine
    case TransferKey => if line then Called(TransferHandler) else NoLine
    case Conference => if line then Called(ConferenceHandler) else NoLine
    case Pickup => if line then Called(GroupPickup) else NoLine
    case ConfList => NotHandled
    case RemoveLastParticipant => NotHandled
    case _ => Found(k)
  }

  /** A template of the driver has no more slots than this. */
  const SLOTS := 56

  /** Button k is a feature button that gets slot i of a fresh device, and no slot is shared. */
  ghost predicate Lands(slots: seq<Slot>, configs: seq<Config>, env: Env, i: nat, k: nat) {
    && |slots| <= SLOTS
    && Unplaced(configs) && SharesNothing(slots, configs, env)
    && Paired(slots, configs, i, k) && configs[k].kind.FeatureKey? && slots[i].button == MULTI
  }

  // ---------------------------------------------------------------------------------------------
  // Instances fit in a byte

  lemma {:induction false} InstancesFit(slots: seq<Slot>, configs: seq<Config>, n: Counters, env: Env, f: Family)
    ensures Next(Zip(slots, configs, n, env).next, f) <= Next(n, f) + |slots|
    decreases |slots| + |configs|
  {
    if slots != [] && configs != [] {
      if !Placeholder(slots[0].button) {
        InstancesFit(slots[1..], configs, n, env, f);
      } else if !Takes(configs[0]) {
        InstancesFit(slots, configs[1..], n, env, f);
      } else {
        var filled := Fill(slots[0], configs[0], n, env);
        assert Next(filled.next, f) <= Next(n, f) + 1;
        InstancesFit(slots[1..], configs[1..], filled.next, env, f);
      }
    }
  }

  /** What is known of the feature button that lands on a slot: it carries an instance that fits in a byte, by which it
    * is found again. */
  lemma LandsOn(slots: seq<Slot>, configs: seq<Config>, env: Env, i: nat, k: nat)
    requires Lands(slots, configs, env, i, k)
    ensures
      var t := PlaceAll(slots, configs, FIRST, env);
      && |t.slots| == |slots| && |t.configs| == |configs|
      && t.slots[i].button == Shown(MULTI, configs[k].kind, env)
      && 0 < t.slots[i].instance < 256 && t.slots[i].instance == t.configs[k].instance
      && FindFeature(t.configs, t.slots[i].instance) == k
  {
    PlacementIsZip(slots, configs, FIRST, env);
    PlacedByRank(slots, configs, FIRST, env, i, k);
    FeaturePressFindsItsButton(slots, configs, env, i, k);
    ZipKinds(slots, configs, FIRST, env);
    InstancesRun(slots, configs, FIRST, env, Dials);
    InstancesFit(slots, configs, FIRST, env, Dials);
    var t := Zip(slots, configs, FIRST, env);
    assert t.configs[..|t.configs|] == t.configs;
    NumberedGrows(t.configs, k, |t.configs|, Dials, env);
  }

  /** The type that is shown for a feature, by the protocol's names. */
  lemma TypeOfFeature(f: Feature, env: Env)
    requires f == ParkingLot ==> env.park
    ensures
      var shown := Shown(MULTI, FeatureKey("", f), env);
      && !Placeholder(shown) && shown != UNUSED
      && Named(shown) == (if Shares(f, env) then None else Some(f))
      && (shown == 0x13 <==> Shares(f, env) && !Blinks(f, env))
      && (shown == 0x26 <==> Blinks(f, env))
  {
  }

  // ---------------------------------------------------------------------------------------------
  // Theorems

  /** The feature is told from the type on the wire: a feature with a stimulus of its own is sent as that one; the others
    * are sent as a blinking feature exactly if they blink, and otherwise as a feature. */
  lemma TypeNamesFeature(slots: seq<Slot>, configs: seq<Config>, env: Env, i: nat, k: nat)
    requires Lands(slots, configs, env, i, k)
    requires !(configs[k].kind.feature == ParkingLot && !env.park)
    ensures
      var f := configs[k].kind.feature;
      var row := Sent(PlaceAll(slots, configs, FIRST, env).slots);
      && |row| == |slots|
      && Named(row[i].button) == (if Shares(f, env) then None else Some(f))
      && (row[i].button == 0x26 <==> Blinks(f, env))
      && (row[i].button == 0x13 <==> Shares(f, env) && !Blinks(f, env))
  {
    LandsOn(slots, configs, env, i, k);
    TypeOfFeature(configs[k].kind.feature, env);
    NoPlaceholderIsSent(PlaceAll(slots, configs, FIRST, env).slots, i);
    hide Named, Shares, Blinks, PlaceAll, Lands;
  }

  /** So two features of which one has a stimulus of its own are never sent with the same type. */
  lemma DifferentFeaturesDifferentTypes(slots: seq<Slot>, configs: seq<Config>, env: Env, i: nat, k: nat, j: nat, l: nat)
    requires Lands(slots, configs, env, i, k) && Lands(slots, configs, env, j, l)
    requires
      var f, g := configs[k].kind.feature, configs[l].kind.feature;
      f != g && !Shares(f, env) && (env.park || (f != ParkingLot && g != ParkingLot))
    ensures
      var row := Sent(PlaceAll(slots, configs, FIRST, env).slots);
      |row| == |slots| && row[i].button != row[j].button
  {
    TypeNamesFeature(slots, configs, env, i, k);
    TypeNamesFeature(slots, configs, env, j, l);
    hide Named, Shares, Blinks, PlaceAll, Lands;
  }

  /**
   The round trip of a feature button, from its place in the configuration over the wire and back. A press calls the
   feature's own handler, if a line has the instance of the button, or the feature handler, which finds the button by
   its instance; exactly the conference list and the removal of the last participant are sent with types that nothing
   handles, and so is a parking lot without native park.
   */
  lemma FeaturePressArrives(slots: seq<Slot>, configs: seq<Config>, env: Env, lines: set<nat>, i: nat, k: nat)
    requires Lands(slots, configs, env, i, k)
    ensures
      var t := PlaceAll(slots, configs, FIRST, env);
      var row := Sent(t.slots);
      var f := configs[k].kind.feature;
      && |row| == |slots| && row[i].instance > 0
      && Press(t.configs, lines, row[i].button, row[i].instance)
         == if f == ParkingLot && !env.park then NotHandled else Wanted(f, k, row[i].instance in lines)
  {
    hide PlaceAll, HandlerOf, FindFeature, FeatureButton, Sent;
    var f := configs[k].kind.feature;
    assert i < |slots| && k < |configs| && configs[k].kind.FeatureKey?;
    LandsOn(slots, configs, env, i, k);
    hide Lands;
    var t := PlaceAll(slots, configs, FIRST, env);
    NoPlaceholderIsSent(t.slots, i);
    assert Sent(t.slots)[i].instance == t.slots[i].instance;
    ParkingLotShowsNothing(f, env);
    if !(f == ParkingLot && !env.park) {
      TypeOfFeature(f, env);
      HandledAsWanted(f, env);
    }
  }

  lemma ParkingLotShowsNothing(f: Feature, env: Env)
    ensures f == ParkingLot && !env.park ==> Shown(MULTI, FeatureKey("", f), env) == MULTI
    ensures forall kind: Kind :: kind.FeatureKey? && kind.feature == f ==>
      Shown(MULTI, kind, env) == Shown(MULTI, FeatureKey("", f), env)
  {
  }

  /** The handler of the type shown for a feature. */
  lemma HandledAsWanted(f: Feature, env: Env)
    requires f == ParkingLot ==> env.park
    ensures
      var h := HandlerOf(Shown(MULTI, FeatureKey("", f), env));
      && 0 < Shown(MULTI, FeatureKey("", f), env) < 0xFF
      && h == (match f
               case HoldKey => HoldHandler
               case TransferKey => TransferHandler
               case Conference => ConferenceHandler
               case Pickup => GroupPickup
               case ConfList => Nobody
               case RemoveLastParticipant => Nobody
               case _ => FeatureHandler)
  {
  }

  /** The other keys: a line key, and a speeddial that watches a line without being a busy lamp, call the handler of
    * lines; other speeddials have handlers of their own; a service is the phone's own business. */
  lemma OtherKeysAreHandled(slot: Slot, c: Config, env: Env)
    requires Suits(slot.button, c.kind) && !c.kind.FeatureKey?
    ensures
      var busyLamp := env.dynamic && env.protocol >= 15;
      HandlerOf(Fill(slot, c, FIRST, env).slot.button)
        == match c.kind
           case ServiceKey => Nobody
           case SpeeddialKey(_, hint) =>
             if hint == "" || slot.button != MULTI then Speeddial else if busyLamp then BlfSpeeddial else LineHandler
           case _ => LineHandler
    ensures c.kind.SpeeddialKey? ==>
              (Fill(slot, c, FIRST, env).config.hintActive <==> c.kind.hint != "" && slot.button == MULTI)
  {
  }

  /** A button takes part if it is not placed yet, unless it is a line without a name, or a speeddial or feature without
    * a label; and only the five placeholders give their slot to one. */
  lemma WhoTakesPart(c: Config, button: Button)
    ensures Takes(c) <==> c.instance == 0 && !(c.kind.LineKey? && c.kind.name == "")
                          && !(c.kind.SpeeddialKey? && c.kind.text == "") && !(c.kind.FeatureKey? && c.kind.text == "")
    ensures Placeholder(button) <==> button in {0xF1, 0xF2, 0xF3, 0xF4, 0xF5}
  {
  }
}
