/**
 * Which softkeys a phone is sent: every label needs one capability of the device, its lines or the build, or none.
 * The labels are numbered here as the protocol numbers them.
 */
module SoftKeyOffers {
  import opened Common
  import opened SoftKeyRows

  datatype Capability =
    | Parking | Transferring | DoNotDisturb | ForwardingAll | ForwardingBusy | ForwardingNoAnswer | Voicemail
    | MeetMe | AdvancedFeatures | Conferencing | DirectedPickup | GroupPickup | Privacy | Video

  /** What a key of that label is withheld without. */
  function Needs(k: Label): Option<Capability> {
    if k == 4 then Some(Transferring)
    else if k == 5 then Some(ForwardingAll)
    else if k == 6 then Some(ForwardingBusy)
    else if k == 7 then Some(ForwardingNoAnswer)
    else if k == 13 then Some(Conferencing)             // conference
    else if k == 14 then Some(Parking)
    else if k == 15 then Some(Conferencing)             // join
    else if k == 16 then Some(MeetMe)
    else if k == 17 then Some(DirectedPickup)
    else if k == 18 then Some(GroupPickup)
    else if k == 54 then Some(Privacy)
    else if k == 62 then Some(Voicemail)                // transfer to voicemail
    else if k == 63 then Some(DoNotDisturb)
    else if k == 65 then Some(AdvancedFeatures)         // callback
    else if k == 80 then Some(Voicemail)                // immediate divert
    else if k == 81 then Some(AdvancedFeatures)         // barge
    else if k == 88 then Some(Video)
    else None
  }

  /** Pickup is withheld only by a build that has it. */
  predicate Has(d: Device, c: Capability) {
    match c
    case Parking => d.park
    case Transferring => d.transfer
    case DoNotDisturb => d.dnd
    case ForwardingAll => d.cfwdAll
    case ForwardingBusy => d.cfwdBusy
    case ForwardingNoAnswer => d.cfwdNoAnswer
    case Voicemail => d.trnsfvm
    case MeetMe => d.meetme
    case AdvancedFeatures => d.advanced
    case Conferencing => d.conference
    case DirectedPickup => !d.pickup || d.directedPickup
    case GroupPickup => !d.pickup || d.pickupGroup
    case Privacy => d.privacy
    case Video => d.video
  }

  predicate MaySee(d: Device, k: Label) {
    k in SoftKeys() && (Needs(k).Some? ==> Has(d, Needs(k).value))
  }

  /** The configured keys that the device may see, in their order. */
  function Seen(d: Device, keys: seq<Label>): seq<Label> {
    if keys == [] then []
    else
      var last := |keys| - 1;
      if MaySee(d, keys[last]) then Seen(d, keys[..last]) + [keys[last]] else Seen(d, keys[..last])
  }

  lemma OfferedIsHad(d: Device, k: Label)
    ensures Offered(d, k) <==> (Needs(k).Some? ==> Has(d, Needs(k).value))
  {
    hide Offered, Has;
    WhatIsHad(d);
    WhatElseIsHad(d);
    CallKeys(d);
    DeviceKeys(d);
    if k == 4 {
    } else if k == 5 {
    } else if k == 6 {
    } else if k == 7 {
    } else if k == 13 {
    } else if k == 14 {
    } else if k == 15 {
    } else if k == 16 {
    } else if k == 17 {
    } else if k == 18 {
    } else if k == 54 {
    } else if k == 62 {
    } else if k == 63 {
    } else if k == 65 {
    } else if k == 80 {
    } else if k == 81 {
    } else if k == 88 {
    } else {
      PlainKeys(d, k);
    }
  }

  lemma WhatIsHad(d: Device)
    ensures Has(d, Transferring) == d.transfer && Has(d, Parking) == d.park && Has(d, DoNotDisturb) == d.dnd
    ensures Has(d, ForwardingAll) == d.cfwdAll && Has(d, ForwardingBusy) == d.cfwdBusy
    ensures Has(d, ForwardingNoAnswer) == d.cfwdNoAnswer && Has(d, Voicemail) == d.trnsfvm
  {
  }

  lemma WhatElseIsHad(d: Device)
    ensures Has(d, MeetMe) == d.meetme && Has(d, AdvancedFeatures) == d.advanced
    ensures Has(d, Conferencing) == d.conference && Has(d, Privacy) == d.privacy && Has(d, Video) == d.video
    ensures Has(d, DirectedPickup) == (!d.pickup || d.directedPickup)
    ensures Has(d, GroupPickup) == (!d.pickup || d.pickupGroup)
  {
  }

  /** The labels that need something, one by one. */
  lemma CallKeys(d: Device)
    ensures Offered(d, 4) <==> d.transfer
    ensures Offered(d, 13) <==> d.conference
    ensures Offered(d, 14) <==> d.park
    ensures Offered(d, 15) <==> d.conference
    ensures Offered(d, 16) <==> d.meetme
    ensures Offered(d, 17) <==> !d.pickup || d.directedPickup
    ensures Offered(d, 18) <==> !d.pickup || d.pickupGroup
    ensures Offered(d, 81) <==> d.advanced
  {
  }

  lemma DeviceKeys(d: Device)
    ensures Offered(d, 5) <==> d.cfwdAll
    ensures Offered(d, 6) <==> d.cfwdBusy
    ensures Offered(d, 7) <==> d.cfwdNoAnswer
    ensures Offered(d, 54) <==> d.privacy
    ensures Offered(d, 62) <==> d.trnsfvm
    ensures Offered(d, 63) <==> d.dnd
    ensures Offered(d, 65) <==> d.advanced
    ensures Offered(d, 80) <==> d.trnsfvm
    ensures Offered(d, 88) <==> d.video
  {
  }

  lemma PlainKeys(d: Device, k: Label)
    requires Needs(k) == None
    ensures Offered(d, k)
  {
  }

  lemma {:induction false} KeptIsSeen(d: Device, keys: seq<Label>)
    ensures Kept(d, keys) == Seen(d, keys)
    decreases |keys|
  {
    if keys != [] {
      var last := |keys| - 1;
      KeptIsSeen(d, keys[..last]);
      OfferedIsHad(d, keys[last]);
      KeptNext(d, keys, last);
      assert keys[..last + 1] == keys;
      hide SoftKeys, Offered, Needs, Has;
    }
  }

  /** The row of a phone is made of exactly those configured keys that are in the template and whose capability the device
    * has, in the order configured, the first sixteen of them. */
  lemma RowIsSeen(d: Device, keys: seq<Label>)
    ensures Row(d, keys) == (if |Seen(d, keys)| <= 16 then Seen(d, keys) else Seen(d, keys)[..16])
  {
    KeptIsSeen(d, keys);
    hide Kept, Seen;
  }

  /** So a configured key that fits is on the phone if and only if the device may see it. */
  lemma {:induction false} SeenIfMay(d: Device, keys: seq<Label>, k: Label)
    ensures k in Seen(d, keys) <==> k in keys && MaySee(d, k)
    decreases |keys|
  {
    hide MaySee;
    if keys != [] {
      var last := |keys| - 1;
      SeenIfMay(d, keys[..last], k);
      assert keys == keys[..last] + [keys[last]];
    }
  }
}
