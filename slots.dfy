/** The per-half-day slot settings (`MO_AM`, `MO_PM`, ..., `FR_PM`) and
    the five weekday blocks they stand for (`_normalize_slot`,
    `build_blocks_from_env_slots`). */
module Slots {
  import opened Text

  /** What `_normalize_slot` makes of one setting: `""`, `"office"`,
      `"home"` or `"off"`. */
  datatype Slot = Unset | Office | Home | Off

  /** `_normalize_slot`: the stripped, lower-cased value against the three
      word lists; anything else, and the empty value, is unset. */
  function NormalizeSlot(value: string): (s: Slot)
  {
    if |value| == 0 then Unset
    else
      var v := Lower(Strip(value));
      if v == "office" || v == "o" || v == "work" then Office
      else if v == "home" || v == "h" || v == "ho" then Home
      else if v == "off" || v == "x" || v == "none" then Off
      else Unset
  }

  /** The block names the mapping produces. */
  predicate IsSlotBlock(b: string)
  {
    b == "OFFICE" || b == "HO-PM" || b == "HO-AM" || b == "HO" || b == "OFF"
  }

  /** Whether a block has the office in the morning (`am`) or afternoon
      half, as the weekly renderer plans it: `HO-AM` is office in the
      afternoon only, `HO-PM` office in the morning only. */
  predicate InOffice(b: string, am: bool)
  {
    b == "OFFICE" || (am && b == "HO-PM") || (!am && b == "HO-AM")
  }

  predicate OffOrHomeOrUnset(s: Slot)
  {
    s == Off || s == Home || s == Unset
  }

  /** The block for one day as written: off dominates off, home and unset;
      office in both halves is a full office day; office in one half is the
      matching half day; home in one half with the other unset maps to the
      half-day block of the wrong half; anything else is a home day. */
  function CombineSlotsAsWritten(am: Slot, pm: Slot): (b: string)
    ensures IsSlotBlock(b)
  {
    if (am == Off && OffOrHomeOrUnset(pm)) || (pm == Off && OffOrHomeOrUnset(am)) then "OFF"
    else if am == Office && pm == Office then "OFFICE"
    else if am == Office then "HO-PM"
    else if pm == Office then "HO-AM"
    else if am == Home || pm == Home then
      if am == Home && pm == Unset then "HO-PM"
      else if pm == Home && am == Unset then "HO-AM"
      else "HO"
    else "HO"
  }

  /** The mapping with the two home-plus-unset cases naming the half that
      is at home, as the comments beside them and the other branches
      intend. */
  function CombineSlots(am: Slot, pm: Slot): (b: string)
    ensures IsSlotBlock(b)
  {
    if am == Home && pm == Unset then "HO-AM"
    else if pm == Home && am == Unset then "HO-PM"
    else CombineSlotsAsWritten(am, pm)
  }

  /** The fix changes exactly the two home-plus-unset cases. */
  lemma CombineSlotsDiffers(am: Slot, pm: Slot)
    ensures CombineSlots(am, pm) != CombineSlotsAsWritten(am, pm) <==>
      (am == Home && pm == Unset) || (pm == Home && am == Unset)
  {
  }

  /** The block of the day with the two halves swapped. */
  function Mirror(b: string): string
  {
    if b == "HO-AM" then "HO-PM" else if b == "HO-PM" then "HO-AM" else b
  }

  /** The mapping in its documented cases: off with off, home or unset is
      OFF; office in both halves is OFFICE; office in one half only is the
      half-day block with the office in that half. */
  lemma CombineSlotsCases(am: Slot, pm: Slot)
    ensures (am == Off && OffOrHomeOrUnset(pm)) || (pm == Off && OffOrHomeOrUnset(am)) ==> CombineSlots(am, pm) == "OFF"
    ensures am == Office && pm == Office ==> CombineSlots(am, pm) == "OFFICE"
    ensures am == Office && pm != Office ==> CombineSlots(am, pm) == "HO-PM" && InOffice("HO-PM", true) && !InOffice("HO-PM", false)
    ensures pm == Office && am != Office ==> CombineSlots(am, pm) == "HO-AM" && InOffice("HO-AM", false) && !InOffice("HO-AM", true)
  {
  }

  /** The corrected mapping honours each half: a half set to office is in
      the office, a half set to home or off is not; and swapping the two
      halves swaps the half-day blocks. */
  lemma CombineSlotsRespectsHalves(am: Slot, pm: Slot)
    ensures am == Office ==> InOffice(CombineSlots(am, pm), true)
    ensures pm == Office ==> InOffice(CombineSlots(am, pm), false)
    ensures am == Home || am == Off ==> !InOffice(CombineSlots(am, pm), true)
    ensures pm == Home || pm == Off ==> !InOffice(CombineSlots(am, pm), false)
    ensures CombineSlots(pm, am) == Mirror(CombineSlots(am, pm))
  {
  }

  /** As written, a home half next to an unset half is the half planned
      in the office. */
  lemma CombineSlotsAsWrittenMisplacesHome()
    ensures InOffice(CombineSlotsAsWritten(Home, Unset), true)
    ensures InOffice(CombineSlotsAsWritten(Unset, Home), false)
  {
  }

  /** The weekday prefixes of the slot keys. */
  const Weekdays: seq<string> := ["MO", "TU", "WE", "TH", "FR"]

  /** `config_map.get(key, "")`. */
  function Setting(config: map<string, string>, key: string): string
  {
    if key in config then config[key] else ""
  }

  function AmSlot(config: map<string, string>, d: nat): Slot
    requires d < 5
  {
    NormalizeSlot(Setting(config, Weekdays[d] + "_AM"))
  }

  function PmSlot(config: map<string, string>, d: nat): Slot
    requires d < 5
  {
    NormalizeSlot(Setting(config, Weekdays[d] + "_PM"))
  }

  /** Weekday `d` has a recognised value in one of its two slot keys. */
  predicate SlotSetOn(config: map<string, string>, d: nat)
    requires d < 5
  {
    AmSlot(config, d) != Unset || PmSlot(config, d) != Unset
  }

  predicate AnySlotSet(config: map<string, string>)
  {
    exists d :: 0 <= d < 5 && SlotSetOn(config, d)
  }

  /** The block of weekday `d`, by the corrected mapping. */
  function DayBlock(config: map<string, string>, d: nat): string
    requires d < 5
  {
    CombineSlots(AmSlot(config, d), PmSlot(config, d))
  }

  /** The block of weekday `d`, by the mapping as written. */
  function DayBlockAsWritten(config: map<string, string>, d: nat): string
    requires d < 5
  {
    CombineSlotsAsWritten(AmSlot(config, d), PmSlot(config, d))
  }

  /** `build_blocks_from_env_slots` as written: the five day blocks, or no
      blocks at all when no slot key holds a recognised value. */
  function BuildBlocksAsWritten(config: map<string, string>): seq<string>
  {
    if AnySlotSet(config) then seq(5, d requires 0 <= d < 5 => DayBlockAsWritten(config, d)) else []
  }

  /** The same with the corrected mapping. */
  function BuildBlocks(config: map<string, string>): seq<string>
  {
    if AnySlotSet(config) then seq(5, d requires 0 <= d < 5 => DayBlock(config, d)) else []
  }

  /** No blocks exactly when no slot key holds a recognised value;
      otherwise one block per weekday, each one of the five block names and
      made from that day's two settings only. */
  lemma BuildBlocksShape(config: map<string, string>)
    ensures BuildBlocks(config) == [] <==> !AnySlotSet(config)
    ensures AnySlotSet(config) ==>
      |BuildBlocks(config)| == 5 &&
      forall d :: 0 <= d < 5 ==>
        IsSlotBlock(BuildBlocks(config)[d]) &&
        BuildBlocks(config)[d] == CombineSlots(AmSlot(config, d), PmSlot(config, d))
    ensures BuildBlocksAsWritten(config) == [] <==> !AnySlotSet(config)
    ensures AnySlotSet(config) ==>
      |BuildBlocksAsWritten(config)| == 5 &&
      forall d :: 0 <= d < 5 ==> IsSlotBlock(BuildBlocksAsWritten(config)[d])
  {
  }

  lemma HomeIsHome()
    ensures NormalizeSlot("home") == Home
  {
    StripPadded([], "home", []);
    assert [] + "home" + [] == "home";
    var l := Lower("home");
    assert l[0] == 'h' && l[1] == 'o' && l[2] == 'm' && l[3] == 'e';
    assert l == "home";
  }

  /** Once some slot of the week is set, day `d` of the week is that day's
      block; a day with neither of its slots set is a home day
      (`"HO"`, the default for an unspecified day). */
  lemma BlockOfDay(config: map<string, string>, d: nat)
    requires d < 5 && AnySlotSet(config)
    ensures |BuildBlocks(config)| == 5 && BuildBlocks(config)[d] == DayBlock(config, d)
    ensures |BuildBlocksAsWritten(config)| == 5 && BuildBlocksAsWritten(config)[d] == DayBlockAsWritten(config, d)
    ensures !SlotSetOn(config, d) ==> BuildBlocksAsWritten(config)[d] == "HO" && BuildBlocks(config)[d] == "HO"
  {
  }

  /** The settings `MO_AM=home` with `MO_PM` unset make Monday a home
      morning next to an unset afternoon, so (by
      `CombineSlotsAsWrittenMisplacesHome` and `BlockOfDay`) the week as
      written plans that morning in the office. */
  lemma HomeMorningSlots(config: map<string, string>)
    requires Setting(config, "MO_AM") == "home" && Setting(config, "MO_PM") == ""
    ensures AmSlot(config, 0) == Home && PmSlot(config, 0) == Unset
    ensures SlotSetOn(config, 0)
  {
    assert Weekdays[0] + "_AM" == "MO_AM";
    assert Weekdays[0] + "_PM" == "MO_PM";
    HomeIsHome();
  }
}
