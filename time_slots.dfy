/**
 * The time-slot picker: how a slot is shown (`HH:MM`), which slot is marked
 * as chosen, the slots bucketed by their shown time, and which of its five
 * screens the picker renders.
 */
module TimeSlotSelector {
  import opened Wrappers
  import opened JsValues
  import opened Text
  import opened Grouping
  import opened ApiClient

  /** `formatTime`: `""` for a missing or empty value, otherwise the first five characters. */
  function FormatTime(t: Option<string>): (r: string)
    ensures !Truthy(t) ==> r == ""
    ensures Truthy(t) ==> |r| == (if |t.value| > 5 then 5 else |t.value|) && r == t.value[..|r|]
  {
    if !Truthy(t) then "" else Take(t.value, 5)
  }

  /** On a present slot the picker shows what the client normalised the slot to, and showing is idempotent. */
  lemma FormatTimeIsNormalizeSlot(s: string)
    ensures FormatTime(Some(s)) == NormalizeSlot(s)
    ensures FormatTime(Some(FormatTime(Some(s)))) == FormatTime(Some(s))
  {
    NormalizeSlotIsTake(s);
  }

  /** `isSlotSelected`: nothing is marked when either side is missing or empty; otherwise the strings must be equal. */
  function IsSlotSelected(slot: Option<string>, selected: Option<string>): (b: bool)
    ensures b ==> slot == selected && slot.Some? && slot.value != ""
    ensures !Truthy(selected) ==> !b
    ensures (Truthy(selected) && slot == selected) ==> b
  {
    Truthy(selected) && Truthy(slot) && slot == selected
  }

  /** The marked slots of a list are all copies of the selected slot, so at most one distinct slot is marked. */
  lemma MarkedSlotsAreTheSelection(slots: seq<string>, selected: Option<string>, i: int, j: int)
    requires 0 <= i < |slots| && 0 <= j < |slots|
    requires IsSlotSelected(Some(slots[i]), selected) && IsSlotSelected(Some(slots[j]), selected)
    ensures slots[i] == slots[j] == selected.value
  {
  }

  /** The key a slot is grouped under: its shown time. */
  function SlotTime(slot: string): string {
    FormatTime(Some(slot))
  }

  /**
   * `groupSlotsByTime`: each slot goes into the group of its shown time, the
   * times in the order they first appear, each group in list order.
   */
  method GroupSlotsByTime(slots: seq<string>) returns (times: seq<string>, groups: map<string, seq<string>>)
    ensures times == KeysInOrder(slots, SlotTime)
    ensures forall t :: t in groups <==> t in times
    ensures forall t :: t in groups ==> groups[t] == Select(slots, SlotTime, t)
  {
    times, groups := GroupBy(slots, SlotTime);
  }

  /** Every slot is in exactly the group of its own time, and the groups together hold every slot once. */
  lemma SlotGroupsPartition(slots: seq<string>, s: string, t: string)
    ensures multiset(Select(slots, SlotTime, t))[s] == if SlotTime(s) == t then multiset(slots)[s] else 0
    ensures TotalSize(slots, SlotTime, KeysInOrder(slots, SlotTime)) == |slots|
  {
    SelectMultiplicity(slots, SlotTime, t, s);
    GroupSizesSum(slots, SlotTime);
  }

  /**
   * Slots as the client delivers them are already cut to `HH:MM`, so every
   * slot of a group is exactly its group's time.
   */
  lemma NormalizedGroupsAreUniform(raw: seq<string>, t: string, i: int)
    requires 0 <= i < |Select(NormalizeSlots(raw), SlotTime, t)|
    ensures Select(NormalizeSlots(raw), SlotTime, t)[i] == t
  {
    var slots := NormalizeSlots(raw);
    var x := Select(slots, SlotTime, t)[i];
    assert x in slots;
    var j :| 0 <= j < |slots| && slots[j] == x;
    FormatTimeIsNormalizeSlot(raw[j]);
    NormalizeSlotIsTake(raw[j]);
  }

  /** The five things the picker can show. */
  datatype SlotView = Disabled | Loading | ErrorShown(message: string) | Empty | SlotList

  /** Which screen the picker renders: disabled, then loading, then an error, then "no slots", then the list. */
  function RenderBranch(disabled: bool, loading: bool, error: Option<string>, slots: seq<string>): (v: SlotView)
    ensures v == Disabled <==> disabled
    ensures v == Loading <==> !disabled && loading
    ensures v.ErrorShown? <==> !disabled && !loading && Truthy(error)
    ensures v.ErrorShown? ==> v.message == error.value
    ensures v == Empty <==> !disabled && !loading && !Truthy(error) && slots == []
    ensures v == SlotList <==> !disabled && !loading && !Truthy(error) && slots != []
  {
    if disabled then Disabled
    else if loading then Loading
    else if Truthy(error) then ErrorShown(error.value)
    else if |slots| == 0 then Empty
    else SlotList
  }
}
