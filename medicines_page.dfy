/**
 * The schedule page (src/pages/MedicinesPage.tsx): every minute it samples the
 * clock and marks as active the first medicine, in list order, whose scheduled time
 * today lies within fifteen whole minutes of now, before or after.
 */
module MedicinesPage {
  import opened Common
  import opened Clock
  import opened MedicineReminder

  function Abs(x: int): nat {
    if x < 0 then -x else x
  }

  /**
   * The `find` predicate: `Math.floor(|now - medTime| / 60000) <= 15`. The scheduled
   * instant copies today's date and the milliseconds of `now`, so the distance is a
   * whole number of seconds and the window never wraps past midnight.
   */
  predicate InWindow(time: string, nowSec: SecondOfDay)
    requires IsTime(time)
  {
    Abs(nowSec - ScheduledSec(time)) / 60 <= 15
  }

  /** Whole minutes floored at most fifteen means strictly less than sixteen minutes either side. */
  lemma InWindowIff(time: string, nowSec: SecondOfDay)
    requires IsTime(time)
    ensures InWindow(time, nowSec) <==> -960 < nowSec - ScheduledSec(time) < 960
  {
  }

  /** The window is symmetric about the scheduled instant. */
  lemma WindowSymmetric(time: string, d: int)
    requires IsTime(time)
    requires 0 <= ScheduledSec(time) - d < 86400 && 0 <= ScheduledSec(time) + d < 86400
    ensures InWindow(time, ScheduledSec(time) + d) <==> InWindow(time, ScheduledSec(time) - d)
  {
  }

  /** A dose at 23:55 is not active at 00:05: the scheduled instant is placed on the current day. */
  lemma NoWrapAtMidnight()
    ensures !InWindow("23:55", 5 * 60)
  {
    assert ScheduledSec("23:55") == 23 * 3600 + 55 * 60;
  }

  /** `medicines.find(...)`: the position of the first medicine in the window. */
  function FindActive(meds: seq<Medicine>, nowSec: SecondOfDay): (r: Option<nat>)
    requires Schedulable(meds)
    ensures r.Some? ==> r.value < |meds| && InWindow(meds[r.value].time, nowSec)
    ensures r.Some? ==> forall j :: 0 <= j < r.value ==> !InWindow(meds[j].time, nowSec)
    ensures r.None? ==> forall j :: 0 <= j < |meds| ==> !InWindow(meds[j].time, nowSec)
    decreases |meds|
  {
    if meds == [] then None
    else if InWindow(meds[0].time, nowSec) then Some(0)
    else
      match FindActive(meds[1..], nowSec)
      case Some(k) => Some(k + 1)
      case None => None
  }

  /** Medicine `i` is in the window and none before it is. */
  predicate FirstInWindow(meds: seq<Medicine>, nowSec: SecondOfDay, i: int)
    requires Schedulable(meds)
  {
    0 <= i < |meds| && InWindow(meds[i].time, nowSec) &&
    forall j :: 0 <= j < i ==> !InWindow(meds[j].time, nowSec)
  }

  /**
   * `activeMed?.id || null`: the id of the first medicine in the window, where a found
   * medicine whose id is the empty string counts as none.
   */
  function ActiveId(meds: seq<Medicine>, nowSec: SecondOfDay): (r: Option<string>)
    requires Schedulable(meds)
    ensures r.Some? ==> r.value != "" && exists i :: FirstInWindow(meds, nowSec, i) && r.value == meds[i].id
    ensures r.None? <==> forall i :: FirstInWindow(meds, nowSec, i) ==> meds[i].id == ""
  {
    match FindActive(meds, nowSec)
    case Some(i) => if meds[i].id != "" then Some(meds[i].id) else None
    case None => None
  }

  /**
   * With distinct, non-empty ids, a card is marked active exactly when its medicine is the
   * first one in the window; so at most one card is active.
   */
  lemma ActiveCardIff(meds: seq<Medicine>, nowSec: SecondOfDay, k: nat)
    requires Schedulable(meds) && UniqueIds(meds) && k < |meds| && meds[k].id != ""
    ensures ActiveId(meds, nowSec) == Some(meds[k].id) <==>
            InWindow(meds[k].time, nowSec) && forall j :: 0 <= j < k ==> !InWindow(meds[j].time, nowSec)
  {
    var r := FindActive(meds, nowSec);
    if r.Some? && r.value != k {
      assert meds[r.value].id != meds[k].id;
    }
  }

  /** The page's state: the list, the sampled clock and the active id. */
  class Page {
    var medicines: seq<Medicine>
    var currentSec: SecondOfDay
    var activeId: Option<string>

    predicate Valid()
      reads this
    {
      Schedulable(medicines) && activeId == ActiveId(medicines, currentSec)
    }

    /** First render, followed by the selection effect. */
    constructor (meds: seq<Medicine>, nowSec: SecondOfDay)
      requires Schedulable(meds)
      ensures Valid() && medicines == meds && currentSec == nowSec
    {
      medicines := meds;
      currentSec := nowSec;
      activeId := ActiveId(meds, nowSec);
    }

    /** The one-minute interval sets the clock; the effect then recomputes the active id. */
    method ClockTick(nowSec: SecondOfDay)
      requires Valid()
      modifies this
      ensures Valid() && medicines == old(medicines) && currentSec == nowSec
    {
      currentSec := nowSec;
      activeId := ActiveId(medicines, currentSec);
    }

    /**
     * `isActive={medicine.id === activeMedicineId}` for one card: on a consistent page,
     * the card is active exactly when its id is non-empty and is the id of the first
     * medicine in the window.
     */
    function IsActive(m: Medicine): (b: bool)
      reads this
      ensures Valid() ==> (b <==> m.id != "" && exists i :: FirstInWindow(medicines, currentSec, i) && medicines[i].id == m.id)
    {
      activeId == Some(m.id)
    }
  }
}
