/** The swap handler: replace the activity in one slot of one day of a stored
    itinerary, then recompute that day's total and the itinerary total. The
    itinerary store is an abstract map from id to itinerary. */
module Swap {
  import opened Wrappers
  import opened Seqs
  import opened Schema
  import opened Generator

  type Store = map<string, Itinerary>

  datatype SwapError = ItineraryNotFound | DayNotFound

  /** The `swapDetails` of a successful response. */
  datatype SwapDetails = SwapDetails(oldActivity: string, newActivity: string, costDifference: real)

  datatype Swapped = Swapped(itinerary: Itinerary, details: SwapDetails)

  /** `days.find(d => d.dayNumber === dayNumber)`, as an index. */
  function FindDay(days: seq<Day>, dayNumber: real): (r: Option<nat>)
    ensures r.Some? ==> r.value < |days| && days[r.value].dayNumber as real == dayNumber
    ensures r.Some? ==> forall j :: 0 <= j < r.value ==> days[j].dayNumber as real != dayNumber
    ensures r.None? <==> forall j :: 0 <= j < |days| ==> days[j].dayNumber as real != dayNumber
  {
    if |days| == 0 then None
    else if days[0].dayNumber as real == dayNumber then Some(0)
    else match FindDay(days[1..], dayNumber)
      case None => None
      case Some(k) => Some(k + 1)
  }

  /** The slots with slot `t` set to `a`. */
  function WithSlot(s: Slots, t: Slot, a: Activity): (r: Slots)
    ensures SlotActivity(r, t) == a
    ensures forall u :: u != t ==> SlotActivity(r, u) == SlotActivity(s, u)
  {
    match t
    case Morning => s.(morning := a)
    case Afternoon => s.(afternoon := a)
    case Evening => s.(evening := a)
  }

  /** The in-memory part of the handler: find the day, set the slot,
      recompute the two totals and report the change. */
  function SwapIn(it: Itinerary, dayNumber: real, t: Slot, a: Activity): (r: Result<Swapped, SwapError>)
    ensures r.Failure? <==> FindDay(it.days, dayNumber).None?
    ensures r.Failure? ==> r.error == DayNotFound
    ensures r.Success? ==>
      var k, out := FindDay(it.days, dayNumber).value, r.value.itinerary;
      && |out.days| == |it.days|
      && out.days[k].dayNumber == it.days[k].dayNumber
      && out.days[k].date == it.days[k].date
      && out.days[k].totalDuration == it.days[k].totalDuration
      && SlotActivity(out.days[k].activities, t) == a
      && (forall u :: u != t ==> SlotActivity(out.days[k].activities, u) == SlotActivity(it.days[k].activities, u))
      && out.days[k].totalCost == SlotCostSum(out.days[k].activities)
      && (forall j :: 0 <= j < |it.days| && j != k ==> out.days[j] == it.days[j])
      && out.totalCost == TotalCost(out.days)
      && out.id == it.id && out.destination == it.destination
      && out.partySize == it.partySize && out.createdAt == it.createdAt
      && r.value.details.oldActivity == SlotActivity(it.days[k].activities, t).name
      && r.value.details.newActivity == a.name
      && r.value.details.costDifference == a.cost - SlotActivity(it.days[k].activities, t).cost
  {
    match FindDay(it.days, dayNumber)
    case None => Failure(DayNotFound)
    case Some(k) =>
      var day := it.days[k];
      var prev := SlotActivity(day.activities, t);
      var slots := WithSlot(day.activities, t, a);
      var days := it.days[k := day.(activities := slots, totalCost := SlotCostSum(slots))];
      Success(Swapped(it.(days := days, totalCost := TotalCost(days)),
                      SwapDetails(prev.name, a.name, a.cost - prev.cost)))
  }

  /** The handler against the store: not found when the id or the day is
      unknown, otherwise the updated itinerary is written back under `id`. */
  function ApplySwap(store: Store, id: string, dayNumber: real, t: Slot, a: Activity): (r: Result<Swapped, SwapError>)
    ensures id !in store ==> r == Failure(ItineraryNotFound)
    ensures id in store ==> r == SwapIn(store[id], dayNumber, t, a)
  {
    if id !in store then Failure(ItineraryNotFound)
    else SwapIn(store[id], dayNumber, t, a)
  }

  /** The store after the handler ran. */
  function StoreAfter(store: Store, id: string, dayNumber: real, t: Slot, a: Activity): (r: Store)
    ensures ApplySwap(store, id, dayNumber, t, a).Failure? ==> r == store
    ensures ApplySwap(store, id, dayNumber, t, a).Success? ==>
      r == store[id := ApplySwap(store, id, dayNumber, t, a).value.itinerary]
    ensures r.Keys == store.Keys
    ensures forall other :: other in store && other != id ==> r[other] == store[other]
  {
    match ApplySwap(store, id, dayNumber, t, a)
    case Failure(_) => store
    case Success(s) => store[id := s.itinerary]
  }

  /** Swapping in the activity a slot already holds, into a day whose total
      is already its raw sum, in an itinerary whose total is the sum of its
      days, changes nothing. */
  lemma SwapSameIsNoOp(it: Itinerary, dayNumber: real, t: Slot, a: Activity)
    requires FindDay(it.days, dayNumber).Some?
    requires var d := it.days[FindDay(it.days, dayNumber).value];
      SlotActivity(d.activities, t) == a && d.totalCost == SlotCostSum(d.activities)
    requires it.totalCost == TotalCost(it.days)
    ensures SwapIn(it, dayNumber, t, a).Success?
    ensures SwapIn(it, dayNumber, t, a).value.itinerary == it
  {
    var k := FindDay(it.days, dayNumber).value;
    var d := it.days[k];
    var slots := WithSlot(d.activities, t, a);
    assert slots == d.activities by {
      match t
      case Morning =>
      case Afternoon =>
      case Evening =>
    }
    assert it.days[k := d.(activities := slots, totalCost := SlotCostSum(slots))] == it.days;
  }

  /** Re-applying the same swap leaves the store as the first application
      left it. */
  lemma SwapIdempotent(store: Store, id: string, dayNumber: real, t: Slot, a: Activity)
    ensures var once := StoreAfter(store, id, dayNumber, t, a);
      StoreAfter(once, id, dayNumber, t, a) == once
  {
    var once := StoreAfter(store, id, dayNumber, t, a);
    if ApplySwap(store, id, dayNumber, t, a).Success? {
      var it := once[id];
      var k := FindDay(store[id].days, dayNumber).value;
      assert it.days[k].dayNumber == store[id].days[k].dayNumber;
      assert forall j :: 0 <= j < |it.days| ==> it.days[j].dayNumber == store[id].days[j].dayNumber;
      assert FindDay(it.days, dayNumber) == FindDay(store[id].days, dayNumber);
      SwapSameIsNoOp(it, dayNumber, t, a);
      assert once[id := it] == once;
    } else {
      assert once == store;
    }
  }

  /** When the day held its raw sum before the swap (no rescale touched it)
      and the itinerary total was the sum of its days, the new itinerary
      total is the old one plus the reported cost difference. */
  lemma SwapShiftsTotal(it: Itinerary, dayNumber: real, t: Slot, a: Activity)
    requires FindDay(it.days, dayNumber).Some?
    requires var d := it.days[FindDay(it.days, dayNumber).value]; d.totalCost == SlotCostSum(d.activities)
    requires it.totalCost == TotalCost(it.days)
    ensures var r := SwapIn(it, dayNumber, t, a).value;
      r.itinerary.totalCost == it.totalCost + r.details.costDifference
  {
    SwapUndoesRescale(it, dayNumber, t, a);
  }

  /** A swap into a rescaled day resets that day's total to its raw sum,
      so the itinerary total moves by more than the cost difference. */
  lemma SwapUndoesRescale(it: Itinerary, dayNumber: real, t: Slot, a: Activity)
    requires FindDay(it.days, dayNumber).Some?
    requires it.totalCost == TotalCost(it.days)
    ensures var k, r := FindDay(it.days, dayNumber).value, SwapIn(it, dayNumber, t, a).value;
      r.itinerary.totalCost == it.totalCost + r.details.costDifference
        + (SlotCostSum(it.days[k].activities) - it.days[k].totalCost)
  {
    var k := FindDay(it.days, dayNumber).value;
    var r := SwapIn(it, dayNumber, t, a).value;
    var out := r.itinerary;
    var newTotal := out.days[k].totalCost;
    assert newTotal == SlotCostSum(it.days[k].activities) + r.details.costDifference by {
      var s, s' := it.days[k].activities, out.days[k].activities;
      match t
      case Morning =>
        assert s'.afternoon == s.afternoon && s'.evening == s.evening;
      case Afternoon =>
        assert s'.morning == s.morning && s'.evening == s.evening;
      case Evening =>
        assert s'.morning == s.morning && s'.afternoon == s.afternoon;
    }
    assert DayTotals(out.days) == DayTotals(it.days)[k := newTotal];
    SumUpdate(DayTotals(it.days), k, newTotal);
  }
}
