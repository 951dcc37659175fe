/**
 * Looking up an area of the venue listing by its location
 * (`find_area_index_by_location`).  An area is a city/state pair together with
 * the venues listed under it; the lookup reads only the city and the state.
 */
module Areas {

  datatype Area<V> = Area(city: string, state: string, venues: seq<V>)

  /** The area is the one for this location: both the city and the state are equal. */
  predicate AtLocation<V>(a: Area<V>, city: string, state: string) {
    a.city == city && a.state == state
  }

  /**
   * Reference definition of the lookup: the position of the first area at the
   * location, or -1 when there is none.
   */
  function FirstAreaIndex<V>(areas: seq<Area<V>>, city: string, state: string): (r: int)
    ensures -1 <= r < |areas|
    ensures r >= 0 ==> AtLocation(areas[r], city, state)
    ensures r >= 0 ==> forall j :: 0 <= j < r ==> !AtLocation(areas[j], city, state)
    ensures r == -1 <==> forall i :: 0 <= i < |areas| ==> !AtLocation(areas[i], city, state)
    decreases |areas|
  {
    if |areas| == 0 then -1
    else if AtLocation(areas[0], city, state) then 0
    else
      var k := FirstAreaIndex(areas[1..], city, state);
      if k == -1 then -1 else k + 1
  }

  /** The lookup as the listing code performs it: a forward scan that stops at the first match. */
  method FindAreaIndexByLocation<V>(areas: seq<Area<V>>, city: string, state: string) returns (index: int)
    ensures -1 <= index < |areas|
    ensures index >= 0 ==> areas[index].city == city && areas[index].state == state
    ensures index >= 0 ==> forall j :: 0 <= j < index ==> !AtLocation(areas[j], city, state)
    ensures index == -1 <==> forall i :: 0 <= i < |areas| ==> !AtLocation(areas[i], city, state)
    ensures index == FirstAreaIndex(areas, city, state)
  {
    index := -1;
    var i := 0;
    while i < |areas|
      invariant 0 <= i <= |areas|
      invariant index == -1
      invariant forall j :: 0 <= j < i ==> !AtLocation(areas[j], city, state)
    {
      var area := areas[i];
      if area.city == city && area.state == state {
        index := i;
        break;
      }
      i := i + 1;
    }
  }

  /**
   * Appending an area never changes an earlier answer; it can only turn "no
   * area" into the new area's position, and only when the new area is at the
   * location.  This is what lets a listing built by appending new areas look
   * each venue up again.
   */
  lemma {:induction false} FirstAreaIndexAppend<V>(areas: seq<Area<V>>, a: Area<V>, city: string, state: string)
    ensures FirstAreaIndex(areas + [a], city, state) ==
      (if FirstAreaIndex(areas, city, state) >= 0 then FirstAreaIndex(areas, city, state)
       else if AtLocation(a, city, state) then |areas|
       else -1)
    decreases |areas|
  {
    if |areas| > 0 {
      assert (areas + [a])[1..] == areas[1..] + [a];
      FirstAreaIndexAppend(areas[1..], a, city, state);
    }
  }

  /** An area that agrees on only one of city and state is never the answer. */
  lemma LocationNeedsCityAndState<V>(areas: seq<Area<V>>, city: string, state: string, i: int)
    requires 0 <= i < |areas|
    requires areas[i].city != city || areas[i].state != state
    ensures FirstAreaIndex(areas, city, state) != i
  {
  }
}
