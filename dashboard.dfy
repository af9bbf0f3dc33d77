/**
 * The dashboard's selection logic: toggling an item id in the selection
 * set, projecting the health data onto the selection, and the condition
 * that disables the "Copy JSON" button.
 */
module Dashboard {
  import opened Wrappers
  import opened Views

  /** The selection after clicking the checkbox of `itemId`. */
  function Toggle(selected: set<string>, itemId: string): (r: set<string>)
    ensures itemId in r <==> itemId !in selected
    ensures forall x :: x != itemId ==> (x in r <==> x in selected)
  {
    if itemId in selected then selected - {itemId} else selected + {itemId}
  }

  /** Clicking the same checkbox twice restores the selection. */
  lemma ToggleTwice(selected: set<string>, itemId: string)
    ensures Toggle(Toggle(selected, itemId), itemId) == selected
  {
  }

  /** A JavaScript `Set` of item ids: a mutable object. */
  class ItemSet {
    var elems: set<string>

    constructor Empty()
      ensures elems == {}
    {
      elems := {};
    }

    /** `new Set(other)` */
    constructor Copy(other: ItemSet)
      ensures elems == other.elems
    {
      elems := other.elems;
    }

    predicate Has(x: string)
      reads this
    {
      x in elems
    }

    method Add(x: string)
      modifies this
      ensures elems == old(elems) + {x}
    {
      elems := elems + {x};
    }

    method Delete(x: string)
      modifies this
      ensures elems == old(elems) - {x}
    {
      elems := elems - {x};
    }
  }

  function AllergyId(a: Allergy): string { a.id }
  function ContactId(c: Contact): string { c.id }

  /** The items whose id is selected, in their order (DashboardPage.js:280-282). */
  function FilterById<T(==,!new)>(xs: seq<T>, idOf: T -> string, selected: set<string>): (r: seq<T>)
    ensures |r| <= |xs|
    ensures forall x :: x in r <==> x in xs && idOf(x) in selected
    ensures r == [] <==> forall k :: 0 <= k < |xs| ==> idOf(xs[k]) !in selected
  {
    if |xs| == 0 then []
    else
      var rest := FilterById(xs[1..], idOf, selected);
      assert forall k :: 1 <= k < |xs| ==> xs[k] == xs[1..][k - 1];
      if idOf(xs[0]) in selected then [xs[0]] + rest else rest
  }

  /** `r` is `xs` with some elements left out and the rest in their order. */
  predicate IsSubsequence<T(==)>(r: seq<T>, xs: seq<T>)
  {
    if |r| == 0 then true
    else if |xs| == 0 then false
    else (r[0] == xs[0] && IsSubsequence(r[1..], xs[1..])) || IsSubsequence(r, xs[1..])
  }

  /** The filtered items keep their original order. */
  lemma {:induction false} FilterKeepsOrder<T(!new)>(xs: seq<T>, idOf: T -> string, selected: set<string>)
    ensures IsSubsequence(FilterById(xs, idOf, selected), xs)
  {
    if |xs| > 0 {
      var rest := FilterById(xs[1..], idOf, selected);
      FilterKeepsOrder(xs[1..], idOf, selected);
      if idOf(xs[0]) in selected {
        assert ([xs[0]] + rest)[0] == xs[0] && ([xs[0]] + rest)[1..] == rest;
      }
    }
  }

  /** Every item is kept as often as it occurs when its id is selected, and never otherwise. */
  lemma {:induction false} FilterMultiplicity<T(!new)>(xs: seq<T>, idOf: T -> string, selected: set<string>)
    ensures forall x :: multiset(FilterById(xs, idOf, selected))[x] == (if idOf(x) in selected then multiset(xs)[x] else 0)
  {
    if |xs| > 0 {
      FilterMultiplicity(xs[1..], idOf, selected);
      assert xs == [xs[0]] + xs[1..];
    }
  }

  /** `getSelectedData()` for the given health data (`None` is `null`) and selection. */
  function GetSelectedData(healthData: Option<HealthData>, selected: set<string>): (r: SelectedData)
    ensures healthData.None? ==> r == NoSelection
    ensures healthData.Some? ==>
      && (r.patient.Some? <==> "patient" in selected)
      && (r.patient.Some? ==> r.patient.value == healthData.value.patient)
    ensures healthData.Some? ==>
      (r.allergies.Some? <==> exists k :: 0 <= k < |healthData.value.allergies| && healthData.value.allergies[k].id in selected)
    ensures healthData.Some? ==>
      (r.emergencyContacts.Some? <==>
         exists k :: 0 <= k < |healthData.value.emergencyContacts| && healthData.value.emergencyContacts[k].id in selected)
    ensures r.allergies.Some? ==>
      r.allergies.value == FilterById(healthData.value.allergies, AllergyId, selected)
    ensures r.emergencyContacts.Some? ==>
      r.emergencyContacts.value == FilterById(healthData.value.emergencyContacts, ContactId, selected)
  {
    match healthData
    case None => NoSelection
    case Some(h) =>
      var allergies := FilterById(h.allergies, AllergyId, selected);
      var contacts := FilterById(h.emergencyContacts, ContactId, selected);
      SelectedData(
        if "patient" in selected then Some(h.patient) else None,
        if |allergies| > 0 then Some(allergies) else None,
        if |contacts| > 0 then Some(contacts) else None)
  }

  /**
   * A selected list in the projection holds exactly the selected items of
   * the health data, each as often as it occurs there, in their original
   * order, and is never empty.
   */
  lemma SelectedListsExact(h: HealthData, selected: set<string>)
    ensures var r := GetSelectedData(Some(h), selected);
      && (r.allergies.Some? ==> |r.allergies.value| > 0 && IsSubsequence(r.allergies.value, h.allergies))
      && (r.allergies.Some? ==> forall a :: a in r.allergies.value <==> a in h.allergies && a.id in selected)
      && (r.emergencyContacts.Some? ==> |r.emergencyContacts.value| > 0 && IsSubsequence(r.emergencyContacts.value, h.emergencyContacts))
      && (r.emergencyContacts.Some? ==> forall c :: c in r.emergencyContacts.value <==> c in h.emergencyContacts && c.id in selected)
      && (r.allergies.Some? ==> forall a :: multiset(r.allergies.value)[a] == (if a.id in selected then multiset(h.allergies)[a] else 0))
      && (r.emergencyContacts.Some? ==>
            forall c :: multiset(r.emergencyContacts.value)[c] == (if c.id in selected then multiset(h.emergencyContacts)[c] else 0))
  {
    FilterMultiplicity(h.allergies, AllergyId, selected);
    FilterMultiplicity(h.emergencyContacts, ContactId, selected);
    FilterKeepsOrder(h.allergies, AllergyId, selected);
    FilterKeepsOrder(h.emergencyContacts, ContactId, selected);
  }

  /** `Object.keys(getSelectedData()).length === 0`: the disabled state of the copy button. */
  predicate CopyDisabled(healthData: Option<HealthData>, selected: set<string>)
  {
    KeyCount(GetSelectedData(healthData, selected)) == 0
  }

  /** The copy button is disabled exactly when nothing of the loaded data is selected. */
  lemma CopyDisabledIff(healthData: Option<HealthData>, selected: set<string>)
    ensures CopyDisabled(healthData, selected) <==>
      || healthData.None?
      || (&& "patient" !in selected
          && (forall k :: 0 <= k < |healthData.value.allergies| ==> healthData.value.allergies[k].id !in selected)
          && (forall k :: 0 <= k < |healthData.value.emergencyContacts| ==> healthData.value.emergencyContacts[k].id !in selected))
  {
  }

  /** The component's state cells. */
  class DashboardPage {
    var healthData: Option<HealthData>
    var selectedItems: ItemSet

    constructor ()
      ensures healthData.None? && fresh(selectedItems) && selectedItems.elems == {}
    {
      healthData := None;
      selectedItems := new ItemSet.Empty();
    }

    /** `setHealthData(data)` once the service has answered. */
    method SetHealthData(data: HealthData)
      modifies this
      ensures healthData == Some(data) && selectedItems == old(selectedItems)
    {
      healthData := Some(data);
    }

    /**
     * `handleItemToggle(itemId)`: a fresh set with the membership of
     * `itemId` flipped replaces the selection; the previous set object is
     * left as it was.
     */
    method HandleItemToggle(itemId: string)
      modifies this
      ensures fresh(selectedItems)
      ensures selectedItems.elems == Toggle(old(selectedItems.elems), itemId)
      ensures old(selectedItems).elems == old(selectedItems.elems)
      ensures healthData == old(healthData)
    {
      var newSelected := new ItemSet.Copy(selectedItems);
      if newSelected.Has(itemId) {
        newSelected.Delete(itemId);
      } else {
        newSelected.Add(itemId);
      }
      selectedItems := newSelected;
    }

    function SelectedData(): SelectedData
      reads this, selectedItems
    {
      GetSelectedData(healthData, selectedItems.elems)
    }
  }
}
