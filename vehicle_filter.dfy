/**
 * The vehicle filter panel: a list of vehicles with a `selected` flag, a
 * visibility flag, and three outputs. Each handler builds a new list with a
 * pure element-wise map and replaces the old one.
 */
module VehicleFilter {
  datatype Vehicle = Vehicle(id: string, name: string, color: string, selected: bool)

  /** An event sent on one of the component's outputs. */
  datatype Output =
    | VehicleToggled(vehicleId: string)
    | AllVehiclesToggled(selected: bool)
    | DeselectAllClicked

  /** The vehicle with `selected` negated. */
  function Flip(v: Vehicle): Vehicle {
    v.(selected := !v.selected)
  }

  /**
   * The list with `selected` flipped on every vehicle whose id is `id`: the
   * length, the order and every other vehicle are unchanged.
   */
  function ToggleVehicle(vs: seq<Vehicle>, id: string): (r: seq<Vehicle>)
    ensures |r| == |vs|
    ensures forall i :: 0 <= i < |vs| && vs[i].id == id ==> r[i] == Flip(vs[i])
    ensures forall i :: 0 <= i < |vs| && vs[i].id != id ==> r[i] == vs[i]
    decreases |vs|
  {
    if |vs| == 0 then []
    else
      var last := vs[|vs| - 1];
      ToggleVehicle(vs[..|vs| - 1], id) + [if last.id == id then Flip(last) else last]
  }

  /** The list with every `selected` flag set to `b`, all other fields kept. */
  function SetAll(vs: seq<Vehicle>, b: bool): (r: seq<Vehicle>)
    ensures |r| == |vs|
    ensures forall i :: 0 <= i < |vs| ==> r[i] == vs[i].(selected := b)
    decreases |vs|
  {
    if |vs| == 0 then []
    else SetAll(vs[..|vs| - 1], b) + [vs[|vs| - 1].(selected := b)]
  }

  /** `every(v => v.selected)`. */
  predicate AllSelected(vs: seq<Vehicle>) {
    forall i :: 0 <= i < |vs| ==> vs[i].selected
  }

  /** `filter(v => v.selected).length`: never more than the list length. */
  function SelectedCount(vs: seq<Vehicle>): (n: nat)
    ensures n <= |vs|
    decreases |vs|
  {
    if |vs| == 0 then 0
    else SelectedCount(vs[..|vs| - 1]) + (if vs[|vs| - 1].selected then 1 else 0)
  }

  /** All vehicles are selected exactly when every one of them is counted. */
  lemma {:induction false} AllSelectedIffFullCount(vs: seq<Vehicle>)
    ensures AllSelected(vs) <==> SelectedCount(vs) == |vs|
    decreases |vs|
  {
    if |vs| > 0 {
      var init := vs[..|vs| - 1];
      AllSelectedIffFullCount(init);
      assert forall i :: 0 <= i < |init| ==> init[i] == vs[i];
      if !vs[|vs| - 1].selected {
        assert SelectedCount(vs) == SelectedCount(init) <= |init|;
      }
    }
  }

  /** The count after setting every flag: zero for `false`, the whole list for `true`. */
  lemma {:induction false} SetAllCount(vs: seq<Vehicle>, b: bool)
    ensures SelectedCount(SetAll(vs, b)) == if b then |vs| else 0
    decreases |vs|
  {
    if |vs| > 0 {
      var r := SetAll(vs, b);
      SetAllCount(vs[..|vs| - 1], b);
      assert r[..|r| - 1] == SetAll(vs[..|vs| - 1], b);
    }
  }

  /** Toggling the same id twice restores the list. */
  lemma ToggleTwice(vs: seq<Vehicle>, id: string)
    ensures ToggleVehicle(ToggleVehicle(vs, id), id) == vs
  {
  }

  /**
   * With distinct ids, toggling the id of the vehicle at `k` changes the
   * count by exactly one: down if it was selected, up otherwise.
   */
  lemma {:induction false} ToggleChangesCountByOne(vs: seq<Vehicle>, k: nat)
    requires k < |vs|
    requires forall i, j :: 0 <= i < j < |vs| ==> vs[i].id != vs[j].id
    ensures SelectedCount(ToggleVehicle(vs, vs[k].id)) ==
      if vs[k].selected then SelectedCount(vs) - 1 else SelectedCount(vs) + 1
    decreases |vs|
  {
    var id := vs[k].id;
    var r := ToggleVehicle(vs, id);
    var init := vs[..|vs| - 1];
    assert r[..|r| - 1] == ToggleVehicle(init, id);
    if k == |vs| - 1 {
      forall i | 0 <= i < |init|
        ensures ToggleVehicle(init, id)[i] == init[i]
      {
        assert init[i] == vs[i];
      }
      assert ToggleVehicle(init, id) == init;
    } else {
      assert init[k] == vs[k];
      ToggleChangesCountByOne(init, k);
      assert vs[|vs| - 1].id != id;
    }
  }

  /** The ten sample vehicles the panel starts with. */
  function InitialVehicles(): seq<Vehicle> {
    [ Vehicle("4532550600", "4532550600", "#e74c3c", true),
      Vehicle("4631320935", "4631320935", "#3498db", true),
      Vehicle("alex-quintero", "Alex Quintero", "#9b59b6", true),
      Vehicle("andyR", "AndyR (Tom Savage2)", "#f39c12", true),
      Vehicle("angelas-duster", "Angela's Duster", "#2ecc71", true),
      Vehicle("bar-navarro", "Bar (Rosemary Navarro)", "#e67e22", true),
      Vehicle("barry-mccormack", "Barry McCormack", "#1abc9c", true),
      Vehicle("bills-focus", "Bill's Focus", "#34495e", true),
      Vehicle("colin-smith", "Colin Smith", "#8e44ad", true),
      Vehicle("conors-bmw", "Conor's BMW", "#27ae60", true) ]
  }

  /** The initial list has ten vehicles with distinct ids, all selected. */
  lemma InitialVehiclesShape()
    ensures |InitialVehicles()| == 10
    ensures forall i, j :: 0 <= i < j < 10 ==> InitialVehicles()[i].id != InitialVehicles()[j].id
    ensures AllSelected(InitialVehicles())
    ensures SelectedCount(InitialVehicles()) == 10
  {
    var vs := InitialVehicles();
    forall i, j | 0 <= i < j < 10
      ensures vs[i].id != vs[j].id
    {
      assert vs[i].id[..2] != vs[j].id[..2] || vs[i].id[2] != vs[j].id[2] || vs[i].id[3] != vs[j].id[3];
    }
    AllSelectedIffFullCount(vs);
  }

  class VehicleFilterComponent {
    var showVehicles: bool
    var vehicles: seq<Vehicle>
    /** Every event sent on the outputs so far, oldest first. */
    var emitted: seq<Output>

    constructor ()
      ensures showVehicles && vehicles == InitialVehicles() && emitted == []
    {
      showVehicles := true;
      vehicles := InitialVehicles();
      emitted := [];
    }

    /** The computed `allVehiclesSelected`: true exactly when every vehicle is counted as selected. */
    predicate AllVehiclesSelected()
      reads this
      ensures AllVehiclesSelected() <==> SelectedCount(vehicles) == |vehicles|
    {
      AllSelectedIffFullCount(vehicles);
      AllSelected(vehicles)
    }

    /** The computed `selectedCount`: never more than the number of vehicles. */
    function SelectedVehicleCount(): (n: nat)
      reads this
      ensures n <= |vehicles|
      ensures n == |vehicles| <==> AllSelected(vehicles)
    {
      AllSelectedIffFullCount(vehicles);
      SelectedCount(vehicles)
    }

    /** Flips the vehicles with id `id` and emits `vehicleToggled(id)`. */
    method OnToggleVehicle(id: string)
      modifies this
      ensures vehicles == ToggleVehicle(old(vehicles), id)
      ensures emitted == old(emitted) + [VehicleToggled(id)]
      ensures showVehicles == old(showVehicles)
    {
      vehicles := ToggleVehicle(vehicles, id);
      emitted := emitted + [VehicleToggled(id)];
    }

    /**
     * Sets every vehicle to the negation of `allVehiclesSelected` and emits
     * that value: all off when all were on, otherwise all on.
     */
    method OnToggleAllVehicles()
      modifies this
      ensures vehicles == SetAll(old(vehicles), !AllSelected(old(vehicles)))
      ensures emitted == old(emitted) + [AllVehiclesToggled(!AllSelected(old(vehicles)))]
      ensures AllSelected(old(vehicles)) ==> SelectedVehicleCount() == 0
      ensures !AllSelected(old(vehicles)) ==> AllVehiclesSelected()
      ensures showVehicles == old(showVehicles)
    {
      var newSelectionState := !AllSelected(vehicles);
      SetAllCount(vehicles, newSelectionState);
      vehicles := SetAll(vehicles, newSelectionState);
      emitted := emitted + [AllVehiclesToggled(newSelectionState)];
    }

    /** Unselects every vehicle and emits `deselectAllClicked`. */
    method OnDeselectAll()
      modifies this
      ensures vehicles == SetAll(old(vehicles), false)
      ensures SelectedVehicleCount() == 0
      ensures emitted == old(emitted) + [DeselectAllClicked]
      ensures showVehicles == old(showVehicles)
    {
      SetAllCount(vehicles, false);
      vehicles := SetAll(vehicles, false);
      emitted := emitted + [DeselectAllClicked];
    }

    /** Negates `showVehicles`; nothing else changes and nothing is emitted. */
    method ToggleVisibility()
      modifies this
      ensures showVehicles == !old(showVehicles)
      ensures vehicles == old(vehicles) && emitted == old(emitted)
    {
      showVehicles := !showVehicles;
    }
  }
}
