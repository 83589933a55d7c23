/**
 * The title widget: two fixed lists of options with a `selected` flag. A
 * toggle looks the id up in the first list and then in the second, flips the
 * first option found in place, and emits the id.
 */
module TitleWidget {
  import opened Wrappers

  datatype WidgetOption = WidgetOption(id: string, text: string, selected: bool)

  /** The index of the first option with id `id`, if any. */
  function FindFirst(os: seq<WidgetOption>, id: string): (r: Option<nat>)
    ensures r.Some? ==> r.value < |os| && os[r.value].id == id
    ensures r.Some? ==> forall j :: 0 <= j < r.value ==> os[j].id != id
    ensures r.None? ==> forall j :: 0 <= j < |os| ==> os[j].id != id
    decreases |os|
  {
    if |os| == 0 then None
    else if os[0].id == id then Some(0)
    else
      var rest := FindFirst(os[1..], id);
      if rest.Some? then Some(rest.value + 1) else None
  }

  /** The options after a toggle of `id`: the first match flipped, or unchanged when there is none. */
  function ToggleOption(os: seq<WidgetOption>, id: string): seq<WidgetOption> {
    var found := FindFirst(os, id);
    if found.Some? then
      os[found.value := os[found.value].(selected := !os[found.value].selected)]
    else os
  }

  /** A found id flips that option and no other; every id and text stays. */
  lemma ToggleOptionFrame(os: seq<WidgetOption>, id: string)
    ensures |ToggleOption(os, id)| == |os|
    ensures forall j :: 0 <= j < |os| ==>
      ToggleOption(os, id)[j].id == os[j].id && ToggleOption(os, id)[j].text == os[j].text
    ensures FindFirst(os, id).None? ==> ToggleOption(os, id) == os
    ensures FindFirst(os, id).Some? ==>
      var k := FindFirst(os, id).value;
      && ToggleOption(os, id)[k].selected == !os[k].selected
      && forall j :: 0 <= j < |os| && j != k ==> ToggleOption(os, id)[j] == os[j]
  {
  }

  /** Two options lists with the same ids at every position find the same index. */
  lemma {:induction false} FindFirstSameIds(os: seq<WidgetOption>, ps: seq<WidgetOption>, id: string)
    requires |os| == |ps|
    requires forall j :: 0 <= j < |os| ==> os[j].id == ps[j].id
    ensures FindFirst(os, id) == FindFirst(ps, id)
    decreases |os|
  {
    if |os| > 0 && os[0].id != id {
      FindFirstSameIds(os[1..], ps[1..], id);
    }
  }

  /** Toggling the same id twice restores the original flags. */
  lemma ToggleOptionTwice(os: seq<WidgetOption>, id: string)
    ensures ToggleOption(ToggleOption(os, id), id) == os
  {
    ToggleOptionFrame(os, id);
    FindFirstSameIds(ToggleOption(os, id), os, id);
  }

  /** The two option lists the widget starts with. */
  function InitialWidgetOptions(): seq<WidgetOption> {
    [ WidgetOption("vehicle-path", "Vehicle Path (Vehicle history)", true),
      WidgetOption("vehicle-speeding", "Vehicle speeding", false) ]
  }

  function InitialAdditionalOptions(): seq<WidgetOption> {
    [ WidgetOption("roadside-inspections", "Roadside Inspections provision (FMCSA)", false) ]
  }

  /** Initially the three options have distinct ids and only `vehicle-path` is selected. */
  lemma InitialOptionsShape()
    ensures var os := InitialWidgetOptions() + InitialAdditionalOptions();
      && |os| == 3
      && (forall i, j :: 0 <= i < j < 3 ==> os[i].id != os[j].id)
      && (forall i :: 0 <= i < 3 ==> (os[i].selected <==> os[i].id == "vehicle-path"))
  {
    var os := InitialWidgetOptions() + InitialAdditionalOptions();
    assert os[0].id[8] != os[1].id[8];
    assert os[0].id[0] != os[2].id[0];
    assert os[1].id[0] != os[2].id[0];
  }

  class TitleWidgetComponent {
    const widgetOptions: array<WidgetOption>
    const additionalOptions: array<WidgetOption>
    /** The ids sent on `optionToggled`, oldest first. */
    var emitted: seq<string>

    ghost predicate Valid()
      reads this
    {
      widgetOptions != additionalOptions
    }

    /** `[...widgetOptions, ...additionalOptions]`. */
    function Options(): seq<WidgetOption>
      reads this, widgetOptions, additionalOptions
    {
      widgetOptions[..] + additionalOptions[..]
    }

    constructor ()
      ensures Valid()
      ensures widgetOptions[..] == InitialWidgetOptions()
      ensures additionalOptions[..] == InitialAdditionalOptions()
      ensures emitted == []
    {
      var w := new WidgetOption[2];
      w[0], w[1] := InitialWidgetOptions()[0], InitialWidgetOptions()[1];
      var a := new WidgetOption[1];
      a[0] := InitialAdditionalOptions()[0];
      widgetOptions := w;
      additionalOptions := a;
      emitted := [];
    }

    /**
     * Flips the first option with id `optionId` in place and emits the id;
     * an unknown id changes nothing and emits nothing.
     */
    method OnOptionToggle(optionId: string)
      requires Valid()
      modifies this, widgetOptions, additionalOptions
      ensures Valid()
      ensures Options() == ToggleOption(old(Options()), optionId)
      ensures emitted == old(emitted) + (if FindFirst(old(Options()), optionId).Some? then [optionId] else [])
    {
      ghost var os := Options();
      var i := 0;
      while i < widgetOptions.Length
        invariant 0 <= i <= widgetOptions.Length
        invariant forall j :: 0 <= j < i ==> widgetOptions[j].id != optionId
      {
        if widgetOptions[i].id == optionId {
          assert os[i] == widgetOptions[i];
          assert FindFirst(os, optionId) == Some(i) by {
            FirstMatch(os, optionId, i);
          }
          widgetOptions[i] := widgetOptions[i].(selected := !widgetOptions[i].selected);
          emitted := emitted + [optionId];
          assert Options() == os[i := os[i].(selected := !os[i].selected)];
          return;
        }
        i := i + 1;
      }
      i := 0;
      while i < additionalOptions.Length
        invariant 0 <= i <= additionalOptions.Length
        invariant forall j :: 0 <= j < i ==> additionalOptions[j].id != optionId
      {
        if additionalOptions[i].id == optionId {
          var k := widgetOptions.Length + i;
          assert os[k] == additionalOptions[i];
          assert FindFirst(os, optionId) == Some(k) by {
            FirstMatch(os, optionId, k);
          }
          additionalOptions[i] := additionalOptions[i].(selected := !additionalOptions[i].selected);
          emitted := emitted + [optionId];
          assert Options() == os[k := os[k].(selected := !os[k].selected)];
          return;
        }
        i := i + 1;
      }
      assert forall j :: 0 <= j < |os| ==> os[j].id != optionId;
    }
  }

  /** An index holding `id` with no earlier match is the one `FindFirst` returns. */
  lemma {:induction false} FirstMatch(os: seq<WidgetOption>, id: string, k: nat)
    requires k < |os| && os[k].id == id
    requires forall j :: 0 <= j < k ==> os[j].id != id
    ensures FindFirst(os, id) == Some(k)
    decreases k
  {
    if k > 0 {
      FirstMatch(os[1..], id, k - 1);
    }
  }
}
