/**
 * The time timeline: seven options at fixed hour offsets from now, a
 * selected offset (initially 0, "now"), and an output that reports every
 * selection.
 */
module TimeTimeline {
  datatype TimelineOption = TimelineOption(id: string, text: string, value: int)

  /** The seven options, from 24 hours back to 24 hours ahead. */
  function TimelineOptions(): seq<TimelineOption> {
    [ TimelineOption("minus24h", "-24h", -24),
      TimelineOption("minus16h", "-16h", -16),
      TimelineOption("minus8h", "-8h", -8),
      TimelineOption("now", "Now", 0),
      TimelineOption("plus8h", "+8h", 8),
      TimelineOption("plus16h", "+16h", 16),
      TimelineOption("plus24h", "+24h", 24) ]
  }

  /** The positions of the options that show as selected for `selectedTime`. */
  function SelectedIndices(os: seq<TimelineOption>, selectedTime: int): set<nat> {
    set i: nat | i < |os| && os[i].value == selectedTime
  }

  predicate DistinctValues(os: seq<TimelineOption>) {
    forall i, j :: 0 <= i < j < |os| ==> os[i].value != os[j].value
  }

  /** The option values are pairwise distinct and strictly increasing. */
  lemma TimelineValuesIncrease()
    ensures forall i, j :: 0 <= i < j < |TimelineOptions()| ==> TimelineOptions()[i].value < TimelineOptions()[j].value
    ensures DistinctValues(TimelineOptions())
  {
  }

  /**
   * With distinct values, selecting the value of the option at `k` makes
   * that option, and no other, show as selected.
   */
  lemma ExactlyOneSelected(os: seq<TimelineOption>, k: nat)
    requires k < |os| && DistinctValues(os)
    ensures SelectedIndices(os, os[k].value) == {k}
  {
    assert forall i :: 0 <= i < |os| && i != k ==> os[i].value != os[k].value;
  }

  /** Initially `selectedTime` is 0, so exactly the `now` option is selected. */
  lemma InitiallyNowSelected()
    ensures SelectedIndices(TimelineOptions(), 0) == {3}
    ensures TimelineOptions()[3].id == "now"
  {
    ExactlyOneSelected(TimelineOptions(), 3);
  }

  class TimeTimelineComponent {
    var selectedTime: int
    const timelineOptions: seq<TimelineOption>
    /** The values sent on `timeSelected`, oldest first. */
    var emitted: seq<int>

    constructor ()
      ensures selectedTime == 0 && timelineOptions == TimelineOptions() && emitted == []
      ensures SelectedIndices(timelineOptions, selectedTime) == {3}
    {
      selectedTime := 0;
      timelineOptions := TimelineOptions();
      emitted := [];
      new;
      InitiallyNowSelected();
    }

    /** `isSelected(option)`: whether the option's value is the selected one. */
    predicate IsSelected(o: TimelineOption)
      reads this
    {
      selectedTime == o.value
    }

    /**
     * Selects `o`'s offset and emits it; when `o` is one of the options,
     * exactly that option shows as selected afterwards.
     */
    method OnTimeSelect(o: TimelineOption)
      modifies this
      ensures selectedTime == o.value
      ensures emitted == old(emitted) + [o.value]
      ensures IsSelected(o)
      ensures forall k :: 0 <= k < |timelineOptions| && timelineOptions[k] == o && DistinctValues(timelineOptions) ==>
        SelectedIndices(timelineOptions, selectedTime) == {k}
    {
      selectedTime := o.value;
      emitted := emitted + [o.value];
      forall k | 0 <= k < |timelineOptions| && timelineOptions[k] == o && DistinctValues(timelineOptions)
        ensures SelectedIndices(timelineOptions, selectedTime) == {k}
      {
        ExactlyOneSelected(timelineOptions, k);
      }
    }
  }
}
