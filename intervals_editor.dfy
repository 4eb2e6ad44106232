/** The begin/end form of the intervals editor
    (front/src/common/IntervalsEditor/IntervalsEditorCommonForm.tsx): typing a
    new position for an edge of the selected interval resizes it, repairs the
    list of intervals and moves the selection through the index mapping the
    resize returns.

    The resize and repair routines (`resizeSegment`, `fixLinearMetadataItems`)
    and the `notEmpty` guard are not part of this model: they are the
    editor's constants, of which nothing is assumed. */
module IntervalsEditor {
  import opened Common

  /** The edge an input edits (`context`). */
  datatype Edge = Begin | End

  datatype IntervalValue = NumberValue(n: real) | TextValue(s: string)

  datatype IntervalItem = IntervalItem(begin: real, end: real, value: IntervalValue)

  /** What `resizeSegment` returns: the resized list, whose removed entries
      are null (the list itself may be undefined), and the mapping from old
      to new indices, null for an interval that disappeared. */
  datatype ResizeResult = ResizeResult(
    result: Option<seq<Option<IntervalItem>>>,
    newIndexMapping: map<int, Option<int>>)

  /** `interval[context]`. */
  function EdgePosition(interval: IntervalItem, context: Edge): real {
    match context
    case Begin => interval.begin
    case End => interval.end
  }

  /** `s.filter(keep)`: the entries `keep` accepts, in order. */
  function KeepWhere(s: seq<Option<IntervalItem>>, keep: Option<IntervalItem> -> bool): (r: seq<Option<IntervalItem>>)
    ensures |r| <= |s|
    ensures forall x :: x in r <==> x in s && keep(x)
  {
    if s == [] then []
    else
      var rest := KeepWhere(s[..|s| - 1], keep);
      assert forall x :: x in s <==> x in s[..|s| - 1] || x == s[|s| - 1];
      if keep(s[|s| - 1]) then rest + [s[|s| - 1]] else rest
  }

  /** The filter keeps order: filtering a concatenation filters each part. */
  lemma {:induction false} KeepWhereAppend(a: seq<Option<IntervalItem>>, b: seq<Option<IntervalItem>>,
                                           keep: Option<IntervalItem> -> bool)
    ensures KeepWhere(a + b, keep) == KeepWhere(a, keep) + KeepWhere(b, keep)
  {
    if b != [] {
      var n := |b| - 1;
      assert (a + b)[..|a + b| - 1] == a + b[..n];
      KeepWhereAppend(a, b[..n], keep);
    } else {
      assert a + b == a;
    }
  }

  /** `result?.filter(notEmpty)`: an undefined list stays undefined. */
  function FilterNotEmpty(result: Option<seq<Option<IntervalItem>>>, notEmpty: Option<IntervalItem> -> bool)
    : (r: Option<seq<Option<IntervalItem>>>)
    ensures r.None? <==> result.None?
    ensures r.Some? ==> |r.value| <= |result.value|
                        && forall x :: x in r.value <==> x in result.value && notEmpty(x)
  {
    if result.Some? then Some(KeepWhere(result.value, notEmpty)) else None
  }

  /** The selection after a resize that produced `fixedLength` intervals.
      None stands for JavaScript's `undefined`, which the source stores when
      the mapping has no entry for the selected index. */
  function NextSelection(selected: int, fixedLength: nat, mapping: map<int, Option<int>>): (r: Option<int>)
    // a new empty first segment was created while the first one was selected
    ensures fixedLength != |mapping.Keys| && selected == 0 ==> r == Some(1)
    ensures !(fixedLength != |mapping.Keys| && selected == 0) ==>
              && (selected in mapping && mapping[selected].Some? ==> r == mapping[selected])
              && (selected in mapping && mapping[selected].None? ==> r == Some(selected))
              && (selected !in mapping ==> r == None)
  {
    if fixedLength != |mapping.Keys| && selected == 0 then Some(1)
    else if selected !in mapping then None
    else
      var newIndex := mapping[selected];
      if newIndex.Some? && newIndex.value != selected then newIndex else Some(selected)
  }

  /** A mapping that sends every surviving interval into the new list. */
  predicate MapsInto(mapping: map<int, Option<int>>, newLength: nat) {
    forall k :: k in mapping && mapping[k].Some? ==> 0 <= mapping[k].value < newLength
  }

  /** The selection keeps pointing into the repaired list whenever the
      selected interval survives (or in the corner case, when at least two
      intervals remain); only a null mapping leaves the old index as it was,
      which may then lie beyond the end of the new list. */
  lemma SelectionStaysInRange(selected: int, fixedLength: nat, mapping: map<int, Option<int>>)
    requires MapsInto(mapping, fixedLength)
    ensures fixedLength != |mapping.Keys| && selected == 0 && fixedLength >= 2
            ==> 0 <= NextSelection(selected, fixedLength, mapping).value < fixedLength
    ensures !(fixedLength != |mapping.Keys| && selected == 0) && selected in mapping && mapping[selected].Some?
            ==> var r := NextSelection(selected, fixedLength, mapping); r.Some? && 0 <= r.value < fixedLength
  {
  }

  /** A null mapping keeps an index that the repaired list no longer has. */
  lemma NullMappingMayLeaveStaleIndex()
    ensures NextSelection(2, 2, map[0 := Some(0), 1 := Some(1), 2 := None]) == Some(2)
  {
  }

  class IntervalsEditorForm {
    /** The intervals and the selected index, owned by the parent component
        (written through `setData` and `setSelectedIntervalIndex`). */
    var data: seq<IntervalItem>
    var selectedIndex: Option<int>
    /** The selected interval, a property. */
    var interval: IntervalItem
    /** The two inputs' local state. */
    var begin: real
    var end: real
    const totalLength: real
    const resizeSegment: (seq<IntervalItem>, int, real, Edge, bool) -> ResizeResult
    const fixLinearMetadataItems: (Option<seq<Option<IntervalItem>>>, real) -> seq<IntervalItem>
    const notEmpty: Option<IntervalItem> -> bool

    /** The inputs start from the interval's own edges. */
    constructor (data: seq<IntervalItem>, selectedIndex: int, interval: IntervalItem, totalLength: real,
                 resizeSegment: (seq<IntervalItem>, int, real, Edge, bool) -> ResizeResult,
                 fixLinearMetadataItems: (Option<seq<Option<IntervalItem>>>, real) -> seq<IntervalItem>,
                 notEmpty: Option<IntervalItem> -> bool)
      ensures this.data == data && this.selectedIndex == Some(selectedIndex)
      ensures this.interval == interval && this.totalLength == totalLength
      ensures this.resizeSegment == resizeSegment && this.fixLinearMetadataItems == fixLinearMetadataItems
      ensures this.notEmpty == notEmpty
      ensures begin == interval.begin && end == interval.end
    {
      this.data := data;
      this.selectedIndex := Some(selectedIndex);
      this.interval := interval;
      this.totalLength := totalLength;
      this.resizeSegment := resizeSegment;
      this.fixLinearMetadataItems := fixLinearMetadataItems;
      this.notEmpty := notEmpty;
      begin := interval.begin;
      end := interval.end;
    }

    /** The list a resize by `gap` produces: resized with neighbour resizing
        off, filtered by `notEmpty`, then repaired to the total length. */
    function ResizedData(gap: real, context: Edge): seq<IntervalItem>
      reads this
      requires selectedIndex.Some?
    {
      var resized := resizeSegment(data, selectedIndex.value, gap, context, false);
      fixLinearMetadataItems(FilterNotEmpty(resized.result, notEmpty), totalLength)
    }

    /** Moves the edited edge to `newPosition`; a zero gap changes nothing. */
    method ResizeSegmentByInput(newPosition: real, context: Edge)
      requires selectedIndex.Some?
      modifies this`data, this`selectedIndex
      ensures var gap := newPosition - EdgePosition(interval, context);
        && (gap == 0.0 ==> data == old(data) && selectedIndex == old(selectedIndex))
        && (gap != 0.0 ==>
              var resized := resizeSegment(old(data), old(selectedIndex).value, gap, context, false);
              && data == fixLinearMetadataItems(FilterNotEmpty(resized.result, notEmpty), totalLength)
              && selectedIndex == NextSelection(old(selectedIndex).value, |data|, resized.newIndexMapping))
    {
      var gap := newPosition - EdgePosition(interval, context);
      if gap != 0.0 {
        var selected := selectedIndex.value;
        var resized := resizeSegment(data, selected, gap, context, false);
        var fixedResults := fixLinearMetadataItems(FilterNotEmpty(resized.result, notEmpty), totalLength);
        data := fixedResults;
        if |fixedResults| != |resized.newIndexMapping.Keys| && selected == 0 {
          selectedIndex := Some(1);
        } else if selected !in resized.newIndexMapping {
          selectedIndex := None;
        } else {
          var newIndex := resized.newIndexMapping[selected];
          if newIndex.Some? && newIndex.value != selected {
            selectedIndex := newIndex;
          }
        }
      }
    }

    /** A new interval property resets both inputs to its edges; the effects
        that watch the inputs then see a zero gap and change nothing. */
    method SetInterval(newInterval: IntervalItem)
      requires selectedIndex.Some?
      modifies this`interval, this`begin, this`end, this`data, this`selectedIndex
      ensures interval == newInterval && begin == newInterval.begin && end == newInterval.end
      ensures data == old(data) && selectedIndex == old(selectedIndex)
    {
      var oldBegin, oldEnd := begin, end;
      interval := newInterval;
      begin := interval.begin;
      end := interval.end;
      if begin != oldBegin {
        ResizeSegmentByInput(begin, Begin);
      }
      if end != oldEnd {
        ResizeSegmentByInput(end, End);
      }
    }

    /** Typing in the begin input: when the value changes, the effect resizes
        the begin edge. */
    method TypeBegin(x: real)
      requires selectedIndex.Some?
      modifies this`begin, this`data, this`selectedIndex
      ensures begin == x
      ensures x == old(begin) ==> data == old(data) && selectedIndex == old(selectedIndex)
      ensures x != old(begin) && x != interval.begin ==>
                && data == old(ResizedData(x - interval.begin, Begin))
                && selectedIndex == NextSelection(old(selectedIndex).value, |data|,
                     resizeSegment(old(data), old(selectedIndex).value, x - interval.begin, Begin, false).newIndexMapping)
      ensures x == interval.begin ==> data == old(data) && selectedIndex == old(selectedIndex)
    {
      var changed := x != begin;
      begin := x;
      if changed {
        ResizeSegmentByInput(begin, Begin);
      }
    }

    /** Typing in the end input, likewise for the end edge. */
    method TypeEnd(x: real)
      requires selectedIndex.Some?
      modifies this`end, this`data, this`selectedIndex
      ensures end == x
      ensures x == old(end) ==> data == old(data) && selectedIndex == old(selectedIndex)
      ensures x != old(end) && x != interval.end ==>
                && data == old(ResizedData(x - interval.end, End))
                && selectedIndex == NextSelection(old(selectedIndex).value, |data|,
                     resizeSegment(old(data), old(selectedIndex).value, x - interval.end, End, false).newIndexMapping)
      ensures x == interval.end ==> data == old(data) && selectedIndex == old(selectedIndex)
    {
      var changed := x != end;
      end := x;
      if changed {
        ResizeSegmentByInput(end, End);
      }
    }
  }

  /** The bounds the two inputs are given: begin at most the interval's end;
      end between the interval's begin and the total length. */
  predicate BeginInputAdmits(interval: IntervalItem, x: real) {
    x <= interval.end
  }

  predicate EndInputAdmits(interval: IntervalItem, totalLength: real, x: real) {
    interval.begin <= x <= totalLength
  }

  /** The interval with the edge `context` shifted by `gap`, which is what
      `resizeSegment` is asked to make of the selected interval. */
  function MoveEdge(interval: IntervalItem, context: Edge, gap: real): (r: IntervalItem)
    ensures EdgePosition(r, context) == EdgePosition(interval, context) + gap
    ensures context == Begin ==> r.end == interval.end
    ensures context == End ==> r.begin == interval.begin
    ensures r.value == interval.value
  {
    match context
    case Begin => interval.(begin := interval.begin + gap)
    case End => interval.(end := interval.end + gap)
  }

  /** On a well-formed interval the inputs admit the interval's own edges,
      the values they are reset to. Whatever value an input admits, the
      resize request it leads to (the edge moved by the gap `TypeBegin` and
      `TypeEnd` compute) puts that edge on the typed value and keeps the
      interval's begin before its end, and its end within the total length
      when it is the end that moves. */
  lemma InputBoundsAdmitReset(interval: IntervalItem, totalLength: real)
    requires interval.begin <= interval.end <= totalLength
    ensures BeginInputAdmits(interval, interval.begin)
    ensures EndInputAdmits(interval, totalLength, interval.end)
    ensures forall x :: BeginInputAdmits(interval, x) ==>
              var m := MoveEdge(interval, Begin, x - EdgePosition(interval, Begin));
              m.begin == x && m.begin <= m.end && m.end == interval.end
    ensures forall x :: EndInputAdmits(interval, totalLength, x) ==>
              var m := MoveEdge(interval, End, x - EdgePosition(interval, End));
              m.end == x && m.begin <= m.end <= totalLength && m.begin == interval.begin
  {
  }
}
