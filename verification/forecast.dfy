/**
 The forecast transformer of `getTaipeiWeather`: it turns the element-keyed
 series of one upstream location into a flat, index-ordered list of forecast
 slots.

 Each upstream weather element has a name and a time series. Slot `i` takes its
 start and end times from element 0's `i`-th entry; every element that has an
 `i`-th entry then writes its parameter into the field its name selects, in
 list order, so a later element overwrites an earlier one of the same name.
 */
module Forecast {
  import opened Wrappers

  /** One entry of an element's time series; `parameterName` is the value. */
  datatype TimeEntry = TimeEntry(startTime: string, endTime: string, parameterName: string)

  /** A named upstream series. A `None` entry is a hole (a null or undefined
      array slot); an index at or past the end of `time` is absent as well. */
  datatype Element = Element(elementName: string, time: seq<Option<TimeEntry>>)

  /** One output forecast record. */
  datatype Slot = Slot(
    startTime: string,
    endTime: string,
    weather: string,
    rain: string,
    minTemp: string,
    maxTemp: string,
    comfort: string)

  const Wx: string := "Wx"
  const PoP: string := "PoP"
  const MinT: string := "MinT"
  const MaxT: string := "MaxT"
  const CI: string := "CI"

  /** The element names the transformer understands; all others are ignored. */
  const ForecastNames: set<string> := {Wx, PoP, MinT, MaxT, CI}

  /** The entry of `e` at index `i`, absent when past the end or a hole. */
  function EntryAt(e: Element, i: nat): Option<TimeEntry> {
    if i < |e.time| then e.time[i] else None
  }

  /** True when every index of `e`'s series holds an entry. */
  predicate Complete(e: Element) {
    forall j :: 0 <= j < |e.time| ==> e.time[j].Some?
  }

  /** The number of slots the loop runs over: the length of element 0's series. */
  function TimeCount(es: seq<Element>): nat {
    if |es| == 0 then 0 else |es[0].time|
  }

  /** The field of `s` that an element named `name` writes. */
  function FieldOf(s: Slot, name: string): string
    requires name in ForecastNames
  {
    if name == Wx then s.weather
    else if name == PoP then s.rain
    else if name == MinT then s.minTemp
    else if name == MaxT then s.maxTemp
    else s.comfort
  }

  /** How a parameter value appears in its field: a PoP value gains a literal
      percent sign, every other value is copied unchanged. */
  function Rendered(name: string, v: string): string {
    if name == PoP then v + "%" else v
  }

  /** A fresh slot for `t`: its times, and every field the empty string. */
  function Blank(t: TimeEntry): Slot {
    Slot(t.startTime, t.endTime, "", "", "", "", "")
  }

  /** One pass of the per-element callback: if `e` has an entry at `i`, the
      field selected by `e`'s name receives the rendered parameter. */
  function ApplyElement(s: Slot, e: Element, i: nat): (r: Slot)
    ensures r.startTime == s.startTime && r.endTime == s.endTime
    ensures forall n :: n in ForecastNames ==>
      FieldOf(r, n) ==
        (if e.elementName == n && EntryAt(e, i).Some?
         then Rendered(n, EntryAt(e, i).value.parameterName)
         else FieldOf(s, n))
  {
    match EntryAt(e, i)
    case None => s
    case Some(t) =>
      var v := t.parameterName;
      if e.elementName == Wx then s.(weather := v)
      else if e.elementName == PoP then s.(rain := v + "%")
      else if e.elementName == MinT then s.(minTemp := v)
      else if e.elementName == MaxT then s.(maxTemp := v)
      else if e.elementName == CI then s.(comfort := v)
      else s
  }

  /** The `forEach` over all elements, in list order, for index `i`. It keeps
      the slot's times; its effect on the fields is `FoldIsOverlay`. */
  function FoldElements(s: Slot, es: seq<Element>, i: nat): (r: Slot)
    ensures r.startTime == s.startTime && r.endTime == s.endTime
    decreases |es|
  {
    if |es| == 0 then s else FoldElements(ApplyElement(s, es[0], i), es[1..], i)
  }

  /** Slot `i` as the loop body assembles it; its times are element 0's
      `i`-th, whatever the other elements hold. */
  function SlotAt(es: seq<Element>, i: nat): (r: Slot)
    requires |es| > 0 && i < |es[0].time| && es[0].time[i].Some?
    ensures r.startTime == es[0].time[i].value.startTime
    ensures r.endTime == es[0].time[i].value.endTime
  {
    FoldElements(Blank(es[0].time[i].value), es, i)
  }

  /** The loop from index `i` to the end of element 0's series. A hole in
      element 0 makes the source dereference an undefined entry, which throws;
      that is `None` here. */
  function SlotsFrom(es: seq<Element>, i: nat): (r: Option<seq<Slot>>)
    requires |es| > 0 && i <= |es[0].time|
    ensures r.Some? <==> forall j :: i <= j < |es[0].time| ==> es[0].time[j].Some?
    ensures r.Some? ==> |r.value| == |es[0].time| - i
    ensures r.Some? ==> forall j :: 0 <= j < |r.value| ==>
      es[0].time[i + j].Some? && r.value[j] == SlotAt(es, i + j)
    decreases |es[0].time| - i
  {
    if i == |es[0].time| then Some([])
    else match es[0].time[i]
      case None => None
      case Some(_) =>
        match SlotsFrom(es, i + 1)
        case None => None
        case Some(rest) => Some([SlotAt(es, i)] + rest)
  }

  /** The whole transform: an empty element list gives no slots; otherwise one
      slot per entry of element 0, or `None` when the loop throws. */
  function Transform(es: seq<Element>): (r: Option<seq<Slot>>)
    ensures r.Some? <==> (|es| == 0 || Complete(es[0]))
    ensures r.Some? ==> |r.value| == TimeCount(es)
    ensures |es| == 0 ==> r == Some([])
  {
    if |es| == 0 then Some([]) else SlotsFrom(es, 0)
  }

  // ---------------------------------------------------------------------------
  // Reference definition: a field's value is decided by the LAST element that
  // carries that name and has an entry at the index.

  /** True when `e` would write the field of `name` at index `i`. */
  predicate Supplies(e: Element, name: string, i: nat) {
    e.elementName == name && EntryAt(e, i).Some?
  }

  /** The position of the last element of `es` that supplies `name` at `i`. */
  function LastSupplier(es: seq<Element>, name: string, i: nat): (r: Option<nat>)
    ensures r.Some? ==>
      && r.value < |es|
      && Supplies(es[r.value], name, i)
      && forall k :: r.value < k < |es| ==> !Supplies(es[k], name, i)
    ensures r.None? ==> forall k :: 0 <= k < |es| ==> !Supplies(es[k], name, i)
    decreases |es|
  {
    if |es| == 0 then None
    else if Supplies(es[|es| - 1], name, i) then Some(|es| - 1)
    else LastSupplier(es[..|es| - 1], name, i)
  }

  /** The value the field of `name` holds at `i` after starting from `d`. */
  function Pick(d: string, es: seq<Element>, name: string, i: nat): string {
    match LastSupplier(es, name, i)
    case Some(k) => Rendered(name, EntryAt(es[k], i).value.parameterName)
    case None => d
  }

  /** The reference value of the field of `name` in slot `i`. */
  function Field(es: seq<Element>, name: string, i: nat): string {
    Pick("", es, name, i)
  }

  /** `s` with each field replaced by the value its last supplier dictates. */
  function Overlay(s: Slot, es: seq<Element>, i: nat): Slot {
    Slot(s.startTime, s.endTime,
      Pick(s.weather, es, Wx, i),
      Pick(s.rain, es, PoP, i),
      Pick(s.minTemp, es, MinT, i),
      Pick(s.maxTemp, es, MaxT, i),
      Pick(s.comfort, es, CI, i))
  }

  // ---------------------------------------------------------------------------
  // The loop agrees with the reference definition.

  /** Folding over `a + b` is folding over `a`, then over `b`. */
  lemma {:induction false} FoldAppend(s: Slot, a: seq<Element>, b: seq<Element>, i: nat)
    ensures FoldElements(s, a + b, i) == FoldElements(FoldElements(s, a, i), b, i)
    decreases |a|
  {
    if |a| == 0 {
      assert a + b == b;
    } else {
      assert (a + b)[1..] == a[1..] + b;
      FoldAppend(ApplyElement(s, a[0], i), a[1..], b, i);
    }
  }

  /** Adding an element at the end changes a field only if it supplies it. */
  lemma PickSnoc(d: string, init: seq<Element>, e: Element, n: string, i: nat)
    ensures Pick(d, init + [e], n, i) ==
      if Supplies(e, n, i) then Rendered(n, EntryAt(e, i).value.parameterName) else Pick(d, init, n, i)
  {
    var es := init + [e];
    assert es[..|es| - 1] == init;
  }

  /** Overlaying a list that ends in `e` is overlaying the rest, then applying `e`. */
  lemma OverlaySnoc(s: Slot, init: seq<Element>, e: Element, i: nat)
    ensures Overlay(s, init + [e], i) == ApplyElement(Overlay(s, init, i), e, i)
  {
    PickSnoc(s.weather, init, e, Wx, i);
    PickSnoc(s.rain, init, e, PoP, i);
    PickSnoc(s.minTemp, init, e, MinT, i);
    PickSnoc(s.maxTemp, init, e, MaxT, i);
    PickSnoc(s.comfort, init, e, CI, i);
  }

  /** Folding over a list is the overlay of its last suppliers onto the start. */
  lemma {:induction false} FoldIsOverlay(s: Slot, es: seq<Element>, i: nat)
    ensures FoldElements(s, es, i) == Overlay(s, es, i)
    decreases |es|
  {
    if |es| > 0 {
      var init := es[..|es| - 1];
      var e := es[|es| - 1];
      assert init + [e] == es;
      FoldAppend(s, init, [e], i);
      FoldIsOverlay(s, init, i);
      OverlaySnoc(s, init, e, i);
    }
  }

  /** Slot `i` of a successful transform: times from element 0's `i`-th entry,
      and every field equal to its reference value (PoP with its percent sign). */
  lemma TransformMatchesReference(es: seq<Element>, i: nat)
    requires Transform(es).Some? && i < |Transform(es).value|
    ensures |es| > 0 && i < |es[0].time| && es[0].time[i].Some?
    ensures var s := Transform(es).value[i];
      && s.startTime == es[0].time[i].value.startTime
      && s.endTime == es[0].time[i].value.endTime
      && s.weather == Field(es, Wx, i)
      && s.rain == Field(es, PoP, i)
      && s.minTemp == Field(es, MinT, i)
      && s.maxTemp == Field(es, MaxT, i)
      && s.comfort == Field(es, CI, i)
  {
    FoldIsOverlay(Blank(es[0].time[i].value), es, i);
  }

  /** The same, one field at a time: the field of `n` in slot `i` is the
      reference value of `n` at `i`. */
  lemma TransformFieldOf(es: seq<Element>, i: nat, n: string)
    requires Transform(es).Some? && i < |Transform(es).value| && n in ForecastNames
    ensures FieldOf(Transform(es).value[i], n) == Field(es, n, i)
  {
    TransformMatchesReference(es, i);
    var s := Transform(es).value[i];
    if n == Wx {
      assert FieldOf(s, n) == s.weather;
    } else if n == PoP {
      assert FieldOf(s, n) == s.rain;
    } else if n == MinT {
      assert FieldOf(s, n) == s.minTemp;
    } else if n == MaxT {
      assert FieldOf(s, n) == s.maxTemp;
    } else {
      assert FieldOf(s, n) == s.comfort;
    }
  }
}
