/**
 Properties of the forecast transformer: where the slot count and times come
 from, which element decides each field, and how local the effect of a missing
 entry or an extra element is.
 */
module ForecastProperties {
  import opened Wrappers
  import opened Forecast

  /** `es` with the `i`-th entry of element `k` turned into a hole. */
  function Punch(es: seq<Element>, k: nat, i: nat): (r: seq<Element>)
    requires k < |es| && i < |es[k].time|
    ensures |r| == |es|
    ensures forall m :: 0 <= m < |es| && m != k ==> r[m] == es[m]
    ensures r[k].elementName == es[k].elementName && EntryAt(r[k], i) == None
    ensures forall j: nat :: j != i ==> EntryAt(r[k], j) == EntryAt(es[k], j)
  {
    es[k := es[k].(time := es[k].time[i := None])]
  }

  /** Two lists whose elements supply `name` at `i` at the same positions,
      with the same entries, give the field of `name` the same value. */
  lemma SameSuppliersSameField(es: seq<Element>, es': seq<Element>, name: string, i: nat)
    requires |es| == |es'|
    requires forall m :: 0 <= m < |es| ==> (Supplies(es[m], name, i) <==> Supplies(es'[m], name, i))
    requires forall m :: 0 <= m < |es| && Supplies(es[m], name, i) ==> EntryAt(es[m], i) == EntryAt(es'[m], i)
    ensures LastSupplier(es, name, i) == LastSupplier(es', name, i)
    ensures Field(es, name, i) == Field(es', name, i)
  {
  }

  /** The slot count and the slot times depend on element 0 alone: elements
      after it, whatever the length of their series, change neither. */
  lemma OtherElementsKeepCount(es: seq<Element>, es': seq<Element>)
    requires |es| > 0 && |es'| > 0 && es[0] == es'[0]
    ensures Transform(es).Some? <==> Transform(es').Some?
    ensures Transform(es).Some? ==>
      && |Transform(es).value| == |Transform(es').value| == |es[0].time|
      && forall i :: 0 <= i < |es[0].time| ==>
           && Transform(es).value[i].startTime == Transform(es').value[i].startTime
           && Transform(es).value[i].endTime == Transform(es').value[i].endTime
  {
    if Transform(es).Some? {
      forall i | 0 <= i < |es[0].time|
        ensures Transform(es).value[i].startTime == Transform(es').value[i].startTime
        ensures Transform(es).value[i].endTime == Transform(es').value[i].endTime
      {
        TransformMatchesReference(es, i);
        TransformMatchesReference(es', i);
      }
    }
  }

  /** The last element that carries `n` and has an entry at `i` decides the
      field: a PoP value gains "%", every other value is copied unchanged. */
  lemma LastSupplierDecides(es: seq<Element>, i: nat, k: nat, n: string)
    requires Transform(es).Some? && i < |Transform(es).value|
    requires n in ForecastNames && k < |es| && Supplies(es[k], n, i)
    requires forall m :: k < m < |es| ==> !Supplies(es[m], n, i)
    ensures n == PoP ==> FieldOf(Transform(es).value[i], n) == es[k].time[i].value.parameterName + "%"
    ensures n != PoP ==> FieldOf(Transform(es).value[i], n) == es[k].time[i].value.parameterName
  {
    TransformMatchesReference(es, i);
    assert LastSupplier(es, n, i) == Some(k);
  }

  /** A field is empty when no element with its name has an entry at `i`. */
  lemma AbsentSupplierBlank(es: seq<Element>, i: nat, n: string)
    requires Transform(es).Some? && i < |Transform(es).value|
    requires n in ForecastNames
    requires forall m :: 0 <= m < |es| ==> !Supplies(es[m], n, i)
    ensures FieldOf(Transform(es).value[i], n) == ""
  {
    TransformFieldOf(es, i, n);
    assert LastSupplier(es, n, i).None?;
  }

  /** An element missing from the list leaves its field empty in every slot. */
  lemma MissingElementBlank(es: seq<Element>, n: string)
    requires Transform(es).Some? && n in ForecastNames
    requires forall m :: 0 <= m < |es| ==> es[m].elementName != n
    ensures forall i :: 0 <= i < |Transform(es).value| ==> FieldOf(Transform(es).value[i], n) == ""
  {
    forall i | 0 <= i < |Transform(es).value|
      ensures FieldOf(Transform(es).value[i], n) == ""
    {
      AbsentSupplierBlank(es, i, n);
    }
  }

  /** The rain field is empty exactly when no PoP entry exists at that index;
      a present PoP entry always yields a non-empty, percent-suffixed value. */
  lemma RainEmptyIffNoPoP(es: seq<Element>, i: nat)
    requires Transform(es).Some? && i < |Transform(es).value|
    ensures Transform(es).value[i].rain == "" <==>
      forall m :: 0 <= m < |es| ==> !Supplies(es[m], PoP, i)
  {
    TransformMatchesReference(es, i);
    var last := LastSupplier(es, PoP, i);
    if last.Some? {
      var v := EntryAt(es[last.value], i).value.parameterName;
      assert (v + "%")[|v|] == '%';
    }
  }

  /** Appending an element applies it last to every slot: nothing else
      changes, and where it has an entry it overwrites its field. */
  lemma AppendedElementApplies(es: seq<Element>, e: Element)
    requires |es| > 0 && Transform(es).Some?
    ensures Transform(es + [e]).Some?
    ensures |Transform(es + [e]).value| == |Transform(es).value|
    ensures forall j :: 0 <= j < |Transform(es).value| ==>
      Transform(es + [e]).value[j] == ApplyElement(Transform(es).value[j], e, j)
  {
    var es' := es + [e];
    assert es'[0] == es[0];
    forall j | 0 <= j < |Transform(es).value|
      ensures Transform(es').value[j] == ApplyElement(Transform(es).value[j], e, j)
    {
      TransformMatchesReference(es, j);
      FoldAppend(Blank(es[0].time[j].value), es, [e], j);
    }
  }

  /** Of two elements with the same name, the later one wins. */
  lemma LaterDuplicateWins(es: seq<Element>, e: Element, i: nat)
    requires |es| > 0 && Transform(es).Some? && i < |Transform(es).value|
    requires e.elementName in ForecastNames && EntryAt(e, i).Some?
    ensures Transform(es + [e]).Some?
    ensures FieldOf(Transform(es + [e]).value[i], e.elementName)
      == Rendered(e.elementName, EntryAt(e, i).value.parameterName)
  {
    AppendedElementApplies(es, e);
  }

  /** Folding an unknown element in anywhere leaves the folded slot as it was. */
  lemma FoldSkipsUnknown(s: Slot, es: seq<Element>, e: Element, p: nat, j: nat)
    requires p <= |es| && e.elementName !in ForecastNames
    ensures FoldElements(s, es[..p] + [e] + es[p..], j) == FoldElements(s, es, j)
  {
    assert es[..p] + es[p..] == es;
    FoldAppend(s, es[..p] + [e], es[p..], j);
    FoldAppend(s, es[..p], [e], j);
    FoldAppend(s, es[..p], es[p..], j);
    var mid := FoldElements(s, es[..p], j);
    assert FoldElements(mid, [e], j) == ApplyElement(mid, e, j) == mid;
  }

  /** An element whose name is not one of the five, inserted anywhere after
      element 0, leaves the transform unchanged. */
  lemma UnknownElementIgnored(es: seq<Element>, e: Element, p: nat)
    requires 0 < p <= |es| && e.elementName !in ForecastNames
    ensures Transform(es[..p] + [e] + es[p..]) == Transform(es)
  {
    var es' := es[..p] + [e] + es[p..];
    assert es'[0] == es[0];
    if Transform(es).Some? {
      var r, r' := Transform(es).value, Transform(es').value;
      assert r == SlotsFrom(es, 0).value && r' == SlotsFrom(es', 0).value;
      forall j | 0 <= j < |r|
        ensures r'[j] == r[j]
      {
        assert r[j] == SlotAt(es, j) && r'[j] == SlotAt(es', j);
        FoldSkipsUnknown(Blank(es[0].time[j].value), es, e, p, j);
      }
      assert |r'| == |r|;
      assert r' == r;
    }
  }

  /** Away from the gap's index, every field's reference value is unchanged. */
  lemma PunchKeepsOtherIndex(es: seq<Element>, k: nat, i: nat, j: nat, n: string)
    requires k < |es| && i < |es[k].time| && j != i
    ensures Field(Punch(es, k, i), n, j) == Field(es, n, j)
  {
    var es' := Punch(es, k, i);
    forall m | 0 <= m < |es|
      ensures EntryAt(es[m], j) == EntryAt(es'[m], j)
      ensures es[m].elementName == es'[m].elementName
    {
    }
    SameSuppliersSameField(es, es', n, j);
  }

  /** A slot at an index other than the gap's is untouched by the gap. */
  lemma {:induction false} GapLeavesOtherIndex(es: seq<Element>, k: nat, i: nat, j: nat)
    requires 0 < k < |es| && i < |es[k].time| && j != i
    requires Transform(es).Some? && j < |Transform(es).value|
    ensures Transform(Punch(es, k, i)).Some?
    ensures j < |Transform(Punch(es, k, i)).value|
    ensures Transform(Punch(es, k, i)).value[j] == Transform(es).value[j]
  {
    var es' := Punch(es, k, i);
    assert es'[0] == es[0];
    TransformMatchesReference(es, j);
    TransformMatchesReference(es', j);
    PunchKeepsOtherIndex(es, k, i, j, Wx);
    PunchKeepsOtherIndex(es, k, i, j, PoP);
    PunchKeepsOtherIndex(es, k, i, j, MinT);
    PunchKeepsOtherIndex(es, k, i, j, MaxT);
    PunchKeepsOtherIndex(es, k, i, j, CI);
  }

  /** At the gap's index, fields of other names keep their reference value. */
  lemma PunchKeepsOtherName(es: seq<Element>, k: nat, i: nat, n: string)
    requires k < |es| && i < |es[k].time| && n != es[k].elementName
    ensures Field(Punch(es, k, i), n, i) == Field(es, n, i)
  {
    var es' := Punch(es, k, i);
    forall m | 0 <= m < |es|
      ensures Supplies(es[m], n, i) <==> Supplies(es'[m], n, i)
      ensures Supplies(es[m], n, i) ==> EntryAt(es[m], i) == EntryAt(es'[m], i)
    {
    }
    SameSuppliersSameField(es, es', n, i);
  }

  /** At the gap's index, the slot keeps its times and every field but the
      punched element's; that one is empty when no other element shares its name. */
  lemma GapAtIndex(es: seq<Element>, k: nat, i: nat)
    requires 0 < k < |es| && i < |es[k].time|
    requires Transform(es).Some? && i < |Transform(es).value|
    ensures Transform(Punch(es, k, i)).Some? && i < |Transform(Punch(es, k, i)).value|
    ensures var r, r' := Transform(es).value[i], Transform(Punch(es, k, i)).value[i];
      && r'.startTime == r.startTime
      && r'.endTime == r.endTime
      && (forall n :: n in ForecastNames && n != es[k].elementName ==> FieldOf(r', n) == FieldOf(r, n))
      && (es[k].elementName in ForecastNames
          && (forall m :: 0 <= m < |es| && m != k ==> es[m].elementName != es[k].elementName)
          ==> FieldOf(r', es[k].elementName) == "")
  {
    var es' := Punch(es, k, i);
    assert es'[0] == es[0];
    TransformMatchesReference(es, i);
    TransformMatchesReference(es', i);
    forall n | n in ForecastNames && n != es[k].elementName
      ensures FieldOf(Transform(es').value[i], n) == FieldOf(Transform(es).value[i], n)
    {
      TransformFieldOf(es, i, n);
      TransformFieldOf(es', i, n);
      PunchKeepsOtherName(es, k, i, n);
    }
    var name := es[k].elementName;
    if name in ForecastNames && (forall m :: 0 <= m < |es| && m != k ==> es[m].elementName != name) {
      AbsentSupplierBlank(es', i, name);
    }
  }

  /** A hole in a later element's series affects one field at one index: every
      other slot, the slot's times and every other field stay as they were,
      and if no other element carries that name the field becomes empty. */
  lemma GapIsLocal(es: seq<Element>, k: nat, i: nat)
    requires 0 < k < |es| && i < |es[k].time|
    ensures Transform(Punch(es, k, i)).Some? <==> Transform(es).Some?
    ensures Transform(es).Some? ==>
      var r, r' := Transform(es).value, Transform(Punch(es, k, i)).value;
      && |r'| == |r|
      && (forall j :: 0 <= j < |r| && j != i ==> r'[j] == r[j])
      && (i < |r| ==>
           && r'[i].startTime == r[i].startTime
           && r'[i].endTime == r[i].endTime
           && (forall n :: n in ForecastNames && n != es[k].elementName ==>
                 FieldOf(r'[i], n) == FieldOf(r[i], n))
           && (es[k].elementName in ForecastNames
               && (forall m :: 0 <= m < |es| && m != k ==> es[m].elementName != es[k].elementName)
               ==> FieldOf(r'[i], es[k].elementName) == ""))
  {
    var es' := Punch(es, k, i);
    assert es'[0] == es[0];
    if Transform(es).Some? {
      var r, r' := Transform(es).value, Transform(es').value;
      forall j | 0 <= j < |r| && j != i
        ensures r'[j] == r[j]
      {
        GapLeavesOtherIndex(es, k, i, j);
      }
      if i < |r| {
        GapAtIndex(es, k, i);
      }
    }
  }
}
