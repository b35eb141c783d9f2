/** The map's overlay selector: a Leaflet layer control whose checkboxes a
    `change` handler turns into an exclusive choice of one risk overlay,
    with the map title naming the overlay shown. A layer is identified by
    the overlay name it is registered under, so `selectedLayer` holds a name. */
module Overlays {
  import opened Common

  /** The overlays registered with the layer control, in control order. */
  const OverlayNames: seq<string> := [
    "Zones Inondables", "Risques Radon", "Gonflement argile", "activité sismique",
    "PPR mouvement de terrain", "risque industriel", "PPR feux de forets",
    "Risque remontée des nappes", "Site Polluées", "Zone volcanique"]

  const DefaultTitle := "Carte des risques"

  /** No two checkboxes carry the same label. */
  predicate DistinctLabels(labels: seq<string>)
  {
    forall i, j :: 0 <= i < j < |labels| ==> labels[i] != labels[j]
  }

  lemma OverlayNamesDistinct()
    ensures DistinctLabels(OverlayNames)
  {
  }

  /** The title text: a non-empty (truthy) name is appended after a colon,
      anything else gives the bare title. */
  function TitleFor(layerName: Option<string>): (title: string)
    ensures layerName.Some? && layerName.value != "" ==> title == DefaultTitle + ": " + layerName.value
    ensures layerName.None? ==> title == DefaultTitle
  {
    if layerName.Some? && layerName.value != "" then DefaultTitle + ": " + layerName.value
    else DefaultTitle
  }

  /** Two different overlay names never give the same title, and no name
      gives the default one. */
  lemma TitleNamesTheOverlay(a: string, b: string)
    requires a != "" && b != ""
    ensures TitleFor(Some(a)) == TitleFor(Some(b)) <==> a == b
    ensures TitleFor(Some(a)) != TitleFor(None)
  {
    var t := TitleFor(Some(a));
    if t == TitleFor(Some(b)) {
      var n := |DefaultTitle + ": "|;
      assert a == t[n..];
    }
    assert |t| > |DefaultTitle|;
  }

  /** Everything the selector observes and changes: the checkbox states
      (one per label), the selected layer, the overlays on the map and the
      title text. */
  datatype OverlayState = OverlayState(
    checked: seq<bool>, selected: Option<string>, attached: set<string>, title: string)

  /** The state before any overlay is chosen. */
  function Initial(labels: seq<string>): (s: OverlayState)
    ensures |s.checked| == |labels| && forall j :: 0 <= j < |labels| ==> !s.checked[j]
    ensures s.selected == None && s.attached == {} && s.title == DefaultTitle
  {
    OverlayState(seq(|labels|, j => false), None, {}, TitleFor(None))
  }

  /** The boxes after `uncheckOtherCheckboxes(name)`: a box stays checked
      only when it was and its label is `name`. */
  function UncheckedExcept(labels: seq<string>, checked: seq<bool>, name: string): (r: seq<bool>)
    requires |checked| == |labels|
    ensures |r| == |checked|
    ensures forall j :: 0 <= j < |r| ==> (r[j] <==> checked[j] && labels[j] == name)
  {
    seq(|checked|, j requires 0 <= j < |checked| => checked[j] && labels[j] == name)
  }

  /** The `change` handler for box `i`, run after the browser has set the
      box's new state in `s.checked`. */
  function Change(labels: seq<string>, s: OverlayState, i: int): OverlayState
    requires |s.checked| == |labels| && 0 <= i < |labels|
  {
    var name := labels[i];
    if s.checked[i] then
      var kept := if s.selected.Some? && s.selected.value != name
                  then s.attached - {s.selected.value} else s.attached;
      OverlayState(UncheckedExcept(labels, s.checked, name), Some(name), kept + {name}, TitleFor(Some(name)))
    else
      OverlayState(s.checked, None, s.attached - {name}, TitleFor(None))
  }

  /** A user click on box `i`: the browser flips the box, then the handler runs. */
  function Click(labels: seq<string>, s: OverlayState, i: int): OverlayState
    requires |s.checked| == |labels| && 0 <= i < |labels|
  {
    Change(labels, s.(checked := s.checked[i := !s.checked[i]]), i)
  }

  /** Clicks on the boxes at the given positions, one after the other. */
  function Run(labels: seq<string>, s: OverlayState, clicks: seq<nat>): (r: OverlayState)
    requires |s.checked| == |labels|
    requires forall k :: 0 <= k < |clicks| ==> clicks[k] < |labels|
    ensures |r.checked| == |labels|
    decreases |clicks|
  {
    if |clicks| == 0 then s
    else Run(labels, Click(labels, s, clicks[0]), clicks[1..])
  }

  /** The selector's invariant: a box is checked exactly when its overlay is
      the selected one, the selected overlay is the only one on the map, and
      the title names it. */
  predicate Exclusive(labels: seq<string>, s: OverlayState)
  {
    && |s.checked| == |labels|
    && (forall j :: 0 <= j < |labels| ==> (s.checked[j] <==> s.selected == Some(labels[j])))
    && (s.selected.Some? ==> s.selected.value in labels)
    && s.attached == (if s.selected.Some? then {s.selected.value} else {})
    && s.title == TitleFor(s.selected)
  }

  lemma InitialExclusive(labels: seq<string>)
    ensures Exclusive(labels, Initial(labels))
  {
  }

  /** Under the invariant, at most one box is checked and at most one overlay
      is attached. */
  lemma AtMostOneChecked(labels: seq<string>, s: OverlayState, i: int, j: int)
    requires DistinctLabels(labels) && Exclusive(labels, s)
    requires 0 <= i < |labels| && 0 <= j < |labels| && s.checked[i] && s.checked[j]
    ensures i == j && s.attached == {labels[i]}
  {
  }

  /** Checking a box shows that overlay alone; unchecking the checked box
      clears the map. */
  lemma {:induction false} ClickEffect(labels: seq<string>, s: OverlayState, i: int)
    requires DistinctLabels(labels) && Exclusive(labels, s) && 0 <= i < |labels| && labels[i] != ""
    ensures var t := Click(labels, s, i);
      if s.checked[i] then t.selected == None && t.attached == {} && t.title == DefaultTitle
      else t.selected == Some(labels[i]) && t.attached == {labels[i]}
           && t.title == DefaultTitle + ": " + labels[i]
           && forall j :: 0 <= j < |labels| ==> (t.checked[j] <==> j == i)
  {
    var t := Click(labels, s, i);
    if !s.checked[i] {
      if s.selected.Some? {
        assert s.selected.value != labels[i];
      }
      assert t.attached == {labels[i]};
    }
  }

  /** One click keeps the invariant. */
  lemma ClickKeepsExclusive(labels: seq<string>, s: OverlayState, i: int)
    requires DistinctLabels(labels) && Exclusive(labels, s) && 0 <= i < |labels|
    ensures Exclusive(labels, Click(labels, s, i))
  {
    if !s.checked[i] && s.selected.Some? {
      assert s.selected.value != labels[i];
    }
  }

  /** From a state that keeps the invariant (the initial one, by
      `InitialExclusive`), any sequence of clicks keeps it: at most one box
      is checked, and its overlay is the selected layer and the only one on
      the map. */
  lemma {:induction false} RunExclusive(labels: seq<string>, s: OverlayState, clicks: seq<nat>)
    requires DistinctLabels(labels) && Exclusive(labels, s)
    requires forall k :: 0 <= k < |clicks| ==> clicks[k] < |labels|
    ensures Exclusive(labels, Run(labels, s, clicks))
    decreases |clicks|
  {
    if |clicks| > 0 {
      ClickKeepsExclusive(labels, s, clicks[0]);
      RunExclusive(labels, Click(labels, s, clicks[0]), clicks[1..]);
    }
  }

  /** Unchecking clears the selection whatever was selected: when another
      overlay is the selected one, it stays on the map while the selection
      is forgotten. */
  lemma UncheckClearsUnconditionally(labels: seq<string>, s: OverlayState, i: int)
    requires |s.checked| == |labels| && 0 <= i < |labels| && !s.checked[i]
    ensures Change(labels, s, i).selected == None
    ensures Change(labels, s, i).attached == s.attached - {labels[i]}
    ensures Change(labels, s, i).checked == s.checked
  {
  }

  /** The selector on the page: the control's checkboxes and the state the
      handler keeps. */
  class OverlaySelector {
    const labels: seq<string>
    const boxes: array<bool>
    var selectedLayer: Option<string>
    var attached: set<string>
    var title: string

    ghost predicate Valid()
      reads this
    {
      boxes.Length == |labels| && DistinctLabels(labels)
    }

    function State(): (s: OverlayState)
      reads this, boxes
      ensures s.checked == boxes[..] && s.selected == selectedLayer
      ensures s.attached == attached && s.title == title
    {
      OverlayState(boxes[..], selectedLayer, attached, title)
    }

    /** The control as built for the registered overlays, nothing checked. */
    constructor()
      ensures Valid() && labels == OverlayNames && fresh(boxes)
      ensures State() == Initial(OverlayNames) && Exclusive(labels, State())
    {
      labels := OverlayNames;
      boxes := new bool[|OverlayNames|](j => false);
      selectedLayer := None;
      attached := {};
      title := DefaultTitle;
      OverlayNamesDistinct();
      new;
      assert boxes[..] == Initial(OverlayNames).checked;
    }

    /** `uncheckOtherCheckboxes`: unchecks every box whose label is not `name`. */
    method UncheckOtherCheckboxes(name: string)
      requires Valid()
      modifies boxes
      ensures boxes[..] == UncheckedExcept(labels, old(boxes[..]), name)
    {
      var k := 0;
      while k < boxes.Length
        invariant 0 <= k <= boxes.Length
        invariant forall j :: 0 <= j < k ==> boxes[j] == (old(boxes[j]) && labels[j] == name)
        invariant forall j :: k <= j < boxes.Length ==> boxes[j] == old(boxes[j])
      {
        if labels[k] != name {
          boxes[k] := false;
        }
        k := k + 1;
      }
    }

    /** `updateMapTitle`. */
    method UpdateMapTitle(layerName: Option<string>)
      modifies this
      ensures title == TitleFor(layerName)
      ensures selectedLayer == old(selectedLayer) && attached == old(attached)
    {
      title := TitleFor(layerName);
    }

    /** The `change` handler for box `i`, after the browser set its state. */
    method OnChange(i: int)
      requires Valid() && 0 <= i < boxes.Length
      modifies this, boxes
      ensures Valid()
      ensures State() == Change(labels, old(State()), i)
    {
      var layerName := labels[i];
      if boxes[i] {
        if selectedLayer.Some? && selectedLayer.value != layerName {
          attached := attached - {selectedLayer.value};
        }
        attached := attached + {layerName};
        selectedLayer := Some(layerName);
        UncheckOtherCheckboxes(layerName);
        UpdateMapTitle(Some(layerName));
      } else {
        attached := attached - {layerName};
        selectedLayer := None;
        UpdateMapTitle(None);
      }
    }

    /** A user click on box `i`: the box flips, then the handler runs; the
        invariant survives it. */
    method Toggle(i: int)
      requires Valid() && 0 <= i < boxes.Length
      modifies this, boxes
      ensures Valid()
      ensures State() == Click(labels, old(State()), i)
      ensures old(Exclusive(labels, State())) ==> Exclusive(labels, State())
    {
      ghost var before := State();
      boxes[i] := !boxes[i];
      assert boxes[..] == before.checked[i := !before.checked[i]];
      OnChange(i);
      if Exclusive(labels, before) {
        ClickKeepsExclusive(labels, before, i);
      }
    }
  }
}
