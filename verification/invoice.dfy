/** The invoice side of the observation gallery (pages/gallery.js): the
    lines of a bill, their totals, the edits made to them in the invoice
    pop-up, the set of selected observations and the totals over them.
    Amounts are reals; a quantity or unit cost that is missing, NaN or 0 in
    JavaScript is None or Some(0.0) here, and `x || 0` reads both as 0. */
module Invoice {
  import opened Wrappers
  import opened Slicing

  /** One line of a bill of materials. */
  datatype Line = Line(itemId: string, name: string, unit: string,
                       quantity: Option<real>, unitCost: Option<real>, totalCost: real)

  /** An observation in the gallery, with its bill. */
  datatype Observation = Observation(id: string, billItems: seq<Line>, billTotal: real)

  /** `x || 0` on a number that may be missing. */
  function OrZero(x: Option<real>): real {
    x.GetOr(0.0)
  }

  /** `(quantity || 0) * (unitCost || 0)`. */
  function LineCost(m: Line): real {
    OrZero(m.quantity) * OrZero(m.unitCost)
  }

  /** The line with its total recomputed, whatever total it had before. */
  function Recompute(m: Line): (r: Line)
    ensures r.totalCost == LineCost(r)
    ensures r.(totalCost := m.totalCost) == m
  {
    m.(totalCost := LineCost(m))
  }

  /** `computedMaterials`: every line recomputed, in the same order. */
  function ComputeMaterials(lines: seq<Line>): (r: seq<Line>)
    ensures |r| == |lines|
    ensures forall i :: 0 <= i < |r| ==> r[i] == Recompute(lines[i])
  {
    seq(|lines|, i requires 0 <= i < |lines| => Recompute(lines[i]))
  }

  /** Recomputing recomputed lines changes nothing. */
  lemma ComputeMaterialsIdempotent(lines: seq<Line>)
    ensures ComputeMaterials(ComputeMaterials(lines)) == ComputeMaterials(lines)
  {
  }

  /** The `reduce((sum, m) => sum + m.totalCost, 0)` of a list of lines. */
  function SumTotals(lines: seq<Line>): (t: real)
    ensures (forall i :: 0 <= i < |lines| ==> lines[i].totalCost >= 0.0) ==> t >= 0.0
  {
    if lines == [] then 0.0 else SumTotals(lines[..|lines| - 1]) + lines[|lines| - 1].totalCost
  }

  /** The sum of the line costs, from quantity and unit cost alone. */
  function SumCosts(lines: seq<Line>): real {
    if lines == [] then 0.0 else SumCosts(lines[..|lines| - 1]) + LineCost(lines[|lines| - 1])
  }

  lemma {:induction false} SumTotalsAppend(a: seq<Line>, b: seq<Line>)
    ensures SumTotals(a + b) == SumTotals(a) + SumTotals(b)
  {
    if b == [] {
      assert a + b == a;
    } else {
      assert (a + b)[..|a + b| - 1] == a + b[..|b| - 1];
      SumTotalsAppend(a, b[..|b| - 1]);
    }
  }

  /** The grand total of the recomputed lines depends only on quantities
      and unit costs: stale line totals are never trusted. It is 0 for an
      empty bill. */
  lemma {:induction false} ComputedTotalIsSumOfCosts(lines: seq<Line>)
    ensures SumTotals(ComputeMaterials(lines)) == SumCosts(lines)
    ensures lines == [] ==> SumTotals(ComputeMaterials(lines)) == 0.0
  {
    if lines != [] {
      var n := |lines| - 1;
      assert ComputeMaterials(lines)[..n] == ComputeMaterials(lines[..n]);
      ComputedTotalIsSumOfCosts(lines[..n]);
    }
  }

  /** `computedTotal`: the popup's grand total, the sum of quantity times
      unit cost over the lines. */
  function ComputedTotal(lines: seq<Line>): (t: real)
    ensures t == SumCosts(lines)
    ensures lines == [] ==> t == 0.0
  {
    ComputedTotalIsSumOfCosts(lines);
    SumTotals(ComputeMaterials(lines))
  }

  /** 10 at 20 and 2 at 700 cost 200 and 1400, 1600 in all. */
  lemma ComputedTotalExample()
    ensures var lines := [Line("a", "cable", "m", Some(10.0), Some(20.0), 0.0),
                          Line("b", "panel", "pcs", Some(2.0), Some(700.0), 5.0)];
            ComputeMaterials(lines)[0].totalCost == 200.0 &&
            ComputeMaterials(lines)[1].totalCost == 1400.0 &&
            ComputedTotal(lines) == 1600.0
  {
    var lines := [Line("a", "cable", "m", Some(10.0), Some(20.0), 0.0),
                  Line("b", "panel", "pcs", Some(2.0), Some(700.0), 5.0)];
    ComputedTotalIsSumOfCosts(lines);
    assert lines[..1][..0] == [];
    assert lines[..1] == [lines[0]];
  }

  /** The fields of a line the pop-up edits. */
  datatype Field = Name | Unit | Quantity | UnitCost

  /** `updateMaterial(idx, field, value)`: line `idx` gets `value` in
      `field`; a quantity or unit cost is `parseFloat(value) || 0`, with
      `parseFloat` given (None standing for NaN); names and units are stored
      as typed. Every other line and field stays. */
  function UpdateMaterial(lines: seq<Line>, idx: int, field: Field, value: string,
                          parseFloat: string -> Option<real>): (r: seq<Line>)
    requires 0 <= idx < |lines|
    ensures |r| == |lines|
    ensures forall i :: 0 <= i < |r| && i != idx ==> r[i] == lines[i]
    ensures var number := Some(OrZero(parseFloat(value)));
            r[idx] == match field
                      case Name => lines[idx].(name := value)
                      case Unit => lines[idx].(unit := value)
                      case Quantity => lines[idx].(quantity := number)
                      case UnitCost => lines[idx].(unitCost := number)
  {
    var m := lines[idx];
    var number := Some(OrZero(parseFloat(value)));
    var updated := match field
      case Name => m.(name := value)
      case Unit => m.(unit := value)
      case Quantity => m.(quantity := number)
      case UnitCost => m.(unitCost := number);
    lines[idx := updated]
  }

  /** Changing one line's cost moves the sum of costs by the difference. */
  lemma {:induction false} SumCostsUpdate(lines: seq<Line>, idx: nat, m: Line)
    requires idx < |lines|
    ensures SumCosts(lines[idx := m]) == SumCosts(lines) - LineCost(lines[idx]) + LineCost(m)
  {
    var n := |lines| - 1;
    if idx < n {
      assert lines[idx := m][..n] == lines[..n][idx := m];
      SumCostsUpdate(lines[..n], idx, m);
    } else {
      assert lines[idx := m][..n] == lines[..n];
    }
  }

  /** Editing a name or a unit leaves the pop-up total alone; editing a
      quantity or unit cost moves it by exactly the change in that line's
      cost, and that line's cost is the product of what the fields now hold. */
  lemma UpdateMaterialTotal(lines: seq<Line>, idx: int, field: Field, value: string,
                            parseFloat: string -> Option<real>)
    requires 0 <= idx < |lines|
    ensures var r := UpdateMaterial(lines, idx, field, value, parseFloat);
            ComputedTotal(r) == ComputedTotal(lines) - LineCost(lines[idx]) + LineCost(r[idx])
    ensures field.Name? || field.Unit? ==>
              ComputedTotal(UpdateMaterial(lines, idx, field, value, parseFloat)) == ComputedTotal(lines)
    ensures field.Quantity? ==>
              ComputedTotal(UpdateMaterial(lines, idx, field, value, parseFloat)) ==
              ComputedTotal(lines) - LineCost(lines[idx]) + OrZero(parseFloat(value)) * OrZero(lines[idx].unitCost)
  {
    var r := UpdateMaterial(lines, idx, field, value, parseFloat);
    UpdatedSumCosts(lines, idx, field, value, parseFloat, r);
    assert ComputedTotal(r) == SumCosts(r) && ComputedTotal(lines) == SumCosts(lines);
  }

  /** `UpdateMaterialTotal` on the sums of line costs. */
  lemma UpdatedSumCosts(lines: seq<Line>, idx: int, field: Field, value: string,
                        parseFloat: string -> Option<real>, r: seq<Line>)
    requires 0 <= idx < |lines| && r == UpdateMaterial(lines, idx, field, value, parseFloat)
    ensures SumCosts(r) == SumCosts(lines) - LineCost(lines[idx]) + LineCost(r[idx])
    ensures field.Name? || field.Unit? ==> LineCost(r[idx]) == LineCost(lines[idx])
    ensures field.Quantity? ==> LineCost(r[idx]) == OrZero(parseFloat(value)) * OrZero(lines[idx].unitCost)
  {
    EditedLineCost(lines, r, idx, field, OrZero(parseFloat(value)));
    assert r == lines[idx := r[idx]];
    SumCostsUpdate(lines, idx, r[idx]);
  }

  /** The cost of an edited line: a name or unit edit keeps it, and a
      quantity edit makes it the new quantity times the old unit cost. */
  lemma EditedLineCost(lines: seq<Line>, r: seq<Line>, idx: int, field: Field, x: real)
    requires 0 <= idx < |lines| && |r| == |lines|
    requires field.Name? || field.Unit? ==> r[idx].quantity == lines[idx].quantity && r[idx].unitCost == lines[idx].unitCost
    requires field.Quantity? ==> r[idx].quantity == Some(x) && r[idx].unitCost == lines[idx].unitCost
    ensures field.Name? || field.Unit? ==> LineCost(r[idx]) == LineCost(lines[idx])
    ensures field.Quantity? ==> LineCost(r[idx]) == x * OrZero(lines[idx].unitCost)
  {
  }

  /** `addMaterial`: a blank line with quantity 1 and costs 0 is added at the
      end; the item id comes from a UUID generator. */
  function AddMaterial(lines: seq<Line>, newItemId: string): (r: seq<Line>)
    ensures |r| == |lines| + 1 && r[..|lines|] == lines
    ensures r[|lines|] == Line(newItemId, "", "", Some(1.0), Some(0.0), 0.0)
    ensures ComputedTotal(r) == ComputedTotal(lines)
  {
    var r := lines + [Line(newItemId, "", "", Some(1.0), Some(0.0), 0.0)];
    assert r[..|lines|] == lines;
    ComputedTotalIsSumOfCosts(r);
    ComputedTotalIsSumOfCosts(lines);
    r
  }

  /** `prev.filter((_, i) => i !== idx)`, scanning from position `from`. */
  function FilterOutIndex(lines: seq<Line>, idx: int, from: nat): (r: seq<Line>)
    requires from <= |lines|
    ensures idx < from || idx >= |lines| ==> r == lines[from..]
    ensures from <= idx < |lines| ==> r == lines[from..idx] + lines[idx + 1..]
    decreases |lines| - from
  {
    if from == |lines| then []
    else if from == idx then FilterOutIndex(lines, idx, from + 1)
    else [lines[from]] + FilterOutIndex(lines, idx, from + 1)
  }

  /** `removeMaterial(idx)`: exactly line `idx` goes, the others keep their
      order; an index that names no line changes nothing. */
  function RemoveMaterial(lines: seq<Line>, idx: int): (r: seq<Line>)
    ensures 0 <= idx < |lines| ==>
              && |r| == |lines| - 1
              && (forall i :: 0 <= i < idx ==> r[i] == lines[i])
              && (forall i :: idx <= i < |r| ==> r[i] == lines[i + 1])
    ensures !(0 <= idx < |lines|) ==> r == lines
  {
    FilterOutIndex(lines, idx, 0)
  }

  /** The selected observation ids: a JavaScript Set, kept in insertion
      order, without repeats. */
  predicate NoRepeats(ids: seq<string>) {
    forall i, j :: 0 <= i < j < |ids| ==> ids[i] != ids[j]
  }

  /** `Set.prototype.delete`: the others keep their order. */
  function Delete(ids: seq<string>, id: string): (r: seq<string>)
    ensures forall x :: x in r <==> x in ids && x != id
    ensures NoRepeats(ids) ==> NoRepeats(r)
  {
    if ids == [] then []
    else if ids[0] == id then Delete(ids[1..], id)
    else
      var rest := Delete(ids[1..], id);
      assert NoRepeats(ids) ==> ids[0] !in ids[1..];
      [ids[0]] + rest
  }

  /** In a selection without repeats, deleting a selected id takes out
      its one position and the others keep their order. */
  lemma {:induction false} DeleteKeepsOrder(ids: seq<string>, id: string)
    requires NoRepeats(ids) && id in ids
    ensures exists k :: 0 <= k < |ids| && ids[k] == id && Delete(ids, id) == ids[..k] + ids[k + 1..]
  {
    if ids[0] == id {
      DeleteAbsent(ids[1..], id);
      assert Delete(ids, id) == ids[..0] + ids[1..];
    } else {
      var tail := ids[1..];
      assert NoRepeats(tail) && id in tail;
      DeleteKeepsOrder(tail, id);
      var k :| 0 <= k < |tail| && tail[k] == id && Delete(tail, id) == tail[..k] + tail[k + 1..];
      DeleteBehindHead(ids, id, k);
    }
  }

  /** A cut at position `k` of the tail is a cut at `k + 1` of the whole
      when the head is kept. */
  lemma DeleteBehindHead(ids: seq<string>, id: string, k: nat)
    requires 0 < |ids| && ids[0] != id && k < |ids| - 1
    requires Delete(ids[1..], id) == ids[1..][..k] + ids[1..][k + 1..]
    ensures Delete(ids, id) == ids[..k + 1] + ids[k + 2..]
  {
    assert Delete(ids, id) == [ids[0]] + Delete(ids[1..], id);
    assert ids[..k + 1] == [ids[0]] + ids[1..][..k];
    assert ids[k + 2..] == ids[1..][k + 1..];
  }

  /** Deleting an id that is not there changes nothing. */
  lemma {:induction false} DeleteAbsent(ids: seq<string>, id: string)
    requires id !in ids
    ensures Delete(ids, id) == ids
  {
    if ids != [] {
      DeleteAbsent(ids[1..], id);
    }
  }

  /** `toggleSelect(id)`: removes `id` when selected, adds it at the end
      otherwise; the other ids stay as they were. */
  function ToggleSelect(selected: seq<string>, id: string): (r: seq<string>)
    requires NoRepeats(selected)
    ensures NoRepeats(r)
    ensures id in r <==> id !in selected
    ensures forall x :: x != id ==> (x in r <==> x in selected)
    ensures id !in selected ==> r == selected + [id]
    ensures id in selected ==> exists k :: 0 <= k < |selected| && selected[k] == id &&
                                           r == selected[..k] + selected[k + 1..]
  {
    if id in selected then
      DeleteKeepsOrder(selected, id);
      Delete(selected, id)
    else selected + [id]
  }

  /** Toggling the same id twice gives back the same set of ids; an id
      that was not selected leaves the selection exactly as it was. */
  lemma ToggleTwice(selected: seq<string>, id: string)
    requires NoRepeats(selected)
    ensures forall x :: x in ToggleSelect(ToggleSelect(selected, id), id) <==> x in selected
    ensures id !in selected ==> ToggleSelect(ToggleSelect(selected, id), id) == selected
  {
    if id !in selected {
      var once := selected + [id];
      assert once[|selected|] == id;
      assert NoRepeats(once);
      var k :| 0 <= k < |once| && once[k] == id && ToggleSelect(once, id) == once[..k] + once[k + 1..];
      assert k == |selected|;
      assert once[..k] == selected;
    }
  }

  /** The position of the first observation with id `id` (`findIndex`). */
  function FindIndex(items: seq<Observation>, id: string): (r: Option<nat>)
    ensures r.None? <==> forall i :: 0 <= i < |items| ==> items[i].id != id
    ensures r.Some? ==> r.value < |items| && items[r.value].id == id &&
                        forall j :: 0 <= j < r.value ==> items[j].id != id
  {
    if items == [] then None
    else if items[0].id == id then Some(0)
    else match FindIndex(items[1..], id)
         case Some(k) => Some(k + 1)
         case None => None
  }

  /** The gallery's observations and the one open in the pop-up, if any. */
  datatype Gallery = Gallery(items: seq<Observation>, popup: Option<Observation>)

  /** `handlePopupSave`: without an open pop-up, or when its observation is
      no longer listed, nothing changes. Otherwise that observation's bill
      becomes the edited lines, recomputed, with their total, the pop-up
      closes, and no other observation changes. */
  function HandlePopupSave(g: Gallery, popupMaterials: seq<Line>): (r: Gallery)
    ensures g.popup.None? ==> r == g
    ensures g.popup.Some? && FindIndex(g.items, g.popup.value.id).None? ==> r == g
    ensures g.popup.Some? && FindIndex(g.items, g.popup.value.id).Some? ==>
              var k := FindIndex(g.items, g.popup.value.id).value;
              r.popup.None? && |r.items| == |g.items| &&
              r.items[k] == g.items[k].(billItems := ComputeMaterials(popupMaterials),
                                        billTotal := SumCosts(popupMaterials)) &&
              forall i :: 0 <= i < |g.items| && i != k ==> r.items[i] == g.items[i]
  {
    if g.popup.None? then g
    else match FindIndex(g.items, g.popup.value.id)
      case None => g
      case Some(k) =>
        ComputedTotalIsSumOfCosts(popupMaterials);
        var updated := g.items[k].(billItems := ComputeMaterials(popupMaterials),
                                   billTotal := ComputedTotal(popupMaterials));
        Gallery(g.items[k := updated], None)
  }

  /** The first listed observation with id `id` (`items.find`). */
  function FindItem(items: seq<Observation>, id: string): (r: Option<Observation>)
    ensures r.Some? <==> FindIndex(items, id).Some?
    ensures r.Some? ==> r.value == items[FindIndex(items, id).value]
  {
    match FindIndex(items, id)
    case Some(k) => Some(items[k])
    case None => None
  }

  /** The recomputed bill of the selected id, or nothing when no listed
      observation has that id. */
  function SelectedLines(items: seq<Observation>, id: string): seq<Line> {
    match FindItem(items, id)
    case Some(it) => ComputeMaterials(it.billItems)
    case None => []
  }

  /** How many bill lines the selected ids' observations hold together;
      an id that names no listed observation holds none. */
  function MatchedLineCount(items: seq<Observation>, selected: seq<string>): nat {
    if selected == [] then 0
    else MatchedLineCount(items, selected[..|selected| - 1]) + |SelectedLines(items, selected[|selected| - 1])|
  }

  /** `aggregatedMaterials`: the recomputed lines of every selected
      observation, in selection order. */
  function AggregatedMaterials(items: seq<Observation>, selected: seq<string>): (r: seq<Line>)
    ensures |r| == MatchedLineCount(items, selected)
    ensures forall i :: 0 <= i < |r| ==> r[i].totalCost == LineCost(r[i])
  {
    if selected == [] then []
    else
      var r := AggregatedMaterials(items, selected[..|selected| - 1]) + SelectedLines(items, selected[|selected| - 1]);
      r
  }

  /** The recomputed bill of each selected id, in selection order. */
  function Bills(items: seq<Observation>, selected: seq<string>): (bills: seq<seq<Line>>)
    ensures |bills| == |selected|
    ensures forall i :: 0 <= i < |selected| ==> bills[i] == SelectedLines(items, selected[i])
  {
    seq(|selected|, i requires 0 <= i < |selected| => SelectedLines(items, selected[i]))
  }

  /** The aggregated lines are the selected bills one after the other. */
  lemma {:induction false} AggregatedIsConcat(items: seq<Observation>, selected: seq<string>)
    ensures AggregatedMaterials(items, selected) == Concat(Bills(items, selected))
  {
    if selected != [] {
      var n := |selected| - 1;
      assert Bills(items, selected)[..n] == Bills(items, selected[..n]);
      AggregatedIsConcat(items, selected[..n]);
    }
  }

  /** The ids selected before the `k`-th hold as many lines as the first
      `k` bills. */
  lemma MatchedPrefixCount(items: seq<Observation>, selected: seq<string>, k: nat)
    requires k <= |selected|
    ensures MatchedLineCount(items, selected[..k]) == |Concat(Bills(items, selected)[..k])|
  {
    assert Bills(items, selected)[..k] == Bills(items, selected[..k]);
    AggregatedIsConcat(items, selected[..k]);
  }

  /** Line `j` of the `k`-th selected bill sits after the lines of the
      bills selected before it. */
  lemma AggregatedPosition(items: seq<Observation>, selected: seq<string>, k: nat, j: nat)
    requires k < |selected| && j < |Bills(items, selected)[k]|
    ensures MatchedLineCount(items, selected[..k]) + j < |AggregatedMaterials(items, selected)|
    ensures AggregatedMaterials(items, selected)[MatchedLineCount(items, selected[..k]) + j] ==
            Bills(items, selected)[k][j]
  {
    AggregatedIsConcat(items, selected);
    MatchedPrefixCount(items, selected, k);
    ConcatAtOffset(AggregatedMaterials(items, selected), Bills(items, selected),
                   MatchedLineCount(items, selected[..k]), k, j);
  }

  /** Line `j` of the bill of the observation the `k`-th selected id names
      sits after the lines of the ids selected before it, recomputed: the
      bottom sheet lists the bills in selection order, each in its own
      order. */
  lemma AggregatedAt(items: seq<Observation>, selected: seq<string>, k: nat, it: Observation, j: nat)
    requires k < |selected| && FindItem(items, selected[k]) == Some(it) && j < |it.billItems|
    ensures MatchedLineCount(items, selected[..k]) + j < |AggregatedMaterials(items, selected)|
    ensures AggregatedMaterials(items, selected)[MatchedLineCount(items, selected[..k]) + j] ==
            Recompute(it.billItems[j])
  {
    var bill := Bills(items, selected)[k];
    assert bill == ComputeMaterials(it.billItems);
    AggregatedPosition(items, selected, k, j);
  }

  /** The cost of the selected id's bill, 0 when it names no listed
      observation. */
  function SelectedCost(items: seq<Observation>, id: string): real {
    match FindItem(items, id)
    case Some(it) => SumCosts(it.billItems)
    case None => 0.0
  }

  /** Sum of `SelectedCost` over the selection. */
  function SumSelectedCosts(items: seq<Observation>, selected: seq<string>): real {
    if selected == [] then 0.0
    else SumSelectedCosts(items, selected[..|selected| - 1]) + SelectedCost(items, selected[|selected| - 1])
  }

  /** `aggregatedTotal` is the sum over the selected ids of their bills'
      costs from quantity and unit cost; unmatched ids add nothing. */
  lemma {:induction false} AggregatedTotalIsSumOfSelected(items: seq<Observation>, selected: seq<string>)
    ensures SumTotals(AggregatedMaterials(items, selected)) == SumSelectedCosts(items, selected)
  {
    if selected != [] {
      var init, id := selected[..|selected| - 1], selected[|selected| - 1];
      AggregatedTotalIsSumOfSelected(items, init);
      SumTotalsAppend(AggregatedMaterials(items, init), SelectedLines(items, id));
      if FindItem(items, id).Some? {
        ComputedTotalIsSumOfCosts(FindItem(items, id).value.billItems);
      }
    }
  }

  /** Selecting an id that names no listed observation leaves the
      aggregated lines as they were. */
  lemma UnmatchedSelectionAddsNothing(items: seq<Observation>, selected: seq<string>, id: string)
    requires forall i :: 0 <= i < |items| ==> items[i].id != id
    ensures AggregatedMaterials(items, selected + [id]) == AggregatedMaterials(items, selected)
  {
    assert (selected + [id])[..|selected|] == selected;
  }
}
