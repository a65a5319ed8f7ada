/** The bonus picker (src/components/organisms/BonusGenerator.jsx): the list
    of selected bonus ids that a click toggles, and the hand-over of the
    selected bonuses. */
module BonusGenerator {
  import opened JsValues
  import opened Tables
  import opened BonusService

  function OtherThan(bonusId: string): string -> bool {
    (id: string) => id != bonusId
  }

  /** toggleBonusSelection: an unselected id joins at the end; a selected
      one leaves, with every copy of it, and the rest keep their order. */
  function Toggle(selection: seq<string>, bonusId: string): (r: seq<string>)
    ensures bonusId !in selection ==> r == selection + [bonusId]
    ensures bonusId in selection ==> bonusId !in r && IsSubsequence(r, selection)
    ensures forall id :: id != bonusId ==> (id in r <==> id in selection)
    ensures bonusId in r <==> bonusId !in selection
  {
    if bonusId in selection then
      FilterIsSubsequence(selection, OtherThan(bonusId));
      forall id
        ensures id in Filter(selection, OtherThan(bonusId)) <==> (id in selection && id != bonusId)
      {
        FilterMembership(selection, OtherThan(bonusId), id);
      }
      Filter(selection, OtherThan(bonusId))
    else selection + [bonusId]
  }

  predicate Distinct(s: seq<string>) {
    forall i, j :: 0 <= i < j < |s| ==> s[i] != s[j]
  }

  /** Two clicks on an unselected bonus give back the selection. */
  lemma ToggleTwiceRestores(selection: seq<string>, bonusId: string)
    requires bonusId !in selection
    ensures Toggle(Toggle(selection, bonusId), bonusId) == selection
  {
    FilterConcat(selection, [bonusId], OtherThan(bonusId));
    FilterKeepsAll(selection, OtherThan(bonusId));
  }

  lemma {:induction false} FilterKeepsDistinct(s: seq<string>, p: string -> bool)
    requires Distinct(s)
    ensures Distinct(Filter(s, p))
    decreases |s|
  {
    if |s| > 0 {
      FilterKeepsDistinct(s[1..], p);
      if p(s[0]) {
        var rest := Filter(s[1..], p);
        FilterMembership(s[1..], p, s[0]);
        assert s[0] !in s[1..];
        assert Filter(s, p) == [s[0]] + rest;
      }
    }
  }

  /** A click never puts an id into the selection twice. */
  lemma ToggleKeepsDistinct(selection: seq<string>, bonusId: string)
    requires Distinct(selection)
    ensures Distinct(Toggle(selection, bonusId))
  {
    if bonusId in selection {
      FilterKeepsDistinct(selection, OtherThan(bonusId));
    }
  }

  function IsSelected(selection: seq<string>): Bonus -> bool {
    (bonus: Bonus) => bonus.id in selection
  }

  /** What handleCreatePages does: complain about an empty choice, or pass
      the chosen bonuses on. */
  datatype CreatePages = NoSelection | Proceed(chosen: seq<Bonus>)

  /** handleCreatePages: the bonuses whose id is selected, in the order of
      the bonus list; none chosen is refused. */
  function HandleCreatePages(bonuses: seq<Bonus>, selection: seq<string>): (r: CreatePages)
    ensures r.NoSelection? <==> forall j :: 0 <= j < |bonuses| ==> bonuses[j].id !in selection
    ensures r.Proceed? ==> |r.chosen| > 0 && IsSubsequence(r.chosen, bonuses)
    ensures r.Proceed? ==> forall b :: b in r.chosen <==> (b in bonuses && b.id in selection)
    ensures r.Proceed? ==> r.chosen == Filter(bonuses, IsSelected(selection))
  {
    var chosen := Filter(bonuses, IsSelected(selection));
    FilterIsSubsequence(bonuses, IsSelected(selection));
    forall b
      ensures b in chosen <==> (b in bonuses && b.id in selection)
    {
      FilterMembership(bonuses, IsSelected(selection), b);
    }
    if |chosen| == 0 then
      assert forall j :: 0 <= j < |bonuses| ==> bonuses[j] in bonuses;
      NoSelection
    else Proceed(chosen)
  }

  /** Only which ids are selected matters, not the order they were clicked in. */
  lemma SelectionOrderIrrelevant(bonuses: seq<Bonus>, s1: seq<string>, s2: seq<string>)
    requires forall id :: id in s1 <==> id in s2
    ensures HandleCreatePages(bonuses, s1) == HandleCreatePages(bonuses, s2)
  {
    FilterSameVerdicts(bonuses, IsSelected(s1), IsSelected(s2));
  }
}
