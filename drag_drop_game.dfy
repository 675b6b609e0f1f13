/** The drag-and-drop mini game (src/components/games/DragDropGame.tsx): item i
    belongs on target i; a drop places the dragged item on a target and marks
    the target correct or wrong. The delayed "show result" callback is a
    pending count that fires as an explicit step. */
module DragDropGame {
  import opened Common
  import MatchingGame

  datatype DragItem = DragItem(id: int, text: string, correctTarget: int, isPlaced: bool,
                               placedTarget: Option<int>)

  datatype DropTarget = DropTarget(id: int, labelText: string, isCorrect: bool, hasItem: bool)

  /** The initialising effect's items: item i is `pairs[i].0` and belongs on target i. */
  function InitialItems(pairs: seq<(string, string)>): (r: seq<DragItem>)
    ensures |r| == |pairs|
    ensures forall i :: 0 <= i < |r| ==> r[i] == DragItem(i, pairs[i].0, i, false, None)
  {
    seq(|pairs|, i requires 0 <= i < |pairs| => DragItem(i, pairs[i].0, i, false, None))
  }

  /** The initialising effect's targets: target i is labelled `pairs[i].1` and is empty. */
  function InitialTargets(pairs: seq<(string, string)>): (r: seq<DropTarget>)
    ensures |r| == |pairs|
    ensures forall i :: 0 <= i < |r| ==> r[i] == DropTarget(i, pairs[i].1, false, false)
  {
    seq(|pairs|, i requires 0 <= i < |pairs| => DropTarget(i, pairs[i].1, false, false))
  }

  /** `prev.map(item => item.id === id ? { ...item, isPlaced: true, placedTarget: t } : item)`. */
  function Place(items: seq<DragItem>, id: int, t: int): (r: seq<DragItem>)
    ensures |r| == |items|
    ensures forall i :: 0 <= i < |items| ==>
              r[i] == if items[i].id == id then items[i].(isPlaced := true, placedTarget := Some(t)) else items[i]
  {
    seq(|items|, i requires 0 <= i < |items| =>
          if items[i].id == id then items[i].(isPlaced := true, placedTarget := Some(t)) else items[i])
  }

  /** `prev.map(target => target.id === t ? { ...target, hasItem: true, isCorrect: correct } : target)`. */
  function Fill(targets: seq<DropTarget>, t: int, correct: bool): (r: seq<DropTarget>)
    ensures |r| == |targets|
    ensures forall i :: 0 <= i < |targets| ==>
              r[i] == if targets[i].id == t then targets[i].(hasItem := true, isCorrect := correct) else targets[i]
  {
    seq(|targets|, i requires 0 <= i < |targets| =>
          if targets[i].id == t then targets[i].(hasItem := true, isCorrect := correct) else targets[i])
  }

  function UnplaceAll(items: seq<DragItem>): (r: seq<DragItem>)
    ensures |r| == |items|
    ensures forall i :: 0 <= i < |items| ==> r[i] == items[i].(isPlaced := false, placedTarget := None)
  {
    seq(|items|, i requires 0 <= i < |items| => items[i].(isPlaced := false, placedTarget := None))
  }

  function EmptyAll(targets: seq<DropTarget>): (r: seq<DropTarget>)
    ensures |r| == |targets|
    ensures forall i :: 0 <= i < |targets| ==> r[i] == targets[i].(isCorrect := false, hasItem := false)
  {
    seq(|targets|, i requires 0 <= i < |targets| => targets[i].(isCorrect := false, hasItem := false))
  }

  /** `dragItems.every(item => item.isPlaced)`. */
  predicate AllPlaced(items: seq<DragItem>) {
    forall i :: 0 <= i < |items| ==> items[i].isPlaced
  }

  /** The game's state; `pendingResults` counts the result timers not yet fired. */
  datatype State = State(dragItems: seq<DragItem>, dropTargets: seq<DropTarget>,
                         draggedItem: Option<DragItem>, gameComplete: bool, showResult: bool,
                         moves: int, pendingResults: nat)

  function Initial(pairs: seq<(string, string)>): State {
    State(InitialItems(pairs), InitialTargets(pairs), None, false, false, 0, 0)
  }

  /** `handleDragStart`: the dragged item is remembered. */
  function DragStarted(st: State, item: DragItem): State {
    st.(draggedItem := Some(item))
  }

  /** The common part of a drop on target `t` with an item dragged: one more
      move, the item placed on `t`, the target filled and judged, nothing
      dragged any more. */
  function Placed(st: State, t: int): (r: State)
    requires st.draggedItem.Some?
  {
    var d := st.draggedItem.value;
    st.(moves := st.moves + 1, dragItems := Place(st.dragItems, d.id, t),
        dropTargets := Fill(st.dropTargets, t, d.correctTarget == t), draggedItem := None)
  }

  /** `handleDrop` as written: the completion check reads `dragItems` as it was
      rendered, before this drop placed its item. */
  function DroppedAsWritten(st: State, t: int): State {
    if st.draggedItem.None? then st
    else
      var r := Placed(st, t);
      if AllPlaced(st.dragItems) then r.(gameComplete := true, pendingResults := st.pendingResults + 1)
      else r
  }

  /** The drop the game intends: the completion check reads the item list after
      this drop's update. It is the corrected counterpart of `DroppedAsWritten`. */
  function Dropped(st: State, t: int): (r: State)
    ensures st.draggedItem.None? ==> r == st
    ensures st.draggedItem.Some? ==>
              r.gameComplete == (st.gameComplete || AllPlaced(Placed(st, t).dragItems))
  {
    if st.draggedItem.None? then st
    else
      var r := Placed(st, t);
      if AllPlaced(r.dragItems) then r.(gameComplete := true, pendingResults := st.pendingResults + 1)
      else r
  }

  /** `resetGame`. Result timers already scheduled stay scheduled. */
  function ResetState(st: State): State {
    st.(dragItems := UnplaceAll(st.dragItems), dropTargets := EmptyAll(st.dropTargets),
        draggedItem := None, gameComplete := false, showResult := false, moves := 0)
  }

  /** Item ids are pairwise distinct. */
  predicate DistinctIds(items: seq<DragItem>) {
    forall i, j :: 0 <= i < j < |items| ==> items[i].id != items[j].id
  }

  /** A dragged item is one of the items and not placed yet (only unplaced
      items are draggable, and a drop forgets the dragged item). */
  predicate Inv(st: State) {
    && DistinctIds(st.dragItems)
    && (st.draggedItem.Some? ==>
          exists i :: 0 <= i < |st.dragItems| && st.dragItems[i] == st.draggedItem.value && !st.dragItems[i].isPlaced)
  }

  /** The initial layout: item i belongs on target i, nothing is placed, no
      target holds an item. */
  lemma InitialLayout(pairs: seq<(string, string)>)
    ensures var st := Initial(pairs);
            && Inv(st) && |st.dragItems| == |st.dropTargets| == |pairs|
            && (forall i :: 0 <= i < |pairs| ==>
                  st.dragItems[i].correctTarget == st.dropTargets[i].id == i && !st.dragItems[i].isPlaced
                  && !st.dropTargets[i].hasItem)
  {
  }

  /** A drop places exactly the dragged item on the target, counts one move,
      updates exactly the dropped-on target (holding an item, correct iff it is
      the item's own target) and forgets the dragged item. */
  lemma DropSpec(st: State, t: int)
    requires st.draggedItem.Some?
    ensures var r := Dropped(st, t);
            var d := st.draggedItem.value;
            && r.moves == st.moves + 1 && r.draggedItem.None?
            && |r.dragItems| == |st.dragItems| && |r.dropTargets| == |st.dropTargets|
            && (forall i :: 0 <= i < |st.dragItems| && st.dragItems[i].id == d.id ==>
                  r.dragItems[i].isPlaced && r.dragItems[i].placedTarget == Some(t))
            && (forall i :: 0 <= i < |st.dragItems| && st.dragItems[i].id != d.id ==>
                  r.dragItems[i] == st.dragItems[i])
            && (forall i :: 0 <= i < |st.dropTargets| && st.dropTargets[i].id == t ==>
                  r.dropTargets[i].hasItem && (r.dropTargets[i].isCorrect <==> d.correctTarget == t))
            && (forall i :: 0 <= i < |st.dropTargets| && st.dropTargets[i].id != t ==>
                  r.dropTargets[i] == st.dropTargets[i])
  {
  }

  /** Starting to drag an unplaced item, dropping and resetting keep the invariant. */
  lemma StepsKeepInv(st: State, item: DragItem, t: int)
    requires Inv(st)
    ensures item in st.dragItems && !item.isPlaced ==> Inv(DragStarted(st, item))
    ensures Inv(Dropped(st, t)) && Inv(DroppedAsWritten(st, t)) && Inv(ResetState(st))
  {
    if item in st.dragItems && !item.isPlaced {
      var i :| 0 <= i < |st.dragItems| && st.dragItems[i] == item;
      assert DragStarted(st, item).dragItems[i] == item;
    }
    if st.draggedItem.Some? {
      PlacedKeepsInv(st, t);
    }
    ResetKeepsInv(st);
  }

  /** Placing keeps every item's id and forgets the dragged item. */
  lemma PlacedKeepsInv(st: State, t: int)
    requires Inv(st) && st.draggedItem.Some?
    ensures Inv(Placed(st, t)) && Placed(st, t).draggedItem.None?
  {
    var r := Placed(st, t);
    assert forall i :: 0 <= i < |r.dragItems| ==> r.dragItems[i].id == st.dragItems[i].id;
  }

  /** Resetting keeps every item's id and forgets the dragged item. */
  lemma ResetKeepsInv(st: State)
    requires Inv(st)
    ensures Inv(ResetState(st))
  {
    var r := ResetState(st);
    assert forall i :: 0 <= i < |r.dragItems| ==> r.dragItems[i].id == st.dragItems[i].id;
  }

  /** As written, a drop never completes the game: the item being dropped is
      still unplaced in the list the check reads. */
  lemma AsWrittenNeverCompletes(st: State, t: int)
    requires Inv(st)
    ensures DroppedAsWritten(st, t).gameComplete == st.gameComplete
  {
    if st.draggedItem.Some? {
      var i :| 0 <= i < |st.dragItems| && st.dragItems[i] == st.draggedItem.value && !st.dragItems[i].isPlaced;
      assert !AllPlaced(st.dragItems);
    }
  }

  /** The corrected drop completes the game exactly when it places the last
      unplaced item. */
  lemma LastDropCompletes(st: State, t: int)
    requires Inv(st) && st.draggedItem.Some? && !st.gameComplete
    ensures Dropped(st, t).gameComplete <==>
              forall i :: 0 <= i < |st.dragItems| && st.dragItems[i].id != st.draggedItem.value.id ==>
                st.dragItems[i].isPlaced
  {
    var d := st.draggedItem.value;
    var placed := Place(st.dragItems, d.id, t);
    assert AllPlaced(placed) <==>
             forall i :: 0 <= i < |st.dragItems| && st.dragItems[i].id != d.id ==> st.dragItems[i].isPlaced;
  }

  /** Reset unplaces every item, empties every target, forgets the dragged item
      and zeroes the moves; the items and targets themselves stay. */
  lemma ResetSpec(st: State)
    ensures var r := ResetState(st);
            && |r.dragItems| == |st.dragItems| && |r.dropTargets| == |st.dropTargets|
            && (forall i :: 0 <= i < |r.dragItems| ==>
                  !r.dragItems[i].isPlaced && r.dragItems[i].placedTarget.None?
                  && r.dragItems[i].id == st.dragItems[i].id && r.dragItems[i].correctTarget == st.dragItems[i].correctTarget)
            && (forall i :: 0 <= i < |r.dropTargets| ==>
                  !r.dropTargets[i].hasItem && !r.dropTargets[i].isCorrect && r.dropTargets[i].id == st.dropTargets[i].id)
            && r.moves == 0 && r.draggedItem.None? && !r.gameComplete && !r.showResult
  {
  }

  /** `dropTargets.filter(target => target.isCorrect).length`. */
  function CountCorrect(targets: seq<DropTarget>): (r: nat)
    ensures r <= |targets|
  {
    if targets == [] then 0
    else (if targets[0].isCorrect then 1 else 0) + CountCorrect(targets[1..])
  }

  /** `calculateScore`: the same formula as the matching game, with the correct
      placements over the number of pairs. */
  function CalculateScore(targets: seq<DropTarget>, pairCount: int): Option<int> {
    MatchingGame.CalculateScore(CountCorrect(targets), pairCount)
  }

  /** With one target per pair and at least one pair, the score lies in [150, 200]. */
  lemma ScoreBounds(targets: seq<DropTarget>, pairCount: int)
    requires |targets| == pairCount > 0
    ensures var r := CalculateScore(targets, pairCount);
            r.Some? && 150 <= r.value <= 200
  {
    MatchingGame.ScoreBounds(CountCorrect(targets), pairCount);
  }

  class Game {
    var dragItems: seq<DragItem>
    var dropTargets: seq<DropTarget>
    var draggedItem: Option<DragItem>
    var gameComplete: bool
    var showResult: bool
    var moves: int
    var pendingResults: nat

    function Snapshot(): State
      reads this
    {
      State(dragItems, dropTargets, draggedItem, gameComplete, showResult, moves, pendingResults)
    }

    predicate Valid()
      reads this
    {
      Inv(Snapshot())
    }

    constructor (pairs: seq<(string, string)>)
      ensures Valid() && Snapshot() == Initial(pairs)
    {
      dragItems, dropTargets, draggedItem := InitialItems(pairs), InitialTargets(pairs), None;
      gameComplete, showResult, moves, pendingResults := false, false, 0, 0;
      InitialLayout(pairs);
    }

    /** `handleDragStart` on one of the rendered items; only unplaced items are
        draggable. */
    method DragStart(item: DragItem)
      requires Valid() && item in dragItems && !item.isPlaced
      modifies this
      ensures Valid() && Snapshot() == DragStarted(old(Snapshot()), item)
    {
      StepsKeepInv(Snapshot(), item, 0);
      draggedItem := Some(item);
    }

    /** `handleDrop` on target `targetId` as written: the completion check reads
        the items as they were rendered, so a drop never completes the game. */
    method Drop(targetId: int)
      requires Valid()
      modifies this
      ensures Valid() && Snapshot() == DroppedAsWritten(old(Snapshot()), targetId)
      ensures gameComplete == old(gameComplete)
    {
      StepsKeepInv(Snapshot(), DragItem(0, "", 0, true, None), targetId);
      AsWrittenNeverCompletes(Snapshot(), targetId);
      if draggedItem.None? {
        return;
      }
      var d := draggedItem.value;
      var rendered := dragItems;
      moves := moves + 1;
      dragItems := Place(dragItems, d.id, targetId);
      dropTargets := Fill(dropTargets, targetId, d.correctTarget == targetId);
      draggedItem := None;
      if AllPlaced(rendered) {
        // The source completes the game here; the dragged item is unplaced in
        // `rendered`, so this branch is never taken (`DroppedAsWritten` keeps it).
        assert false;
      }
    }

    /** The 500 ms result timer fires. */
    method FireResult()
      requires Valid() && pendingResults > 0
      modifies this
      ensures Valid()
      ensures Snapshot() == old(Snapshot()).(showResult := true, pendingResults := old(pendingResults) - 1)
    {
      showResult := true;
      pendingResults := pendingResults - 1;
    }

    method Reset()
      requires Valid()
      modifies this
      ensures Valid() && Snapshot() == ResetState(old(Snapshot()))
    {
      ResetKeepsInv(Snapshot());
      dragItems := UnplaceAll(dragItems);
      dropTargets := EmptyAll(dropTargets);
      draggedItem := None;
      gameComplete := false;
      showResult := false;
      moves := 0;
    }
  }
}
