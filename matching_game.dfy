/** The card-matching mini game (src/components/games/MatchingGame.tsx): each
    pair of the prop `items` gives a left card with id 2i and a right card with
    id 2i+1; two selected cards match when their ids halve to the same pair
    number. The shuffle is an argument, and the two delayed callbacks (flip a
    failed pair back, show the result) are queued timers that fire as explicit
    steps, in any order. */
module MatchingGame {
  import opened Common

  datatype MatchingItem = MatchingItem(id: int, text: string, matched: bool, flipped: bool)

  /** `setTimeout` callbacks the click handler schedules. */
  datatype Timer = FlipBack(firstId: int, secondId: int) | ShowResult

  /** The cards before the shuffle: the left texts with even ids, then the right
      texts with odd ids. */
  function Deal(pairs: seq<(string, string)>): (r: seq<MatchingItem>)
    ensures |r| == 2 * |pairs|
    ensures forall i :: 0 <= i < |pairs| ==> r[i] == MatchingItem(2 * i, pairs[i].0, false, false)
    ensures forall i :: 0 <= i < |pairs| ==> r[|pairs| + i] == MatchingItem(2 * i + 1, pairs[i].1, false, false)
  {
    Lefts(pairs, 0) + Rights(pairs, 0)
  }

  function Lefts(pairs: seq<(string, string)>, from: nat): (r: seq<MatchingItem>)
    requires from <= |pairs|
    ensures |r| == |pairs| - from
    ensures forall i :: 0 <= i < |r| ==> r[i] == MatchingItem(2 * (from + i), pairs[from + i].0, false, false)
    decreases |pairs| - from
  {
    if from == |pairs| then []
    else [MatchingItem(2 * from, pairs[from].0, false, false)] + Lefts(pairs, from + 1)
  }

  function Rights(pairs: seq<(string, string)>, from: nat): (r: seq<MatchingItem>)
    requires from <= |pairs|
    ensures |r| == |pairs| - from
    ensures forall i :: 0 <= i < |r| ==> r[i] == MatchingItem(2 * (from + i) + 1, pairs[from + i].1, false, false)
    decreases |pairs| - from
  {
    if from == |pairs| then []
    else [MatchingItem(2 * from + 1, pairs[from].1, false, false)] + Rights(pairs, from + 1)
  }

  /** Card ids are pairwise distinct. */
  predicate DistinctIds(items: seq<MatchingItem>) {
    forall i, j :: 0 <= i < j < |items| ==> items[i].id != items[j].id
  }

  /** The dealt cards have distinct ids, and two different dealt cards share a
      pair number exactly when they are the left and right card of one pair. */
  lemma DealPairs(pairs: seq<(string, string)>)
    ensures DistinctIds(Deal(pairs))
    ensures forall i, j :: 0 <= i < |Deal(pairs)| && 0 <= j < |Deal(pairs)| && i != j ==>
              (Deal(pairs)[i].id / 2 == Deal(pairs)[j].id / 2 <==> (i - j == |pairs| || j - i == |pairs|))
  {
    var d := Deal(pairs);
    var n := |pairs|;
    forall i | 0 <= i < |d| ensures d[i].id / 2 == (if i < n then i else i - n) && d[i].id % 2 == (if i < n then 0 else 1) {
      if i >= n { assert d[n + (i - n)] == d[i]; }
    }
  }

  /** `gameItems.find(item => item.id === id)`. */
  function FindItem(items: seq<MatchingItem>, id: int): (r: Option<MatchingItem>)
    ensures r.Some? <==> exists i :: 0 <= i < |items| && items[i].id == id
    ensures r.Some? ==> r.value in items && r.value.id == id
  {
    if items == [] then None
    else if items[0].id == id then Some(items[0])
    else FindItem(items[1..], id)
  }

  /** `prev.map(item => item.id === id ? { ...item, flipped: true } : item)`. */
  function Flip(items: seq<MatchingItem>, id: int): (r: seq<MatchingItem>)
    ensures |r| == |items|
    ensures forall i :: 0 <= i < |items| ==>
              r[i] == if items[i].id == id then items[i].(flipped := true) else items[i]
  {
    if items == [] then []
    else [if items[0].id == id then items[0].(flipped := true) else items[0]] + Flip(items[1..], id)
  }

  /** Marks the two cards `a` and `b` matched. */
  function MarkMatched(items: seq<MatchingItem>, a: int, b: int): (r: seq<MatchingItem>)
    ensures |r| == |items|
    ensures forall i :: 0 <= i < |items| ==>
              r[i] == if items[i].id == a || items[i].id == b then items[i].(matched := true) else items[i]
  {
    if items == [] then []
    else [if items[0].id == a || items[0].id == b then items[0].(matched := true) else items[0]]
         + MarkMatched(items[1..], a, b)
  }

  /** Turns the two cards `a` and `b` face down again. */
  function Unflip(items: seq<MatchingItem>, a: int, b: int): (r: seq<MatchingItem>)
    ensures |r| == |items|
    ensures forall i :: 0 <= i < |items| ==>
              r[i] == if items[i].id == a || items[i].id == b then items[i].(flipped := false) else items[i]
  {
    if items == [] then []
    else [if items[0].id == a || items[0].id == b then items[0].(flipped := false) else items[0]]
         + Unflip(items[1..], a, b)
  }

  /** Every card face down and unmatched. */
  function Cleared(items: seq<MatchingItem>): (r: seq<MatchingItem>)
    ensures |r| == |items|
    ensures forall i :: 0 <= i < |items| ==>
              r[i] == items[i].(flipped := false, matched := false)
  {
    if items == [] then []
    else [items[0].(flipped := false, matched := false)] + Cleared(items[1..])
  }

  /** The game's state; `pairCount` is the length of the `items` prop. */
  datatype State = State(items: seq<MatchingItem>, selected: seq<int>, matches: int, moves: int,
                         gameComplete: bool, showResult: bool, timers: seq<Timer>, pairCount: int)

  /** The click on card `itemId` is ignored: two cards are already selected, or
      the card is face up. */
  predicate Ignored(st: State, itemId: int) {
    var found := FindItem(st.items, itemId);
    |st.selected| >= 2 || (found.Some? && found.value.flipped)
  }

  /** The second half of `handleItemClick`, once `a` and `b` are selected: one
      move is counted, the selection is emptied, and the pair is checked against
      the cards `rendered` as they were when the click happened. A match marks
      both cards and, when it is the last pair, completes the game and schedules
      the result; a miss schedules the flip-back. */
  function PairChecked(st: State, rendered: seq<MatchingItem>, a: int, b: int): State {
    var next := st.(selected := [], moves := st.moves + 1);
    if FindItem(rendered, a).None? || FindItem(rendered, b).None? then next
    else if a / 2 == b / 2 then
      var matched := next.(matches := st.matches + 1, items := MarkMatched(st.items, a, b));
      if st.matches + 1 == st.pairCount then matched.(gameComplete := true, timers := st.timers + [ShowResult])
      else matched
    else next.(timers := st.timers + [FlipBack(a, b)])
  }

  /** `handleItemClick`: the card is flipped and selected; the second card of a
      pair has the pair checked. */
  function Clicked(st: State, itemId: int): State {
    if Ignored(st, itemId) then st
    else
      var picked := st.(selected := st.selected + [itemId], items := Flip(st.items, itemId));
      if |picked.selected| == 2 then PairChecked(picked, st.items, picked.selected[0], picked.selected[1])
      else picked
  }

  /** What is kept between clicks: at most one card waits for its partner, and
      there are never more matches than moves. */
  predicate Inv(st: State) {
    |st.selected| <= 1 && 0 <= st.matches <= st.moves
  }

  /** A click on a face-up card, or with two cards selected, changes nothing. */
  lemma ClickOnFlippedIgnored(st: State, itemId: int, i: nat)
    requires i < |st.items| && st.items[i].id == itemId && st.items[i].flipped
    requires DistinctIds(st.items)
    ensures Clicked(st, itemId) == st
  {
    var found := FindItem(st.items, itemId);
    var k :| 0 <= k < |st.items| && st.items[k] == found.value;
    assert k == i;
  }

  /** The pair check counts one move, empties the selection and adds a match
      exactly when both cards were there and share a pair number; both are then
      marked matched, otherwise the cards stay as they are. */
  lemma PairCheckedSpec(st: State, rendered: seq<MatchingItem>, a: int, b: int)
    ensures var r := PairChecked(st, rendered, a, b);
            var hit := FindItem(rendered, a).Some? && FindItem(rendered, b).Some? && a / 2 == b / 2;
            && r.moves == st.moves + 1 && r.selected == []
            && (hit ==> r.matches == st.matches + 1 && r.items == MarkMatched(st.items, a, b))
            && (!hit ==> r.matches == st.matches && r.items == st.items)
  {
  }

  /** The click with one card waiting hands the pair (waiting card, clicked card)
      to the pair check. */
  lemma SecondClickChecks(st: State, itemId: int)
    requires |st.selected| == 1 && !Ignored(st, itemId)
    ensures Clicked(st, itemId)
              == PairChecked(st.(selected := st.selected + [itemId], items := Flip(st.items, itemId)),
                             st.items, st.selected[0], itemId)
  {
    var sel := st.selected + [itemId];
    assert |sel| == 2 && sel[0] == st.selected[0] && sel[1] == itemId;
  }

  /** The second card of a pair counts exactly one move, empties the selection,
      and adds a match exactly when both cards exist and share a pair number;
      both are then marked matched. */
  lemma SecondClick(st: State, itemId: int)
    requires |st.selected| == 1 && !Ignored(st, itemId)
    ensures var r := Clicked(st, itemId);
            var a := st.selected[0];
            var hit := FindItem(st.items, a).Some? && FindItem(st.items, itemId).Some? && a / 2 == itemId / 2;
            && r.moves == st.moves + 1 && r.selected == []
            && (hit ==> r.matches == st.matches + 1 && r.items == MarkMatched(Flip(st.items, itemId), a, itemId))
            && (!hit ==> r.matches == st.matches && r.items == Flip(st.items, itemId))
  {
    var picked := st.(selected := st.selected + [itemId], items := Flip(st.items, itemId));
    SecondClickChecks(st, itemId);
    PairCheckedSpec(picked, st.items, st.selected[0], itemId);
  }

  /** Every click keeps at most one card selected and matches ≤ moves. */
  lemma ClickKeepsInv(st: State, itemId: int)
    requires Inv(st)
    ensures Inv(Clicked(st, itemId))
  {
    if !Ignored(st, itemId) && |st.selected| == 1 {
      SecondClick(st, itemId);
    }
  }

  /** The first card of a pair is only flipped and remembered. */
  lemma FirstClick(st: State, itemId: int)
    requires |st.selected| == 0 && !Ignored(st, itemId)
    ensures var r := Clicked(st, itemId);
            r == st.(selected := [itemId], items := Flip(st.items, itemId))
  {
  }

  /** A timer callback: a flip-back turns the pair face down, the result timer
      shows the result. */
  function Fired(st: State, t: Timer): State {
    match t
    case FlipBack(a, b) => st.(items := Unflip(st.items, a, b))
    case ShowResult => st.(showResult := true)
  }

  /** `resetGame`: every card face down and unmatched, nothing selected, no
      moves. Timers already scheduled stay scheduled. */
  function ResetState(st: State): (r: State)
    ensures |r.items| == |st.items|
    ensures forall i :: 0 <= i < |r.items| ==>
              && r.items[i].id == st.items[i].id && r.items[i].text == st.items[i].text
              && !r.items[i].flipped && !r.items[i].matched
    ensures r.selected == [] && r.matches == 0 && r.moves == 0 && Inv(r)
    ensures !r.gameComplete && !r.showResult
  {
    st.(items := Cleared(st.items), selected := [], matches := 0, moves := 0,
        gameComplete := false, showResult := false)
  }

  /** Two card lists with the same ids and texts, position by position. */
  predicate SameCards(a: seq<MatchingItem>, b: seq<MatchingItem>) {
    |a| == |b| && forall i :: 0 <= i < |a| ==> a[i].id == b[i].id && a[i].text == b[i].text
  }

  /** Flipping and marking keep every card's id and text. */
  lemma FlipMarkSameCards(items: seq<MatchingItem>, id: int, a: int, b: int)
    ensures SameCards(items, Flip(items, id))
    ensures SameCards(items, MarkMatched(Flip(items, id), a, b))
  {
    var f := Flip(items, id);
    assert SameCards(f, MarkMatched(f, a, b));
  }

  /** The cards' text and ids never change, whatever is clicked. */
  lemma ClickKeepsCards(st: State, itemId: int)
    ensures SameCards(st.items, Clicked(st, itemId).items)
  {
    if !Ignored(st, itemId) {
      if |st.selected| == 1 {
        SecondClick(st, itemId);
        FlipMarkSameCards(st.items, itemId, st.selected[0], itemId);
      } else {
        FlipMarkSameCards(st.items, itemId, 0, 0);
      }
    }
  }

  /** `calculateScore`: 150 XP plus ten per full ten percent of accuracy, at most
      200. With no move the source divides by zero: a positive count gives an
      infinite accuracy, capped at 200, and otherwise the result is not a
      finite number (`None`). */
  function CalculateScore(matches: int, moves: int): (r: Option<int>)
    ensures r.Some? <==> moves != 0 || matches > 0
    ensures moves == 0 && matches > 0 ==> r == Some(200)
  {
    if moves == 0 then (if matches > 0 then Some(200) else None)
    else
      var accuracy := (matches as real / moves as real) * 100.0;
      var bonus := (accuracy / 10.0).Floor * 10;
      Some(if 150 + bonus < 200 then 150 + bonus else 200)
  }

  /** Whenever there are moves and no more matches than moves, the score lies in
      [150, 200]; a perfect game scores 200, a game without matches 150. */
  lemma ScoreBounds(matches: int, moves: int)
    requires moves > 0 && 0 <= matches <= moves
    ensures var r := CalculateScore(matches, moves);
            r.Some? && 150 <= r.value <= 200
            && (matches == moves ==> r.value == 200)
            && (matches == 0 ==> r.value == 150)
  {
    var q := matches as real / moves as real;
    assert q * (moves as real) == matches as real;
    FractionAtMostOne(matches as real, moves as real);
    assert 0.0 <= q * 100.0 / 10.0 <= 10.0;
    if matches == moves { assert q == 1.0; }
    if matches == 0 { assert q == 0.0; }
  }

  class Game {
    var items: seq<MatchingItem>
    var selected: seq<int>
    var matches: int
    var moves: int
    var gameComplete: bool
    var showResult: bool
    var timers: seq<Timer>
    const pairCount: int

    function Snapshot(): State
      reads this
    {
      State(items, selected, matches, moves, gameComplete, showResult, timers, pairCount)
    }

    /** The initialising effect: the dealt cards in the given shuffled order. */
    constructor (pairs: seq<(string, string)>, shuffled: seq<MatchingItem>)
      requires multiset(shuffled) == multiset(Deal(pairs))
      ensures Snapshot() == State(shuffled, [], 0, 0, false, false, [], |pairs|)
      ensures Inv(Snapshot())
    {
      items, selected, matches, moves := shuffled, [], 0, 0;
      gameComplete, showResult, timers := false, false, [];
      pairCount := |pairs|;
    }

    method ItemClick(itemId: int)
      modifies this
      ensures Snapshot() == Clicked(old(Snapshot()), itemId)
    {
      var found := FindItem(items, itemId);
      if |selected| >= 2 || (found.Some? && found.value.flipped) {
        return;
      }
      var rendered := items;
      selected := selected + [itemId];
      items := Flip(items, itemId);
      if |selected| == 2 {
        CheckPair(rendered, selected[0], selected[1]);
      }
    }

    /** The pair check of `handleItemClick`. */
    method CheckPair(rendered: seq<MatchingItem>, firstId: int, secondId: int)
      modifies this
      ensures Snapshot() == PairChecked(old(Snapshot()), rendered, firstId, secondId)
    {
      moves := moves + 1;
      var firstItem := FindItem(rendered, firstId);
      var secondItem := FindItem(rendered, secondId);
      if firstItem.Some? && secondItem.Some? {
        if firstId / 2 == secondId / 2 {
          var done := matches + 1 == pairCount;
          matches := matches + 1;
          items := MarkMatched(items, firstId, secondId);
          if done {
            gameComplete := true;
            timers := timers + [ShowResult];
          }
        } else {
          timers := timers + [FlipBack(firstId, secondId)];
        }
      }
      selected := [];
    }

    /** Timer number `i` of the queue fires and leaves it. */
    method FireTimer(i: nat)
      requires i < |timers|
      modifies this
      ensures var t := old(timers)[i];
              Snapshot() == Fired(old(Snapshot()), t).(timers := old(timers)[..i] + old(timers)[i + 1..])
    {
      var t := timers[i];
      timers := timers[..i] + timers[i + 1..];
      match t
      case FlipBack(a, b) => items := Unflip(items, a, b);
      case ShowResult => showResult := true;
    }

    method Reset()
      modifies this
      ensures Snapshot() == ResetState(old(Snapshot()))
    {
      items := Cleared(items);
      selected := [];
      matches := 0;
      moves := 0;
      gameComplete := false;
      showResult := false;
    }
  }
}
