/** The formula-matching game (physics-learning-platform/src/components/games/
    FormulaMatch.tsx). A click on a formula or a description selects it,
    deselects it, or compares it with the selected one; the comparison looks
    both entries up in the same table and records a match only when the two
    entries are the same entry, which the earlier branch has already handled.
    So no click ever records a match or scores. */
module FormulaMatch {
  import opened Common

  datatype Formula = Formula(id: string, formula: string, description: string)

  /** The game's six formulas (the text is kept as the source spells it). */
  function Formulas(): seq<Formula> {
    [Formula("fma", "F = ma", "Newton's Second Law"),
     Formula("ke", "KE = Â½mvÂ²", "Kinetic Energy"),
     Formula("pe", "PE = mgh", "Potential Energy"),
     Formula("v2u2", "vÂ² = uÂ² + 2as", "Kinematic Equation"),
     Formula("p", "p = mv", "Momentum"),
     Formula("w", "W = Fd", "Work")]
  }

  /** `formulas.find(f => f.id === id)`. */
  function FindById(fs: seq<Formula>, id: string): (r: Option<Formula>)
    ensures r.Some? ==> r.value.id == id
    ensures r.None? ==> forall i :: 0 <= i < |fs| ==> fs[i].id != id
  {
    if fs == [] then None else if fs[0].id == id then Some(fs[0]) else FindById(fs[1..], id)
  }

  /** `formulas.find(f => f.description === d)`. */
  function FindByDescription(fs: seq<Formula>, d: string): (r: Option<Formula>)
    ensures r.Some? ==> r.value.description == d
    ensures r.None? ==> forall i :: 0 <= i < |fs| ==> fs[i].description != d
  {
    if fs == [] then None else if fs[0].description == d then Some(fs[0]) else FindByDescription(fs[1..], d)
  }

  datatype State = State(score: int, currentLevel: int, selectedFormula: Option<string>,
                         selectedDescription: Option<string>, matches: map<string, string>)

  /** The first render, and what `resetGame` returns to. */
  function Initial(): State {
    State(0, 1, None, None, map[])
  }

  /** `handleFormulaClick`. Its match branch is proved unreachable. */
  function FormulaClicked(st: State, formulaId: string): (r: State)
    ensures st.selectedFormula.None? ==> r == st.(selectedFormula := Some(formulaId))
    ensures st.selectedFormula == Some(formulaId) ==> r == st.(selectedFormula := None)
  {
    match st.selectedFormula
    case None => st.(selectedFormula := Some(formulaId))
    case Some(sel) =>
      if sel == formulaId then st.(selectedFormula := None)
      else
        var formula := FindById(Formulas(), formulaId);
        var selectedObj := FindById(Formulas(), sel);
        if formula.Some? && selectedObj.Some? then
          // the source records a match here; the two lookups found entries
          // with the different ids `formulaId` and `sel`
          if formula.value.id == selectedObj.value.id then assert false; st
          else st.(selectedFormula := Some(formulaId))
        else st
  }

  /** `handleDescriptionClick`. Its match branch is proved unreachable. */
  function DescriptionClicked(st: State, description: string): (r: State)
    ensures st.selectedDescription.None? ==> r == st.(selectedDescription := Some(description))
    ensures st.selectedDescription == Some(description) ==> r == st.(selectedDescription := None)
  {
    match st.selectedDescription
    case None => st.(selectedDescription := Some(description))
    case Some(sel) =>
      if sel == description then st.(selectedDescription := None)
      else
        var formula := FindByDescription(Formulas(), description);
        var selectedObj := FindByDescription(Formulas(), sel);
        if formula.Some? && selectedObj.Some? then
          // the source records a match here; the two lookups found entries
          // with the different descriptions `description` and `sel`
          if formula.value.description == selectedObj.value.description then assert false; st
          else st.(selectedDescription := Some(description))
        else st
  }

  /** A click on another known formula replaces the selection; one on an
      unknown id changes nothing. Score and matches never change. */
  lemma FormulaClickNeverMatches(st: State, formulaId: string)
    ensures var r := FormulaClicked(st, formulaId);
            && r.matches == st.matches && r.score == st.score && r.currentLevel == st.currentLevel
            && r.selectedDescription == st.selectedDescription
            && (st.selectedFormula.Some? && st.selectedFormula != Some(formulaId) ==>
                  r.selectedFormula ==
                    if FindById(Formulas(), formulaId).Some? && FindById(Formulas(), st.selectedFormula.value).Some?
                    then Some(formulaId) else st.selectedFormula)
  {
  }

  /** The same for descriptions. */
  lemma DescriptionClickNeverMatches(st: State, description: string)
    ensures var r := DescriptionClicked(st, description);
            && r.matches == st.matches && r.score == st.score && r.currentLevel == st.currentLevel
            && r.selectedFormula == st.selectedFormula
            && (st.selectedDescription.Some? && st.selectedDescription != Some(description) ==>
                  r.selectedDescription ==
                    if FindByDescription(Formulas(), description).Some?
                       && FindByDescription(Formulas(), st.selectedDescription.value).Some?
                    then Some(description) else st.selectedDescription)
  {
  }

  /** `isMatched`: the formula id is a key of the matches. */
  predicate IsMatched(matches: map<string, string>, formulaId: string) {
    formulaId in matches
  }

  /** `isDescriptionMatched`: the description is one of the matched values. */
  predicate IsDescriptionMatched(matches: map<string, string>, description: string) {
    description in matches.Values
  }

  /** What every reachable state shares with the first: no match, no score, level 1. */
  predicate Untouched(st: State) {
    st.matches == map[] && st.score == 0 && st.currentLevel == 1
  }

  /** The first state is untouched, every click and the reset keep it so, and so
      no formula and no description is ever shown as matched. */
  lemma NothingEverMatches(st: State, formulaId: string, description: string)
    requires Untouched(st)
    ensures Untouched(Initial())
    ensures Untouched(FormulaClicked(st, formulaId)) && Untouched(DescriptionClicked(st, description))
    ensures !IsMatched(st.matches, formulaId) && !IsDescriptionMatched(st.matches, description)
  {
    FormulaClickNeverMatches(st, formulaId);
    DescriptionClickNeverMatches(st, description);
  }

  class Game {
    var score: int
    var currentLevel: int
    var selectedFormula: Option<string>
    var selectedDescription: Option<string>
    var matches: map<string, string>

    function Snapshot(): State
      reads this
    {
      State(score, currentLevel, selectedFormula, selectedDescription, matches)
    }

    constructor ()
      ensures Snapshot() == Initial()
    {
      score, currentLevel, selectedFormula, selectedDescription, matches := 0, 1, None, None, map[];
    }

    method FormulaClick(formulaId: string)
      modifies this
      ensures Snapshot() == FormulaClicked(old(Snapshot()), formulaId)
    {
      if selectedFormula.None? {
        selectedFormula := Some(formulaId);
      } else if selectedFormula == Some(formulaId) {
        selectedFormula := None;
      } else {
        var formula := FindById(Formulas(), formulaId);
        var selectedObj := FindById(Formulas(), selectedFormula.value);
        if formula.Some? && selectedObj.Some? {
          if formula.value.id == selectedObj.value.id {
            // the source records a match here: unreachable
            assert false;
          } else {
            selectedFormula := Some(formulaId);
          }
        }
      }
    }

    method DescriptionClick(description: string)
      modifies this
      ensures Snapshot() == DescriptionClicked(old(Snapshot()), description)
    {
      if selectedDescription.None? {
        selectedDescription := Some(description);
      } else if selectedDescription == Some(description) {
        selectedDescription := None;
      } else {
        var formula := FindByDescription(Formulas(), description);
        var selectedObj := FindByDescription(Formulas(), selectedDescription.value);
        if formula.Some? && selectedObj.Some? {
          if formula.value.description == selectedObj.value.description {
            // the source records a match here: unreachable
            assert false;
          } else {
            selectedDescription := Some(description);
          }
        }
      }
    }

    method Reset()
      modifies this
      ensures Snapshot() == Initial()
    {
      score := 0;
      currentLevel := 1;
      selectedFormula := None;
      selectedDescription := None;
      matches := map[];
    }
  }
}
