/** The teacher's assignments page of the second copy of the application
    (physics-learning-platform/src/components/AssignmentsPage.tsx): a form that
    either creates a new assignment or edits the one being edited, and a list
    whose entries can be loaded into the form or deleted. */
module AssignmentsPage {
  import opened Common
  import opened LabTypes

  /** The form's three fields. */
  datatype Form = Form(title: string, description: string, dueDate: string)

  function EmptyForm(): Form {
    Form("", "", "")
  }

  /** The submit guard: every field is non-empty (an empty string is falsy). */
  predicate Complete(f: Form) {
    f.title != "" && f.description != "" && f.dueDate != ""
  }

  /** `{ ...assignment, ...formData }`. */
  function WithForm(a: Assignment, f: Form): Assignment {
    a.(title := f.title, description := f.description, dueDate := f.dueDate)
  }

  /** What `handleEdit` loads into the form. */
  function FormOf(a: Assignment): Form {
    Form(a.title, a.description, a.dueDate)
  }

  /** The edit branch of `handleSubmit`: every assignment with the edited id
      takes the form's fields. */
  function Edited(assignments: seq<Assignment>, id: int, f: Form): (r: seq<Assignment>)
    ensures |r| == |assignments|
    ensures forall i :: 0 <= i < |r| ==>
              r[i].id == assignments[i].id && r[i].teacherId == assignments[i].teacherId
              && r[i].createdAt == assignments[i].createdAt
    ensures forall i :: 0 <= i < |r| && assignments[i].id == id ==> FormOf(r[i]) == f
    ensures forall i :: 0 <= i < |r| && assignments[i].id != id ==> r[i] == assignments[i]
  {
    seq(|assignments|, i requires 0 <= i < |assignments| =>
          if assignments[i].id == id then WithForm(assignments[i], f) else assignments[i])
  }

  /** Saving an edit twice is saving it once, and loading the edited entry back
      into the form gives the form that was saved. */
  lemma EditedRoundTrip(assignments: seq<Assignment>, id: int, f: Form)
    ensures Edited(Edited(assignments, id, f), id, f) == Edited(assignments, id, f)
    ensures forall a :: a in Edited(assignments, id, f) && a.id == id ==> FormOf(a) == f
  {
    var once := Edited(assignments, id, f);
    assert forall i :: 0 <= i < |once| && once[i].id == id ==> WithForm(once[i], f) == once[i];
  }

  /** The assignment the create branch builds; `now` stands for `Date.now()`
      and `nowIso` for `new Date().toISOString()`. */
  function NewAssignment(f: Form, teacherId: int, now: int, nowIso: string): (r: Assignment)
    ensures FormOf(r) == f && r.teacherId == teacherId && r.id == now && r.createdAt == nowIso
  {
    Assignment(now, f.title, f.description, f.dueDate, teacherId, nowIso)
  }

  /** `handleDelete`'s filter. */
  function Deleted(assignments: seq<Assignment>, id: int): (r: seq<Assignment>)
    ensures |r| <= |assignments|
    ensures forall a :: a in r <==> a in assignments && a.id != id
    ensures (forall i :: 0 <= i < |assignments| ==> assignments[i].id != id) ==> r == assignments
  {
    if assignments == [] then []
    else (if assignments[0].id != id then [assignments[0]] else []) + Deleted(assignments[1..], id)
  }

  /** Deleting keeps the order of what stays: it works part by part. */
  lemma {:induction false} DeletedAppend(a: seq<Assignment>, b: seq<Assignment>, id: int)
    ensures Deleted(a + b, id) == Deleted(a, id) + Deleted(b, id)
  {
    if a == [] {
      assert a + b == b;
    } else {
      assert (a + b)[1..] == a[1..] + b;
      DeletedAppend(a[1..], b, id);
    }
  }

  /** Deleting an id twice is deleting it once. */
  lemma DeletedIdempotent(assignments: seq<Assignment>, id: int)
    ensures Deleted(Deleted(assignments, id), id) == Deleted(assignments, id)
  {
    var r := Deleted(assignments, id);
    assert forall i :: 0 <= i < |r| ==> r[i] in r;
  }

  class Page {
    const teacherId: int
    var assignments: seq<Assignment>
    var showForm: bool
    var editing: Option<Assignment>
    var form: Form
    var notices: seq<string>

    constructor (teacher: int, assignments0: seq<Assignment>)
      ensures teacherId == teacher && assignments == assignments0
      ensures !showForm && editing.None? && form == EmptyForm() && notices == []
    {
      teacherId, assignments := teacher, assignments0;
      showForm, editing, form, notices := false, None, EmptyForm(), [];
    }

    /** The "Create Assignment" buttons. */
    method OpenForm()
      modifies this
      ensures showForm && assignments == old(assignments) && editing == old(editing)
      ensures form == old(form) && notices == old(notices)
    {
      showForm := true;
    }

    /** The three inputs' `onChange`. */
    method Type(f: Form)
      modifies this
      ensures form == f && showForm == old(showForm) && assignments == old(assignments)
      ensures editing == old(editing) && notices == old(notices)
    {
      form := f;
    }

    /** `handleSubmit`. */
    method Submit(now: int, nowIso: string)
      modifies this
      ensures !Complete(old(form)) ==>
                && assignments == old(assignments) && notices == old(notices) + ["Please fill in all fields"]
                && form == old(form) && showForm == old(showForm) && editing == old(editing)
      ensures Complete(old(form)) && old(editing).Some? ==>
                && assignments == Edited(old(assignments), old(editing).value.id, old(form))
                && notices == old(notices) + ["Assignment updated successfully!"]
      ensures Complete(old(form)) && old(editing).None? ==>
                && assignments == old(assignments) + [NewAssignment(old(form), teacherId, now, nowIso)]
                && notices == old(notices) + ["Assignment created successfully!"]
      ensures Complete(old(form)) ==> form == EmptyForm() && !showForm && editing.None?
    {
      if !Complete(form) {
        notices := notices + ["Please fill in all fields"];
        return;
      }
      if editing.Some? {
        assignments := Edited(assignments, editing.value.id, form);
        notices := notices + ["Assignment updated successfully!"];
      } else {
        assignments := assignments + [NewAssignment(form, teacherId, now, nowIso)];
        notices := notices + ["Assignment created successfully!"];
      }
      form := EmptyForm();
      showForm := false;
      editing := None;
    }

    /** `handleEdit`. */
    method Edit(a: Assignment)
      modifies this
      ensures editing == Some(a) && form == FormOf(a) && showForm
      ensures assignments == old(assignments) && notices == old(notices)
    {
      editing := Some(a);
      form := Form(a.title, a.description, a.dueDate);
      showForm := true;
    }

    /** `handleDelete`. */
    method Delete(id: int)
      modifies this
      ensures assignments == Deleted(old(assignments), id)
      ensures notices == old(notices) + ["Assignment deleted successfully!"]
      ensures form == old(form) && showForm == old(showForm) && editing == old(editing)
    {
      assignments := Deleted(assignments, id);
      notices := notices + ["Assignment deleted successfully!"];
    }

    /** `handleCancel`. */
    method Cancel()
      modifies this
      ensures form == EmptyForm() && !showForm && editing.None?
      ensures assignments == old(assignments) && notices == old(notices)
    {
      form := EmptyForm();
      showForm := false;
      editing := None;
    }
  }
}
