/**
 * The employment-history editor (components/profile/EmploymentForm.tsx): a
 * list of positions that can be extended with a blank one, shortened by
 * index, edited field by field, and handed back on submit.
 */
module EmploymentForm {
  import opened Wrappers
  import opened Seqs

  datatype EmploymentEntry = EmploymentEntry(
    employer: string,
    position: string,
    startDate: string,
    endDate: string,
    isCurrentlyEmployed: bool,
    responsibilities: string,
    country: string)

  /** The entry `Add Employment` appends. */
  const Blank := EmploymentEntry("", "", "", "", false, "", "")

  /** The text inputs of an entry. */
  datatype TextField = Employer | Position | Country | StartDate | EndDate | Responsibilities

  /** One `onChange`: a text input, or the current-employment checkbox. */
  datatype Edit = SetText(field: TextField, value: string) | SetEmployed(employed: bool)

  function Read(e: EmploymentEntry, f: TextField): string {
    match f
    case Employer => e.employer
    case Position => e.position
    case Country => e.country
    case StartDate => e.startDate
    case EndDate => e.endDate
    case Responsibilities => e.responsibilities
  }

  /** `{ ...entry, [field]: value }`: the edited field takes the value, every other field is kept. */
  function Apply(e: EmploymentEntry, edit: Edit): (r: EmploymentEntry)
    ensures edit.SetText? ==> Read(r, edit.field) == edit.value
    ensures edit.SetText? ==> forall g :: g != edit.field ==> Read(r, g) == Read(e, g)
    ensures edit.SetText? ==> r.isCurrentlyEmployed == e.isCurrentlyEmployed
    ensures edit.SetEmployed? ==> r.isCurrentlyEmployed == edit.employed
    ensures edit.SetEmployed? ==> forall g :: Read(r, g) == Read(e, g)
  {
    match edit
    case SetEmployed(b) => e.(isCurrentlyEmployed := b)
    case SetText(f, v) =>
      match f
      case Employer => e.(employer := v)
      case Position => e.(position := v)
      case Country => e.(country := v)
      case StartDate => e.(startDate := v)
      case EndDate => e.(endDate := v)
      case Responsibilities => e.(responsibilities := v)
  }

  /** Editing two different inputs gives the same entry in either order. */
  lemma ApplyCommutes(e: EmploymentEntry, f: TextField, v: string, g: TextField, w: string)
    requires f != g
    ensures Apply(Apply(e, SetText(f, v)), SetText(g, w)) == Apply(Apply(e, SetText(g, w)), SetText(f, v))
  {
  }

  /** One of the `required` inputs (employer, position and start date) is empty; the browser then refuses to submit. */
  predicate Incomplete(e: EmploymentEntry) {
    e.employer == "" || e.position == "" || e.startDate == ""
  }

  /** Some rendered entry is incomplete, so the form's `onSubmit` never fires. */
  predicate Blocked(entries: seq<EmploymentEntry>) {
    exists i :: 0 <= i < |entries| && Incomplete(entries[i])
  }

  /** A freshly added entry blocks submission until its required inputs are filled. */
  lemma AddBlocks(entries: seq<EmploymentEntry>)
    ensures Blocked(entries + [Blank])
  {
    assert Incomplete((entries + [Blank])[|entries|]);
  }

  class EmploymentForm {
    var entries: seq<EmploymentEntry>

    /** The list starts as the saved positions, or empty when there are none. */
    constructor (data: Option<seq<EmploymentEntry>>)
      ensures entries == data.GetOr([])
    {
      entries := data.GetOr([]);
    }

    /** `addEmployment`. */
    method Add()
      modifies this
      ensures entries == old(entries) + [Blank]
    {
      entries := entries + [Blank];
    }

    /** `removeEmployment`. */
    method Remove(index: int)
      modifies this
      ensures entries == RemoveAt(old(entries), index)
      ensures 0 <= index < |old(entries)| ==> |entries| == |old(entries)| - 1
      ensures IsSubsequence(entries, old(entries))
    {
      RemoveAtIsSubsequence(entries, index);
      entries := RemoveAt(entries, index);
    }

    /** `updateEmployment`: a copy of the list with entry `index` replaced by its edited copy. */
    method Update(index: int, edit: Edit)
      requires 0 <= index < |entries|
      modifies this
      ensures entries == old(entries)[index := Apply(old(entries)[index], edit)]
    {
      var updated := new EmploymentEntry[|entries|](i reads this requires 0 <= i < |entries| => entries[i]);
      updated[index] := Apply(updated[index], edit);
      entries := updated[..];
    }

    /** The Remove control is offered on every entry once there are at least two. */
    predicate OffersRemove()
      reads this
    {
      |entries| > 1
    }

    /**
     * The Save button: while an entry is incomplete the browser blocks the
     * submit and `onSave` is not called; otherwise `handleSubmit` hands the
     * list, as it stands, to `onSave` exactly once (`saves`).
     */
    method Submit() returns (saves: seq<seq<EmploymentEntry>>)
      ensures Blocked(entries) <==> saves == []
      ensures !Blocked(entries) ==> saves == [entries]
    {
      if Blocked(entries) {
        saves := [];
      } else {
        saves := [entries];
      }
    }
  }

  /** Removing through the offered control never empties the list. */
  lemma OfferedRemoveKeepsOne(form: EmploymentForm, index: int)
    requires form.OffersRemove() && 0 <= index < |form.entries|
    ensures |RemoveAt(form.entries, index)| >= 1
    ensures multiset(RemoveAt(form.entries, index)) + multiset{form.entries[index]} == multiset(form.entries)
  {
    RemoveAtMultiset(form.entries, index);
  }
}
