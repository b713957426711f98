/**
 * The education-history editor (components/profile/EducationForm.tsx): a
 * list of entries that can be extended with a blank entry, shortened by
 * index, edited field by field, and handed back on submit.
 */
module EducationForm {
  import opened Wrappers
  import opened Seqs

  datatype EducationEntry = EducationEntry(
    institution: string,
    degree: string,
    fieldOfStudy: string,
    startDate: string,
    endDate: string,
    isCurrentlyEnrolled: bool,
    country: string)

  /** The entry `Add Education` appends. */
  const Blank := EducationEntry("", "", "", "", "", false, "")

  /** The text inputs of an entry. */
  datatype TextField = Institution | Degree | FieldOfStudy | StartDate | EndDate | Country

  /** One `onChange`: a text input, or the enrolment checkbox. */
  datatype Edit = SetText(field: TextField, value: string) | SetEnrolled(enrolled: bool)

  function Read(e: EducationEntry, f: TextField): string {
    match f
    case Institution => e.institution
    case Degree => e.degree
    case FieldOfStudy => e.fieldOfStudy
    case StartDate => e.startDate
    case EndDate => e.endDate
    case Country => e.country
  }

  /** `{ ...entry, [field]: value }`: the edited field takes the value, every other field is kept. */
  function Apply(e: EducationEntry, edit: Edit): (r: EducationEntry)
    ensures edit.SetText? ==> Read(r, edit.field) == edit.value
    ensures edit.SetText? ==> forall g :: g != edit.field ==> Read(r, g) == Read(e, g)
    ensures edit.SetText? ==> r.isCurrentlyEnrolled == e.isCurrentlyEnrolled
    ensures edit.SetEnrolled? ==> r.isCurrentlyEnrolled == edit.enrolled
    ensures edit.SetEnrolled? ==> forall g :: Read(r, g) == Read(e, g)
  {
    match edit
    case SetEnrolled(b) => e.(isCurrentlyEnrolled := b)
    case SetText(f, v) =>
      match f
      case Institution => e.(institution := v)
      case Degree => e.(degree := v)
      case FieldOfStudy => e.(fieldOfStudy := v)
      case StartDate => e.(startDate := v)
      case EndDate => e.(endDate := v)
      case Country => e.(country := v)
  }

  /** Typing into the same input twice keeps only the second value. */
  lemma ApplyLastWins(e: EducationEntry, f: TextField, v: string, w: string)
    ensures Apply(Apply(e, SetText(f, v)), SetText(f, w)) == Apply(e, SetText(f, w))
  {
  }

  /** One of the `required` inputs (institution, degree and start date) is empty; the browser then refuses to submit. */
  predicate Incomplete(e: EducationEntry) {
    e.institution == "" || e.degree == "" || e.startDate == ""
  }

  /** Some rendered entry is incomplete, so the form's `onSubmit` never fires. */
  predicate Blocked(entries: seq<EducationEntry>) {
    exists i :: 0 <= i < |entries| && Incomplete(entries[i])
  }

  /** A freshly added entry blocks submission until its required inputs are filled. */
  lemma AddBlocks(entries: seq<EducationEntry>)
    ensures Blocked(entries + [Blank])
  {
    assert Incomplete((entries + [Blank])[|entries|]);
  }

  class EducationForm {
    var entries: seq<EducationEntry>

    /** The list starts as the saved entries, or empty when there are none. */
    constructor (data: Option<seq<EducationEntry>>)
      ensures entries == data.GetOr([])
    {
      entries := data.GetOr([]);
    }

    /** `addEducation`. */
    method Add()
      modifies this
      ensures entries == old(entries) + [Blank]
    {
      entries := entries + [Blank];
    }

    /** `removeEducation`. */
    method Remove(index: int)
      modifies this
      ensures entries == RemoveAt(old(entries), index)
      ensures 0 <= index < |old(entries)| ==> |entries| == |old(entries)| - 1
      ensures IsSubsequence(entries, old(entries))
    {
      RemoveAtIsSubsequence(entries, index);
      entries := RemoveAt(entries, index);
    }

    /** `updateEducation`: a copy of the list with entry `index` replaced by its edited copy. */
    method Update(index: int, edit: Edit)
      requires 0 <= index < |entries|
      modifies this
      ensures entries == old(entries)[index := Apply(old(entries)[index], edit)]
    {
      var updated := new EducationEntry[|entries|](i reads this requires 0 <= i < |entries| => entries[i]);
      updated[index] := Apply(updated[index], edit);
      entries := updated[..];
    }

    /** The Remove control is offered on every entry once there are at least two. */
    predicate OffersRemove()
      reads this
    {
      |entries| > 1
    }

    /**
     * The Save button: while an entry is incomplete the browser blocks the
     * submit and `onSave` is not called; otherwise `handleSubmit` hands the
     * list, as it stands, to `onSave` exactly once (`saves`).
     */
    method Submit() returns (saves: seq<seq<EducationEntry>>)
      ensures Blocked(entries) <==> saves == []
      ensures !Blocked(entries) ==> saves == [entries]
    {
      if Blocked(entries) {
        saves := [];
      } else {
        saves := [entries];
      }
    }
  }

  /** Removing through the offered control never empties the list. */
  lemma OfferedRemoveKeepsOne(form: EducationForm, index: int)
    requires form.OffersRemove() && 0 <= index < |form.entries|
    ensures |RemoveAt(form.entries, index)| >= 1
    ensures multiset(RemoveAt(form.entries, index)) + multiset{form.entries[index]} == multiset(form.entries)
  {
    RemoveAtMultiset(form.entries, index);
  }
}
