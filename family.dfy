/**
 * The family-members page (app/profile/family/page.tsx): one form that
 * either adds a member or edits the one picked from the list, and deletion
 * of listed members after a confirmation.
 */
module Family {
  import opened Wrappers
  import opened Platform

  datatype FamilyMember = FamilyMember(
    id: Option<string>,
    firstName: string,
    lastName: string,
    relationship: string,
    dateOfBirth: string,
    nationality: string,
    passportNumber: Option<string>,
    email: Option<string>,
    phone: Option<string>)

  /** The form's initial and reset value: all eight inputs empty, no `_id`. */
  const BlankMember := FamilyMember(None, "", "", "", "", "", Some(""), Some(""), Some(""))

  const Collection := "/profile/family-members"

  /** The inputs, by their `name` attribute. */
  datatype Field = FirstName | LastName | Relationship | DateOfBirth | Nationality | PassportNumber | Email | Phone

  function Read(m: FamilyMember, f: Field): Option<string> {
    match f
    case FirstName => Some(m.firstName)
    case LastName => Some(m.lastName)
    case Relationship => Some(m.relationship)
    case DateOfBirth => Some(m.dateOfBirth)
    case Nationality => Some(m.nationality)
    case PassportNumber => m.passportNumber
    case Email => m.email
    case Phone => m.phone
  }

  /** `{ ...formData, [name]: value }`: the named input takes the value, the rest (and `_id`) are kept. */
  function WithField(m: FamilyMember, f: Field, value: string): (r: FamilyMember)
    ensures Read(r, f) == Some(value)
    ensures forall g :: g != f ==> Read(r, g) == Read(m, g)
    ensures r.id == m.id
  {
    match f
    case FirstName => m.(firstName := value)
    case LastName => m.(lastName := value)
    case Relationship => m.(relationship := value)
    case DateOfBirth => m.(dateOfBirth := value)
    case Nationality => m.(nationality := value)
    case PassportNumber => m.(passportNumber := Some(value))
    case Email => m.(email := Some(value))
    case Phone => m.(phone := Some(value))
  }

  /** Where a save goes: an update of the member when it has an `_id`, a creation otherwise. */
  function SaveRoute(m: FamilyMember): (e: Event)
    ensures e.Call?
    ensures e.verb == Put <==> Truthy(m.id)
    ensures e.verb == Post <==> !Truthy(m.id)
    ensures Truthy(m.id) ==> e.path == Collection + "/" + m.id.value
    ensures !Truthy(m.id) ==> e.path == Collection
  {
    if Truthy(m.id) then Call(Put, Collection + "/" + m.id.value) else Call(Post, Collection)
  }

  /** A blank form always creates. */
  lemma BlankCreates()
    ensures SaveRoute(BlankMember) == Call(Post, Collection)
  {
  }

  /** Typing never changes where the save goes. */
  lemma EditKeepsRoute(m: FamilyMember, f: Field, value: string)
    ensures SaveRoute(WithField(m, f, value)) == SaveRoute(m)
  {
  }

  /** The inputs marked `required`: the names, the relationship, the date of birth and the nationality. */
  predicate Required(f: Field) {
    f.FirstName? || f.LastName? || f.Relationship? || f.DateOfBirth? || f.Nationality?
  }

  /** A `required` input is empty, so the browser refuses to submit the form (the `required` part of its checks only). */
  predicate Blocked(m: FamilyMember) {
    m.firstName == "" || m.lastName == "" || m.relationship == "" || m.dateOfBirth == "" || m.nationality == ""
  }

  /** The `required` gate is closed exactly when some required input reads empty. */
  lemma BlockedByRequired(m: FamilyMember)
    ensures Blocked(m) <==> exists f :: Required(f) && Read(m, f) == Some("")
  {
    if m.firstName == "" { assert Required(FirstName) && Read(m, FirstName) == Some(""); }
    else if m.lastName == "" { assert Required(LastName) && Read(m, LastName) == Some(""); }
    else if m.relationship == "" { assert Required(Relationship) && Read(m, Relationship) == Some(""); }
    else if m.dateOfBirth == "" { assert Required(DateOfBirth) && Read(m, DateOfBirth) == Some(""); }
    else if m.nationality == "" { assert Required(Nationality) && Read(m, Nationality) == Some(""); }
  }

  /** Typing into an optional input never blocks or unblocks the form. */
  lemma OptionalKeepsBlocked(m: FamilyMember, f: Field, value: string)
    requires !Required(f)
    ensures Blocked(WithField(m, f, value)) == Blocked(m)
  {
  }

  /** The blank form cannot be submitted. */
  lemma BlankBlocked()
    ensures Blocked(BlankMember)
  {
  }

  /** How a mutation settled. */
  datatype Reply = Failed(message: Option<string>) | Succeeded

  const DeleteQuestion := "Are you sure you want to delete this family member?"

  class FamilyPage {
    var showForm: bool
    var editingMember: Option<FamilyMember>
    var formData: FamilyMember
    const browser: Browser

    constructor (browser: Browser)
      ensures !showForm && editingMember == None && formData == BlankMember && this.browser == browser
    {
      showForm := false;
      editingMember := None;
      formData := BlankMember;
      this.browser := browser;
    }

    /** The add buttons. */
    method OpenForm()
      modifies this
      ensures showForm && editingMember == old(editingMember) && formData == old(formData)
    {
      showForm := true;
    }

    /** `resetForm`, also the Cancel button. */
    method ResetForm()
      modifies this
      ensures formData == BlankMember && editingMember == None && !showForm
    {
      formData := BlankMember;
      editingMember := None;
      showForm := false;
    }

    /** `handleEdit`: the member is loaded into the form, which opens. */
    method HandleEdit(member: FamilyMember)
      modifies this
      ensures editingMember == Some(member) && formData == member && showForm
    {
      editingMember := Some(member);
      formData := member;
      showForm := true;
    }

    /** `handleChange`. */
    method HandleChange(f: Field, value: string)
      modifies this
      ensures formData == WithField(old(formData), f, value)
      ensures showForm == old(showForm) && editingMember == old(editingMember)
    {
      formData := WithField(formData, f, value);
    }

    /**
     * The Save button: while a `required` input is empty the browser blocks the
     * submit and nothing happens. Otherwise `handleSubmit` saves the form (`sent`) along `SaveRoute`; on success the
     * toast says "updated" exactly when a member was being edited, and the
     * form is reset; on failure the form stays as it is.
     */
    method HandleSubmit(reply: Reply) returns (sent: Option<FamilyMember>)
      modifies this, browser
      ensures Blocked(old(formData)) ==>
                && sent == None && browser.events == old(browser.events)
                && formData == old(formData) && editingMember == old(editingMember) && showForm == old(showForm)
      ensures !Blocked(old(formData)) ==> sent == Some(old(formData))
      ensures !Blocked(old(formData)) && reply.Succeeded? ==>
                && browser.events == old(browser.events) + [SaveRoute(old(formData)),
                     Notify(Success, if old(editingMember).Some? then "Family member updated successfully"
                                     else "Family member added successfully", None)]
                && formData == BlankMember && editingMember == None && !showForm
      ensures !Blocked(old(formData)) && reply.Failed? ==>
                && browser.events == old(browser.events) + [SaveRoute(old(formData)),
                     Notify(Error, ErrorToast(reply.message, "Failed to save family member"), None)]
                && formData == old(formData) && editingMember == old(editingMember) && showForm == old(showForm)
      ensures browser.storage == old(browser.storage)
    {
      if Blocked(formData) {
        return None;
      }
      sent := Some(formData);
      browser.Emit(SaveRoute(formData));
      if reply.Succeeded? {
        var message := if editingMember.Some? then "Family member updated successfully" else "Family member added successfully";
        browser.Emit(Notify(Success, message, None));
        ResetForm();
      } else {
        browser.Emit(Notify(Error, ErrorToast(reply.message, "Failed to save family member"), None));
      }
    }

    /** The delete button: members without an `_id` do nothing; others are deleted after the confirmation. */
    method HandleDelete(member: FamilyMember, confirmed: bool, reply: Reply)
      modifies browser
      ensures !Truthy(member.id) ==> browser.events == old(browser.events)
      ensures Truthy(member.id) && !confirmed ==> browser.events == old(browser.events) + [Ask(DeleteQuestion)]
      ensures Truthy(member.id) && confirmed ==>
                browser.events == old(browser.events) + [Ask(DeleteQuestion), Call(Delete, Collection + "/" + member.id.value),
                  if reply.Succeeded? then Notify(Success, "Family member deleted successfully", None)
                  else Notify(Error, ErrorToast(reply.message, "Failed to delete family member"), None)]
      ensures browser.storage == old(browser.storage)
    {
      if !Truthy(member.id) {
        return;
      }
      browser.Emit(Ask(DeleteQuestion));
      if !confirmed {
        return;
      }
      browser.Emit(Call(Delete, Collection + "/" + member.id.value));
      if reply.Succeeded? {
        browser.Emit(Notify(Success, "Family member deleted successfully", None));
      } else {
        browser.Emit(Notify(Error, ErrorToast(reply.message, "Failed to delete family member"), None));
      }
    }
  }

  /** Editing a listed member and saving it updates that member in place on the server. */
  method EditAndSave(page: FamilyPage, member: FamilyMember, reply: Reply) returns (sent: Option<FamilyMember>)
    requires Truthy(member.id)
    modifies page, page.browser
    ensures Blocked(member) ==> sent == None && page.browser.events == old(page.browser.events)
    ensures !Blocked(member) ==>
              && sent == Some(member)
              && |page.browser.events| == |old(page.browser.events)| + 2
              && page.browser.events[|old(page.browser.events)|] == Call(Put, Collection + "/" + member.id.value)
  {
    page.HandleEdit(member);
    sent := page.HandleSubmit(reply);
  }
}
