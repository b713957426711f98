/**
 * The contact-details form (components/profile/ContactInfoForm.tsx): its
 * default values drawn from the saved profile, which inputs are required,
 * and the copy of the current address over the permanent one on submit.
 */
module ContactInfoForm {
  import opened Wrappers

  datatype Address = Address(street: string, city: string, state: string, country: string, postalCode: string)

  const BlankAddress := Address("", "", "", "", "")

  /** An address as saved in the profile: any part may be missing. */
  datatype SavedAddress = SavedAddress(
    street: Option<string>, city: Option<string>, state: Option<string>,
    country: Option<string>, postalCode: Option<string>)

  /** The contact part of the saved profile, as handed to the form in `data`. */
  datatype SavedContact = SavedContact(
    email: Option<string>,
    phone: Option<string>,
    alternatePhone: Option<string>,
    currentAddress: Option<SavedAddress>,
    sameAsCurrentAddress: Option<bool>,
    permanentAddress: Option<SavedAddress>)

  /** The values the form holds. */
  datatype ContactInfo = ContactInfo(
    email: string,
    phone: string,
    alternatePhone: string,
    currentAddress: Address,
    sameAsCurrentAddress: bool,
    permanentAddress: Address)

  /** `x || ''` on a possibly missing string. */
  function OrEmpty(value: Option<string>): (r: string)
    ensures value.None? ==> r == ""
    ensures value.Some? ==> r == value.value
  {
    value.GetOr("")
  }

  function AddressDefaults(saved: Option<SavedAddress>): (a: Address)
    ensures saved.None? ==> a == BlankAddress
    ensures saved.Some? ==> a == Address(OrEmpty(saved.value.street), OrEmpty(saved.value.city),
                                         OrEmpty(saved.value.state), OrEmpty(saved.value.country),
                                         OrEmpty(saved.value.postalCode))
  {
    if saved.None? then BlankAddress
    else
      var s := saved.value;
      Address(OrEmpty(s.street), OrEmpty(s.city), OrEmpty(s.state), OrEmpty(s.country), OrEmpty(s.postalCode))
  }

  /** `defaultValues`: every missing input is empty and the checkbox is unticked. */
  function Defaults(data: Option<SavedContact>): (c: ContactInfo)
    ensures data.None? ==> c == ContactInfo("", "", "", BlankAddress, false, BlankAddress)
    ensures data.Some? ==>
              && c.email == OrEmpty(data.value.email)
              && c.phone == OrEmpty(data.value.phone)
              && c.alternatePhone == OrEmpty(data.value.alternatePhone)
              && c.currentAddress == AddressDefaults(data.value.currentAddress)
              && c.sameAsCurrentAddress == data.value.sameAsCurrentAddress.GetOr(false)
              && c.permanentAddress == AddressDefaults(data.value.permanentAddress)
  {
    if data.None? then ContactInfo("", "", "", BlankAddress, false, BlankAddress)
    else
      var d := data.value;
      ContactInfo(OrEmpty(d.email), OrEmpty(d.phone), OrEmpty(d.alternatePhone), AddressDefaults(d.currentAddress),
                  d.sameAsCurrentAddress.GetOr(false), AddressDefaults(d.permanentAddress))
  }

  /** A complete saved record is shown as it is. */
  lemma DefaultsOfComplete(c: ContactInfo)
    ensures Defaults(Some(Saved(c))) == c
  {
  }

  function SavedOf(a: Address): SavedAddress {
    SavedAddress(Some(a.street), Some(a.city), Some(a.state), Some(a.country), Some(a.postalCode))
  }

  function Saved(c: ContactInfo): SavedContact {
    SavedContact(Some(c.email), Some(c.phone), Some(c.alternatePhone), Some(SavedOf(c.currentAddress)),
                 Some(c.sameAsCurrentAddress), Some(SavedOf(c.permanentAddress)))
  }

  datatype AddressField = Street | City | State | Country | PostalCode

  datatype Field = Email | Phone | AlternatePhone | Current(part: AddressField) | Permanent(part: AddressField)

  const AllFields: seq<Field> := [Email, Phone, AlternatePhone,
    Current(Street), Current(City), Current(State), Current(Country), Current(PostalCode),
    Permanent(Street), Permanent(City), Permanent(State), Permanent(Country), Permanent(PostalCode)]

  function Part(a: Address, f: AddressField): string {
    match f
    case Street => a.street
    case City => a.city
    case State => a.state
    case Country => a.country
    case PostalCode => a.postalCode
  }

  function Value(c: ContactInfo, f: Field): string {
    match f
    case Email => c.email
    case Phone => c.phone
    case AlternatePhone => c.alternatePhone
    case Current(p) => Part(c.currentAddress, p)
    case Permanent(p) => Part(c.permanentAddress, p)
  }

  /**
   * Whether an input carries a `required` rule: email, phone and the current
   * address except its state; the permanent address (except its state) only
   * while the checkbox is unticked.
   */
  function Required(f: Field, sameAsCurrentAddress: bool): (r: bool)
    ensures f.Current? || f.Permanent? ==> (r ==> f.part != State)
    ensures f.Permanent? ==> (r <==> f.part != State && !sameAsCurrentAddress)
    ensures f.Current? ==> (r <==> f.part != State)
    ensures f == Email || f == Phone ==> r
    ensures f == AlternatePhone ==> !r
  {
    match f
    case Email => true
    case Phone => true
    case AlternatePhone => false
    case Current(p) => p != State
    case Permanent(p) => p != State && !sameAsCurrentAddress
  }

  /** The form blocks submission while a required input is empty. */
  predicate Blocked(c: ContactInfo) {
    exists f :: f in AllFields && Required(f, c.sameAsCurrentAddress) && Value(c, f) == ""
  }

  /** `onSubmit`'s adjustment: with the checkbox ticked the permanent address becomes a copy of the current one. */
  function Adjusted(c: ContactInfo): (r: ContactInfo)
    ensures c.sameAsCurrentAddress ==> r.permanentAddress == c.currentAddress
    ensures !c.sameAsCurrentAddress ==> r == c
    ensures r.(permanentAddress := c.permanentAddress) == c
  {
    if c.sameAsCurrentAddress then c.(permanentAddress := c.currentAddress) else c
  }

  /** Adjusting twice is adjusting once. */
  lemma AdjustedIdempotent(c: ContactInfo)
    ensures Adjusted(Adjusted(c)) == Adjusted(c)
  {
  }

  /** A ticked checkbox never blocks on the hidden permanent address, and the saved copy then has all of its required parts. */
  lemma TickedNeedsOnlyCurrent(c: ContactInfo)
    requires c.sameAsCurrentAddress
    ensures Blocked(c) <==> (exists f :: f in AllFields && !f.Permanent? && Required(f, true) && Value(c, f) == "")
    ensures !Blocked(c) ==> forall p :: p != State ==> Part(Adjusted(c).permanentAddress, p) != ""
  {
    if !Blocked(c) {
      forall p | p != State
        ensures Part(Adjusted(c).permanentAddress, p) != ""
      {
        assert Current(p) in AllFields;
      }
    }
  }

  /** The form's values held by react-hook-form, which `onSubmit` receives and edits in place. */
  class FormData {
    var email: string
    var phone: string
    var alternatePhone: string
    var currentAddress: Address
    var sameAsCurrentAddress: bool
    var permanentAddress: Address

    constructor (c: ContactInfo)
      ensures Values() == c
    {
      email := c.email;
      phone := c.phone;
      alternatePhone := c.alternatePhone;
      currentAddress := c.currentAddress;
      sameAsCurrentAddress := c.sameAsCurrentAddress;
      permanentAddress := c.permanentAddress;
    }

    function Values(): ContactInfo
      reads this
    {
      ContactInfo(email, phone, alternatePhone, currentAddress, sameAsCurrentAddress, permanentAddress)
    }
  }

  /** `onSubmit`: the values are adjusted in place and handed to `onSave` exactly once (`saves`). */
  method OnSubmit(formData: FormData) returns (saves: seq<ContactInfo>)
    modifies formData
    ensures formData.Values() == Adjusted(old(formData.Values()))
    ensures saves == [formData.Values()]
  {
    if formData.sameAsCurrentAddress {
      formData.permanentAddress := formData.currentAddress;
    }
    saves := [formData.Values()];
  }
}
