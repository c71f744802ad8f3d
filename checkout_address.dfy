/** The address stage of the checkout (src/app/checkout/address/page.tsx):
    its entry guard, the form it starts from, and the checks and trimming
    its submit applies before storing the address in the session. */
module AddressStage {
  import opened Outcomes
  import opened Strings
  import opened Navigation
  import opened Checkout
  import opened Cart

  const EmptyAddress: Address := Address("", "", "", "", "", "", "")

  /** The stage shows only for a session with a customer name and a
      non-empty cart; otherwise it sends the shopper to "/order". */
  function AddressEntry(s: Session, items: seq<CartLine>): (e: Entry)
    ensures e == Show <==> s.customerName != "" && items != []
    ensures e != Show ==> e == Redirect(OrderRoute)
  {
    if s.customerName == "" || |items| == 0 then Redirect(OrderRoute) else Show
  }

  /** The form starts as the saved address, or empty when there is none. */
  function InitialForm(saved: Option<Address>): (f: Address)
    ensures saved.Some? ==> f == saved.value
    ensures saved.None? ==> f == EmptyAddress
  {
    saved.GetOr(EmptyAddress)
  }

  datatype AddressField = FullName | Phone | Line1 | Line2 | City | State | Pincode

  function FieldOf(a: Address, k: AddressField): string {
    match k
    case FullName => a.fullName
    case Phone => a.phone
    case Line1 => a.line1
    case Line2 => a.line2
    case City => a.city
    case State => a.state
    case Pincode => a.pincode
  }

  /** `{ ...prev, [field]: value }`: the edited field takes the new value
      and every other field keeps its own. */
  function WithField(a: Address, k: AddressField, v: string): (r: Address)
    ensures FieldOf(r, k) == v
    ensures forall k' :: k' != k ==> FieldOf(r, k') == FieldOf(a, k')
  {
    match k
    case FullName => a.(fullName := v)
    case Phone => a.(phone := v)
    case Line1 => a.(line1 := v)
    case Line2 => a.(line2 := v)
    case City => a.(city := v)
    case State => a.(state := v)
    case Pincode => a.(pincode := v)
  }

  datatype AddressError = MissingRequired | InvalidPhone | InvalidPincode

  function ErrorText(e: AddressError): string {
    match e
    case MissingRequired => "Please fill in all required fields."
    case InvalidPhone => "Please enter a valid 10-digit phone number."
    case InvalidPincode => "Please enter a valid 6-digit pincode."
  }

  /** Some required field (all but the second address line) is blank after
      trimming. */
  predicate RequiredMissing(f: Address) {
    IsBlank(f.fullName) || IsBlank(f.phone) || IsBlank(f.line1)
    || IsBlank(f.city) || IsBlank(f.state) || IsBlank(f.pincode)
  }

  /** The address with every field, the second line included, trimmed. */
  function Trimmed(f: Address): Address {
    Address(Trim(f.fullName), Trim(f.phone), Trim(f.line1), Trim(f.line2),
            Trim(f.city), Trim(f.state), Trim(f.pincode))
  }

  datatype Checked = Accepted(address: Address) | Rejected(reason: AddressError)

  /** The submit checks, in their order: required fields, then the phone
      (exactly 10 digits after trimming), then the pincode (exactly 6
      digits after trimming). Only the first failure is reported; a form
      that passes all three is stored trimmed. */
  function ValidateAddress(f: Address): (r: Checked)
    ensures r.Accepted? <==>
      !RequiredMissing(f) && IsDigitString(Trim(f.phone), 10) && IsDigitString(Trim(f.pincode), 6)
    ensures r == Rejected(MissingRequired) <==> RequiredMissing(f)
    ensures r == Rejected(InvalidPhone) <==>
      !RequiredMissing(f) && !IsDigitString(Trim(f.phone), 10)
    ensures r == Rejected(InvalidPincode) <==>
      !RequiredMissing(f) && IsDigitString(Trim(f.phone), 10) && !IsDigitString(Trim(f.pincode), 6)
    ensures r.Accepted? ==> r.address == Trimmed(f)
  {
    if RequiredMissing(f) then Rejected(MissingRequired)
    else if !IsDigitString(Trim(f.phone), 10) then Rejected(InvalidPhone)
    else if !IsDigitString(Trim(f.pincode), 6) then Rejected(InvalidPincode)
    else Accepted(Trimmed(f))
  }

  lemma TrimFieldTwice(x: string)
    ensures Trim(Trim(x)) == Trim(x) && IsBlank(Trim(x)) == IsBlank(x)
  {
    TrimIdempotent(x);
  }

  /** Trimming a form a second time changes nothing, and leaves the same
      fields blank. */
  lemma TrimmedTwice(f: Address)
    ensures Trimmed(Trimmed(f)) == Trimmed(f)
    ensures RequiredMissing(Trimmed(f)) == RequiredMissing(f)
  {
    TrimFieldTwice(f.fullName);
    TrimFieldTwice(f.phone);
    TrimFieldTwice(f.line1);
    TrimFieldTwice(f.line2);
    TrimFieldTwice(f.city);
    TrimFieldTwice(f.state);
    TrimFieldTwice(f.pincode);
  }

  /** A field that is not blank keeps a character after trimming. */
  lemma FilledField(x: string)
    requires !IsBlank(x)
    ensures Unpadded(Trim(x)) && Trim(x) != []
  {
  }

  /** An accepted address has no padding in any field, non-empty required
      fields, a 10-digit phone and a 6-digit pincode; submitting it again
      (it is what the form starts from when the shopper comes back) gives
      the same address. */
  lemma {:induction false} AcceptedAddressIsClean(f: Address)
    requires ValidateAddress(f).Accepted?
    ensures var a := ValidateAddress(f).address;
      Unpadded(a.fullName) && Unpadded(a.line1) && Unpadded(a.line2)
      && Unpadded(a.city) && Unpadded(a.state)
      && a.fullName != [] && a.line1 != [] && a.city != [] && a.state != []
      && IsDigitString(a.phone, 10) && IsDigitString(a.pincode, 6)
      && ValidateAddress(a) == Accepted(a)
  {
    var a := Trimmed(f);
    assert !RequiredMissing(f);
    FilledField(f.fullName);
    FilledField(f.line1);
    FilledField(f.city);
    FilledField(f.state);
    TrimmedTwice(f);
    assert !RequiredMissing(a);
    assert Trim(a.phone) == a.phone && Trim(a.pincode) == a.pincode;
  }

  /** The second address line is not required: whatever it holds, the form
      is accepted or rejected for the same reason. */
  lemma Line2NotRequired(f: Address, v: string)
    ensures ValidateAddress(WithField(f, Line2, v)).Rejected? == ValidateAddress(f).Rejected?
    ensures ValidateAddress(f).Rejected? ==>
      ValidateAddress(WithField(f, Line2, v)) == ValidateAddress(f)
  {
  }

  const ShortPhone: string := "98765432"
  const SamplePhone: string := "9876543210"
  const SamplePincode: string := "500034"

  lemma SampleValues()
    ensures Trim(ShortPhone) == ShortPhone && !IsDigitString(ShortPhone, 10)
    ensures Trim(SamplePhone) == SamplePhone && IsDigitString(SamplePhone, 10)
    ensures Trim(SamplePincode) == SamplePincode && IsDigitString(SamplePincode, 6)
  {
    TrimUnpadded(ShortPhone);
    TrimUnpadded(SamplePhone);
    TrimUnpadded(SamplePincode);
  }

  /** A form whose other required fields are filled in is refused for an
      eight-digit phone such as "98765432"... */
  lemma {:induction false} EightDigitPhoneRefused(f: Address)
    requires !IsBlank(f.fullName) && !IsBlank(f.line1) && !IsBlank(f.city)
    requires !IsBlank(f.state) && !IsBlank(f.pincode)
    ensures ValidateAddress(f.(phone := ShortPhone)) == Rejected(InvalidPhone)
  {
    SampleValues();
    var g := f.(phone := ShortPhone);
    assert !IsBlank(g.phone);
    assert !RequiredMissing(g);
  }

  /** ...and accepted with phone "9876543210" and pincode "500034". */
  lemma {:induction false} TenDigitPhoneAccepted(f: Address)
    requires !IsBlank(f.fullName) && !IsBlank(f.line1) && !IsBlank(f.city) && !IsBlank(f.state)
    ensures ValidateAddress(f.(phone := SamplePhone, pincode := SamplePincode)).Accepted?
  {
    SampleValues();
    var g := f.(phone := SamplePhone, pincode := SamplePincode);
    assert !IsBlank(g.phone) && !IsBlank(g.pincode);
    assert !RequiredMissing(g);
  }

  /** The address page's own state: the form and the error it shows. */
  class AddressPage {
    var form: Address
    var error: string

    constructor (saved: Option<Address>)
      ensures form == InitialForm(saved) && error == ""
    {
      form := InitialForm(saved);
      error := "";
    }

    /** Typing into one input changes that field of the form only. */
    method Update(k: AddressField, v: string)
      modifies this
      ensures form == WithField(old(form), k, v) && error == old(error)
    {
      form := WithField(form, k, v);
    }

    /** `handleSubmit`: on the first failing check, shows its error and
        stores nothing; when every check passes, stores the trimmed form as
        the session's address (nothing else in the session changes) and
        goes on to the payment stage. The form itself is not changed. */
    method HandleSubmit(store: CheckoutStore) returns (nav: Nav)
      modifies this, store
      ensures form == old(form)
      ensures ValidateAddress(old(form)).Rejected? ==>
        error == ErrorText(ValidateAddress(old(form)).reason)
        && store.State() == old(store.State()) && nav == Stay
      ensures ValidateAddress(old(form)).Accepted? ==>
        store.State() == old(store.State()).(address := Some(Trimmed(old(form))))
        && error == old(error) && nav == Push(PaymentRoute)
    {
      match ValidateAddress(form)
      case Rejected(reason) =>
        error := ErrorText(reason);
        nav := Stay;
      case Accepted(a) =>
        store.SetAddress(a);
        nav := Push(PaymentRoute);
    }

    /** "Back to Cart": goes to "/order" and leaves the session alone. */
    method BackToCart() returns (nav: Nav)
      ensures nav == Push(OrderRoute)
    {
      nav := Push(OrderRoute);
    }
  }
}
