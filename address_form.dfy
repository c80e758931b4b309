/** The add/edit address page (client/src/components/AddressFormPage.jsx): a
    form prefilled from navigation state, validated after trimming, and saved
    with POST to the customer's address collection or PUT to one address. */
module AddressForm {
  import opened Common
  import Server

  datatype FormData = FormData(address_details: string, city: string, state: string, pin_code: string)

  datatype FieldName = AddressDetails | City | State | PinCode

  datatype ErrorKey = FieldKey(name: FieldName) | FormKey

  const EmptyForm := FormData("", "", "", "")

  const AddressDetailsRequired := "Address details are required"
  const CityRequired := "City is required"
  const StateRequired := "State is required"
  const PinRequired := "Pin code is required"
  const PinMustHaveSixDigits := "Pin code must be 6 digits"

  const FieldKeys: set<ErrorKey> :=
    {FieldKey(AddressDetails), FieldKey(City), FieldKey(State), FieldKey(PinCode)}

  function Get(f: FormData, name: FieldName): string
  {
    match name
    case AddressDetails => f.address_details
    case City => f.city
    case State => f.state
    case PinCode => f.pin_code
  }

  /** `{ ...formData, [name]: value }`. */
  function WithField(f: FormData, name: FieldName, value: string): (r: FormData)
    ensures Get(r, name) == value
    ensures forall other :: other != name ==> Get(r, other) == Get(f, other)
  {
    match name
    case AddressDetails => f.(address_details := value)
    case City => f.(city := value)
    case State => f.(state := value)
    case PinCode => f.(pin_code := value)
  }

  /** The message validation attaches to one input, if any. Emptiness is judged
      after `trim()`, but the pin format on the value as typed. */
  function FieldError(f: FormData, name: FieldName): Option<string>
  {
    match name
    case AddressDetails => if Trim(f.address_details) == "" then Some(AddressDetailsRequired) else None
    case City => if Trim(f.city) == "" then Some(CityRequired) else None
    case State => if Trim(f.state) == "" then Some(StateRequired) else None
    case PinCode =>
      if Trim(f.pin_code) == "" then Some(PinRequired)
      else if !MatchesDigits(f.pin_code, 6) then Some(PinMustHaveSixDigits)
      else None
  }

  /** The error object validation produces: one entry per input that has a message. */
  function Errors(f: FormData): (r: map<ErrorKey, string>)
    ensures r.Keys <= FieldKeys
  {
    map k | k in FieldKeys && FieldError(f, k.name).Some? :: FieldError(f, k.name).value
  }

  /** Judging the inputs one after another, in the form's order, builds the
      same error object. */
  lemma ErrorsInOrder(f: FormData)
    ensures Errors(f) ==
      Put(Put(Put(Put(map[],
        FieldKey(AddressDetails), FieldError(f, AddressDetails)),
        FieldKey(City), FieldError(f, City)),
        FieldKey(State), FieldError(f, State)),
        FieldKey(PinCode), FieldError(f, PinCode))
  {
    var m1 := Put(map[], FieldKey(AddressDetails), FieldError(f, AddressDetails));
    var m2 := Put(m1, FieldKey(City), FieldError(f, City));
    var m3 := Put(m2, FieldKey(State), FieldError(f, State));
    var m4 := Put(m3, FieldKey(PinCode), FieldError(f, PinCode));
    forall k | k in FieldKeys
      ensures (k in m4 <==> FieldError(f, k.name).Some?)
      ensures k in m4 ==> m4[k] == FieldError(f, k.name).value
    {
    }
    assert Errors(f).Keys == m4.Keys;
  }

  /** A blank value (empty, or only spaces, tabs and line breaks) counts as
      missing; each input is judged on its own value. */
  lemma BlankIsMissing(f: FormData)
    ensures FieldKey(AddressDetails) in Errors(f) <==> Blank(f.address_details)
    ensures FieldKey(City) in Errors(f) <==> Blank(f.city)
    ensures FieldKey(State) in Errors(f) <==> Blank(f.state)
  {
    TrimEmptyIffBlank(f.address_details);
    TrimEmptyIffBlank(f.city);
    TrimEmptyIffBlank(f.state);
    assert FieldKey(AddressDetails) in FieldKeys && FieldKey(City) in FieldKeys && FieldKey(State) in FieldKeys;
  }

  /** The pin gets at most one message: "required" when blank, otherwise the
      digit-count message whenever it is not exactly six digits as typed, so
      surrounding spaces make a six-digit pin invalid. */
  lemma PinError(f: FormData)
    ensures FieldKey(PinCode) in Errors(f) <==> !MatchesDigits(f.pin_code, 6)
    ensures FieldKey(PinCode) in Errors(f) ==>
      Errors(f)[FieldKey(PinCode)] == if Blank(f.pin_code) then PinRequired else PinMustHaveSixDigits
  {
    TrimEmptyIffBlank(f.pin_code);
    assert FieldKey(PinCode) in FieldKeys;
    if Blank(f.pin_code) && |f.pin_code| == 6 {
      assert !IsDigit(f.pin_code[0]);
    }
  }

  /** The request body as the server's handler reads it. */
  function BodyOf(f: FormData): Server.AddressBody
  {
    Server.AddressBody(Some(f.address_details), Some(f.city), Some(f.state), Some(f.pin_code))
  }

  /** Whatever the client lets through, the server's completeness check accepts. */
  lemma ValidIsServerComplete(f: FormData)
    requires Errors(f) == map[]
    ensures Server.AddressBodyComplete(BodyOf(f))
  {
    assert FieldKey(AddressDetails) !in Errors(f) && FieldKey(City) !in Errors(f);
    assert FieldKey(State) !in Errors(f) && FieldKey(PinCode) !in Errors(f);
  }

  /** The converse fails: the server has no pin format and no trim, so it
      stores a body the client would refuse. */
  lemma ServerAcceptsWhatClientRefuses()
    ensures Server.AddressBodyComplete(BodyOf(FormData(" ", "Pune", "MH", "41100A")))
    ensures FieldKey(AddressDetails) in Errors(FormData(" ", "Pune", "MH", "41100A"))
    ensures FieldKey(PinCode) in Errors(FormData(" ", "Pune", "MH", "41100A"))
  {
    var f := FormData(" ", "Pune", "MH", "41100A");
    BlankIsMissing(f);
    PinError(f);
    assert !IsDigit(f.pin_code[5]);
  }

  /** `!!addressId`. */
  predicate IsEditMode(addressId: Option<string>)
  {
    Truthy(addressId)
  }

  /** The save request: PUT to the one address in edit mode, POST to the
      customer's address collection otherwise. */
  function SaveRequest(id: Option<string>, addressId: Option<string>): (r: Request)
    ensures IsEditMode(addressId) ==>
      r == Request(PUT, "/api/customers/" + ParamText(id) + "/addresses/" + addressId.value)
    ensures !IsEditMode(addressId) ==>
      r == Request(POST, "/api/customers/" + ParamText(id) + "/addresses")
  {
    var collection := "/api/customers/" + ParamText(id) + "/addresses";
    if IsEditMode(addressId) then Request(PUT, collection + "/" + addressId.value)
    else Request(POST, collection)
  }

  class AddressFormPage {
    /** The `:id` (customer) and `:addressId` route parameters. */
    const id: Option<string>
    const addressId: Option<string>
    var formData: FormData
    var errors: map<ErrorKey, string>
    var loading: bool

    constructor (id: Option<string>, addressId: Option<string>)
      ensures this.id == id && this.addressId == addressId
      ensures formData == EmptyForm && errors == map[] && !loading
    {
      this.id := id;
      this.addressId := addressId;
      formData := EmptyForm;
      errors := map[];
      loading := false;
    }

    /** The effect on the navigation state: the address handed over by the
        detail page, or an empty form when there is none. */
    method LoadFromState(address: Option<FormData>)
      modifies this`formData
      ensures formData == GetOr(address, EmptyForm)
    {
      formData := GetOr(address, EmptyForm);
    }

    method ValidateForm() returns (valid: bool)
      modifies this`errors
      ensures errors == Errors(formData)
      ensures valid <==> errors == map[]
    {
      var newErrors: map<ErrorKey, string> := map[];
      if Trim(formData.address_details) == "" {
        newErrors := newErrors[FieldKey(AddressDetails) := AddressDetailsRequired];
      }
      if Trim(formData.city) == "" {
        newErrors := newErrors[FieldKey(City) := CityRequired];
      }
      if Trim(formData.state) == "" {
        newErrors := newErrors[FieldKey(State) := StateRequired];
      }
      if Trim(formData.pin_code) == "" {
        newErrors := newErrors[FieldKey(PinCode) := PinRequired];
      } else if !MatchesDigits(formData.pin_code, 6) {
        newErrors := newErrors[FieldKey(PinCode) := PinMustHaveSixDigits];
      }
      ErrorsInOrder(formData);
      errors := newErrors;
      valid := |newErrors| == 0;
    }

    method HandleChange(name: FieldName, value: string)
      modifies this`formData
      ensures formData == WithField(old(formData), name, value)
    {
      formData := WithField(formData, name, value);
    }

    /** Submitting: an invalid form shows its errors and sends nothing. A valid
        one clears the errors and sends `SaveRequest` with `loading` on;
        success moves to the customer's page, failure shows the message under
        `form`, and `loading` is off again either way. */
    method HandleSubmit(outcome: Reply<()>) returns (sent: Option<Request>, navigatedTo: Option<string>, ghost loadingWhileSent: bool)
      modifies this`errors, this`loading
      ensures Errors(formData) != map[] ==>
        && sent == None && navigatedTo == None
        && errors == Errors(formData) && loading == old(loading)
      ensures Errors(formData) == map[] ==>
        && sent == Some(SaveRequest(id, addressId)) && loadingWhileSent && !loading
      ensures Errors(formData) == map[] && outcome.Ok? ==>
        navigatedTo == Some("/customers/" + ParamText(id)) && errors == map[]
      ensures Errors(formData) == map[] && outcome.NotOk? ==>
        navigatedTo == None && errors == map[FormKey := outcome.message]
    {
      var valid := ValidateForm();
      if !valid {
        return None, None, false;
      }
      loading := true;
      errors := map[];
      sent := Some(SaveRequest(id, addressId));
      loadingWhileSent := loading;
      if outcome.Ok? {
        navigatedTo := Some("/customers/" + ParamText(id));
      } else {
        navigatedTo := None;
        errors := map[FormKey := outcome.message];
      }
      loading := false;
    }
  }
}
