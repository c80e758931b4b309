/** The add/edit customer page (client/src/pages/CustomerFormPage.jsx): the
    controlled form, its field-by-field validation into an error object, and
    the save request, POST for a new customer and PUT when the route names one. */
module CustomerForm {
  import opened Common
  import Server

  datatype FormData = FormData(first_name: string, last_name: string, phone_number: string)

  /** The `name` attribute of the three inputs. */
  datatype FieldName = FirstName | LastName | PhoneNumber

  /** The keys of the `errors` object: one per input, plus `form` for a failed save. */
  datatype ErrorKey = FieldKey(name: FieldName) | FormKey

  const EmptyForm := FormData("", "", "")

  const FirstNameRequired := "First name is required"
  const LastNameRequired := "Last name is required"
  const PhoneRequired := "Phone number is required"
  const PhoneMustHaveTenDigits := "Phone number must be 10 digits"

  const FieldKeys: set<ErrorKey> := {FieldKey(FirstName), FieldKey(LastName), FieldKey(PhoneNumber)}

  function Get(f: FormData, name: FieldName): string
  {
    match name
    case FirstName => f.first_name
    case LastName => f.last_name
    case PhoneNumber => f.phone_number
  }

  /** `{ ...formData, [name]: value }`: the named input takes the value, the others keep theirs. */
  function WithField(f: FormData, name: FieldName, value: string): (r: FormData)
    ensures Get(r, name) == value
    ensures forall other :: other != name ==> Get(r, other) == Get(f, other)
  {
    match name
    case FirstName => f.(first_name := value)
    case LastName => f.(last_name := value)
    case PhoneNumber => f.(phone_number := value)
  }

  /** The message validation attaches to one input, if any. */
  function FieldError(f: FormData, name: FieldName): Option<string>
  {
    match name
    case FirstName => if f.first_name == "" then Some(FirstNameRequired) else None
    case LastName => if f.last_name == "" then Some(LastNameRequired) else None
    case PhoneNumber =>
      if f.phone_number == "" then Some(PhoneRequired)
      else if !MatchesDigits(f.phone_number, 10) then Some(PhoneMustHaveTenDigits)
      else None
  }

  /** The error object validation produces, keyed by input. Each input is judged
      on its own value alone, and the phone gets at most one message: "required"
      when empty, otherwise the digit-count message. */
  function Errors(f: FormData): (r: map<ErrorKey, string>)
    ensures r.Keys <= FieldKeys
    ensures FieldKey(FirstName) in r <==> f.first_name == ""
    ensures FieldKey(LastName) in r <==> f.last_name == ""
    ensures FieldKey(PhoneNumber) in r <==> !MatchesDigits(f.phone_number, 10)
    ensures FieldKey(PhoneNumber) in r ==>
      r[FieldKey(PhoneNumber)] == if f.phone_number == "" then PhoneRequired else PhoneMustHaveTenDigits
  {
    map k | k in FieldKeys && FieldError(f, k.name).Some? :: FieldError(f, k.name).value
  }

  /** Judging the inputs one after another, in the form's order, builds the
      same error object. */
  lemma ErrorsInOrder(f: FormData)
    ensures Errors(f) ==
      Put(Put(Put(map[],
        FieldKey(FirstName), FieldError(f, FirstName)),
        FieldKey(LastName), FieldError(f, LastName)),
        FieldKey(PhoneNumber), FieldError(f, PhoneNumber))
  {
    var m1 := Put(map[], FieldKey(FirstName), FieldError(f, FirstName));
    var m2 := Put(m1, FieldKey(LastName), FieldError(f, LastName));
    var m3 := Put(m2, FieldKey(PhoneNumber), FieldError(f, PhoneNumber));
    forall k | k in FieldKeys
      ensures (k in m3 <==> FieldError(f, k.name).Some?)
      ensures k in m3 ==> m3[k] == FieldError(f, k.name).value
    {
    }
    assert Errors(f).Keys == m3.Keys;
  }

  /** The request body `JSON.stringify(formData)` as the server's handler reads it. */
  function BodyOf(f: FormData): Server.CustomerBody
  {
    Server.CustomerBody(Some(f.first_name), Some(f.last_name), Some(f.phone_number))
  }

  /** The client lets exactly those forms through that the server's own checks
      accept: validation repeats the handler's checks, in the same order. */
  lemma ValidIffServerAccepts(f: FormData)
    ensures Errors(f) == map[] <==> Server.CheckCustomerBody(BodyOf(f)) == Server.Accepted
  {
    if Errors(f) != map[] {
      var k :| k in Errors(f);
      assert k in FieldKeys;
    }
  }

  /** Where the form is saved: the route id selects the customer to update. */
  function SaveRequest(id: Option<string>): (r: Request)
    ensures Truthy(id) ==> r == Request(PUT, "/api/customers/" + id.value)
    ensures !Truthy(id) ==> r == Request(POST, "/api/customers")
  {
    Request(if Truthy(id) then PUT else POST,
            "/api/customers" + (if Truthy(id) then "/" + id.value else ""))
  }

  class CustomerFormPage {
    /** The `:id` route parameter; absent on the "add" route. */
    const id: Option<string>
    var formData: FormData
    var errors: map<ErrorKey, string>
    var loading: bool

    constructor (id: Option<string>)
      ensures this.id == id
      ensures formData == EmptyForm && errors == map[] && !loading
    {
      this.id := id;
      formData := EmptyForm;
      errors := map[];
      loading := false;
    }

    /** The effect on `[id]`: with an id, fetch that customer into the form
        (a failed fetch leaves the form as it was); without one, clear the form. */
    method LoadCustomer(reply: Reply<FormData>) returns (sent: Option<Request>)
      modifies this`formData, this`loading
      ensures Truthy(id) ==> sent == Some(Request(GET, "/api/customers/" + id.value))
      ensures Truthy(id) ==> !loading && formData == if reply.Ok? then reply.data else old(formData)
      ensures !Truthy(id) ==> sent == None && formData == EmptyForm && loading == old(loading)
    {
      if Truthy(id) {
        loading := true;
        sent := Some(Request(GET, "/api/customers/" + id.value));
        if reply.Ok? {
          formData := reply.data;
        }
        loading := false;
      } else {
        sent := None;
        formData := EmptyForm;
      }
    }

    method ValidateForm() returns (valid: bool)
      modifies this`errors
      ensures errors == Errors(formData)
      ensures valid <==> errors == map[]
    {
      var newErrors: map<ErrorKey, string> := map[];
      if formData.first_name == "" {
        newErrors := newErrors[FieldKey(FirstName) := FirstNameRequired];
      }
      if formData.last_name == "" {
        newErrors := newErrors[FieldKey(LastName) := LastNameRequired];
      }
      if formData.phone_number == "" {
        newErrors := newErrors[FieldKey(PhoneNumber) := PhoneRequired];
      } else if !MatchesDigits(formData.phone_number, 10) {
        newErrors := newErrors[FieldKey(PhoneNumber) := PhoneMustHaveTenDigits];
      }
      ErrorsInOrder(formData);
      errors := newErrors;
      valid := |newErrors| == 0;
    }

    method HandleChange(name: FieldName, value: string)
      modifies this`formData
      ensures formData == WithField(old(formData), name, value)
    {
      formData := WithField(formData, name, value);
    }

    /** Submitting: an invalid form shows its errors and sends nothing; a valid
        one is sent as the body of `SaveRequest(id)`. Success navigates to the
        list at `/`; a failed save shows the server's message under `form`. */
    method HandleSubmit(outcome: Reply<()>) returns (sent: Option<Request>, navigatedTo: Option<string>)
      modifies this`errors
      ensures Errors(formData) != map[] ==> sent == None && navigatedTo == None && errors == Errors(formData)
      ensures Errors(formData) == map[] ==> sent == Some(SaveRequest(id))
      ensures Errors(formData) == map[] && outcome.Ok? ==> navigatedTo == Some("/") && errors == map[]
      ensures Errors(formData) == map[] && outcome.NotOk? ==>
        navigatedTo == None && errors == map[FormKey := outcome.message]
    {
      var valid := ValidateForm();
      if !valid {
        return None, None;
      }
      sent := Some(SaveRequest(id));
      if outcome.Ok? {
        navigatedTo := Some("/");
      } else {
        navigatedTo := None;
        errors := map[FormKey := outcome.message];
      }
    }
  }
}
