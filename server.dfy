/** The REST handlers of the customer service (server/index.js), over a store of
    two tables with SQLite AUTOINCREMENT counters. Every handler returns the HTTP
    status it sends (section 15 of RFC 9110) and whatever data the response
    carries. A store failure other than the phone-number UNIQUE constraint (an I/O
    error, a locked database) is the `fault` input. */
module Server {
  import opened Common
  import opened Sql

  const StatusOk: nat := 200
  const StatusCreated: nat := 201
  const StatusBadRequest: nat := 400
  const StatusNotFound: nat := 404
  const StatusServerError: nat := 500

  /** Defaults of the listing query string. */
  const DefaultPage: nat := 1
  const DefaultLimit: nat := 10
  const DefaultSort: string := "c.id"
  const DefaultOrder: string := "ASC"

  datatype CustomerBody = CustomerBody(first_name: Field, last_name: Field, phone_number: Field)

  datatype AddressBody = AddressBody(address_details: Field, city: Field, state: Field, pin_code: Field)

  /** The two checks at the top of the create and update customer handlers, in
      their order: a missing or empty field first, then the phone format. */
  datatype BodyCheck = Accepted | MissingField | BadPhone

  function CheckCustomerBody(b: CustomerBody): BodyCheck
  {
    if !Truthy(b.first_name) || !Truthy(b.last_name) || !Truthy(b.phone_number) then MissingField
    else if !MatchesDigits(b.phone_number.value, 10) then BadPhone
    else Accepted
  }

  /** The only check of the address handlers: four truthy fields, no format. */
  predicate AddressBodyComplete(b: AddressBody)
  {
    Truthy(b.address_details) && Truthy(b.city) && Truthy(b.state) && Truthy(b.pin_code)
  }

  function CustomerFrom(id: nat, b: CustomerBody): Customer
    requires CheckCustomerBody(b) == Accepted
  {
    Customer(id, b.first_name.value, b.last_name.value, b.phone_number.value)
  }

  function AddressFrom(id: nat, customerId: nat, b: AddressBody): Address
    requires AddressBodyComplete(b)
  {
    Address(id, customerId, b.address_details.value, b.city.value, b.state.value, b.pin_code.value)
  }

  /** A customer row other than `id` already holds `phone`: writing it violates UNIQUE. */
  predicate PhoneHeldByOther(customers: seq<Customer>, phone: string, id: nat)
  {
    exists i :: 0 <= i < |customers| && customers[i].phone_number == phone && customers[i].id != id
  }

  /** `if (search)`: an absent or empty term adds no WHERE clause. */
  function SearchFilter(search: Option<string>): Option<string>
  {
    if search.Some? && search.value != "" then search else None
  }

  /** `UPDATE t SET ... WHERE id = ?`: the row with the new row's id is replaced. */
  function SetRow<T>(rows: seq<T>, idOf: T -> nat, row: T): seq<T>
  {
    seq(|rows|, i requires 0 <= i < |rows| => if idOf(rows[i]) == idOf(row) then row else rows[i])
  }

  /** `SELECT * FROM addresses WHERE customer_id = ?`, in table order. */
  function AddressesOf(addresses: seq<Address>, customerId: nat): seq<Address>
  {
    if addresses == [] then []
    else
      (if addresses[0].customer_id == customerId then [addresses[0]] else [])
      + AddressesOf(addresses[1..], customerId)
  }

  /** The listed rows are exactly the customer's addresses. */
  lemma {:induction false} AddressesOfMember(addresses: seq<Address>, customerId: nat, x: Address)
    ensures x in AddressesOf(addresses, customerId) <==> x in addresses && x.customer_id == customerId
  {
    if addresses != [] {
      assert addresses == [addresses[0]] + addresses[1..];
      AddressesOfMember(addresses[1..], customerId, x);
    }
  }

  /** A customer id no address row carries lists nothing. */
  lemma {:induction false} AddressesOfUnknown(addresses: seq<Address>, customerId: nat)
    requires forall i :: 0 <= i < |addresses| ==> addresses[i].customer_id != customerId
    ensures AddressesOf(addresses, customerId) == []
  {
    if addresses != [] {
      AddressesOfUnknown(addresses[1..], customerId);
    }
  }

  /** Some address row has both the address id and the customer id. */
  predicate OwnedAddress(addresses: seq<Address>, addressId: nat, customerId: nat)
  {
    exists i :: 0 <= i < |addresses| && addresses[i].id == addressId && addresses[i].customer_id == customerId
  }

  /** With unique address ids, an address that belongs to one customer is not
      owned by any other: updating it through another customer's path is 404. */
  lemma ForeignAddressNotOwned(addresses: seq<Address>, i: nat, customerId: nat)
    requires UniqueBy(addresses, AddressId)
    requires i < |addresses| && addresses[i].customer_id != customerId
    ensures !OwnedAddress(addresses, addresses[i].id, customerId)
  {
    forall j | 0 <= j < |addresses| && addresses[j].customer_id == customerId
      ensures addresses[j].id != addresses[i].id
    {
      if j < i {
        assert AddressId(addresses[j]) != AddressId(addresses[i]);
      } else {
        assert AddressId(addresses[i]) != AddressId(addresses[j]);
      }
    }
  }

  /** The parameters of the two listing statements, appended in placeholder
      order: the search pattern once per LIKE when the term is truthy, then
      LIMIT and OFFSET. Dropping the last two leaves exactly the parameters of
      the count statement, for the same search. */
  method BindListParams(search: Option<string>, limit: nat, offset: nat) returns (filtered: bool, params: seq<SqlParam>)
    ensures filtered <==> SearchFilter(search).Some?
    ensures Binds(filtered, params, true) && SearchOf(filtered, params) == SearchFilter(search)
    ensures params[|params| - 2] == Number(limit) && params[|params| - 1] == Number(offset)
    ensures Binds(filtered, params[..|params| - 2], false)
    ensures SearchOf(filtered, params[..|params| - 2]) == SearchFilter(search)
  {
    params := [];
    filtered := false;
    if search.Some? && search.value != "" {
      filtered := true;
      var pattern := Pattern(search.value);
      params := params + [pattern, pattern, pattern, pattern, pattern];
    }
    params := params + [Number(limit), Number(offset)];
  }

  class Store {
    var customers: seq<Customer>
    var addresses: seq<Address>
    /** The `sqlite_sequence` entries: the largest id each table has issued. */
    var customerSeq: nat
    var addressSeq: nat
    /** Every id AUTOINCREMENT has handed out, rows deleted since included. */
    ghost var issuedCustomerIds: set<nat>
    ghost var issuedAddressIds: set<nat>

    ghost predicate Valid()
      reads this
    {
      && UniqueBy(customers, CustomerId)
      && UniqueBy(customers, PhoneOf)
      && UniqueBy(addresses, AddressId)
      && (forall i :: 0 <= i < |customers| ==> customers[i].id in issuedCustomerIds)
      && (forall n :: n in issuedCustomerIds ==> 1 <= n <= customerSeq)
      && (forall i :: 0 <= i < |addresses| ==> addresses[i].id in issuedAddressIds)
      && (forall n :: n in issuedAddressIds ==> 1 <= n <= addressSeq)
    }

    /** The two CREATE TABLE statements on a new database. */
    constructor ()
      ensures Valid()
      ensures customers == [] && addresses == []
      ensures customerSeq == 0 && addressSeq == 0
      ensures issuedCustomerIds == {} && issuedAddressIds == {}
    {
      customers, addresses := [], [];
      customerSeq, addressSeq := 0, 0;
      issuedCustomerIds, issuedAddressIds := {}, {};
    }

    /** POST /api/customers */
    method CreateCustomer(body: CustomerBody, fault: bool) returns (status: nat, id: nat)
      requires Valid()
      modifies this
      ensures Valid()
      ensures CheckCustomerBody(body) != Accepted ==> status == StatusBadRequest
      ensures CheckCustomerBody(body) == Accepted ==>
        status == if fault || PhoneHeldByOther(old(customers), body.phone_number.value, id)
                  then StatusServerError else StatusCreated
      ensures status != StatusCreated ==> unchanged(this)
      ensures status == StatusCreated ==>
        && id !in old(issuedCustomerIds)
        && id == old(customerSeq) + 1 && customerSeq == id
        && addressSeq == old(addressSeq)
        && customers == old(customers) + [CustomerFrom(id, body)]
        && addresses == old(addresses)
        && issuedCustomerIds == old(issuedCustomerIds) + {id}
        && issuedAddressIds == old(issuedAddressIds)
    {
      id := customerSeq + 1;
      if CheckCustomerBody(body) != Accepted {
        return StatusBadRequest, id;
      }
      if fault || PhoneHeldByOther(customers, body.phone_number.value, id) {
        return StatusServerError, id;
      }
      var row := CustomerFrom(id, body);
      assert forall i :: 0 <= i < |customers| ==> customers[i].id != id;
      assert forall i :: 0 <= i < |customers| ==> customers[i].phone_number != row.phone_number;
      customers := customers + [row];
      customerSeq := id;
      issuedCustomerIds := issuedCustomerIds + {id};
      status := StatusCreated;
    }

    /** GET /api/customers/:id */
    method GetCustomer(id: nat, fault: bool) returns (status: nat, row: Option<Customer>)
      ensures fault ==> status == StatusBadRequest && row == None
      ensures !fault ==> row == FindById(customers, CustomerId, id)
      ensures !fault ==> status == if row.Some? then StatusOk else StatusNotFound
    {
      if fault {
        return StatusBadRequest, None;
      }
      row := FindById(customers, CustomerId, id);
      status := if row.Some? then StatusOk else StatusNotFound;
    }

    /** A create followed by a get of the id it returned finds the stored fields. */
    method CreateThenGet(body: CustomerBody, fault: bool) returns (status: nat, id: nat, fetched: Option<Customer>)
      requires Valid()
      modifies this
      ensures Valid()
      ensures status == StatusCreated ==>
        CheckCustomerBody(body) == Accepted && fetched == Some(CustomerFrom(id, body))
      ensures status != StatusCreated ==> unchanged(this) && fetched == None
    {
      ghost var before := customers;
      status, id := CreateCustomer(body, fault);
      if status == StatusCreated {
        assert forall i :: 0 <= i < |before| ==> before[i].id in old(issuedCustomerIds);
        FindAppended(before, CustomerId, CustomerFrom(id, body));
        var found;
        found, fetched := GetCustomer(id, false);
      } else {
        fetched := None;
      }
    }

    /** PUT /api/customers/:id. An UPDATE that matches no row checks no
        constraint, so a missing id is 404 whatever the phone. */
    method UpdateCustomer(id: nat, body: CustomerBody, fault: bool) returns (status: nat)
      requires Valid()
      modifies this
      ensures Valid()
      ensures CheckCustomerBody(body) != Accepted ==> status == StatusBadRequest
      ensures CheckCustomerBody(body) == Accepted && fault ==> status == StatusBadRequest
      ensures CheckCustomerBody(body) == Accepted && !fault ==>
        status == if FindById(old(customers), CustomerId, id).None? then StatusNotFound
                  else if PhoneHeldByOther(old(customers), body.phone_number.value, id) then StatusBadRequest
                  else StatusOk
      ensures status != StatusOk ==> unchanged(this)
      ensures status == StatusOk ==>
        && customers == SetRow(old(customers), CustomerId, CustomerFrom(id, body))
        && addresses == old(addresses)
        && customerSeq == old(customerSeq) && addressSeq == old(addressSeq)
        && issuedCustomerIds == old(issuedCustomerIds) && issuedAddressIds == old(issuedAddressIds)
    {
      if CheckCustomerBody(body) != Accepted || fault {
        return StatusBadRequest;
      }
      if FindById(customers, CustomerId, id).None? {
        return StatusNotFound;
      }
      if PhoneHeldByOther(customers, body.phone_number.value, id) {
        return StatusBadRequest;
      }
      var row := CustomerFrom(id, body);
      var updated := SetRow(customers, CustomerId, row);
      assert forall i :: 0 <= i < |customers| && customers[i].id != id ==> customers[i].phone_number != row.phone_number;
      assert forall i :: 0 <= i < |updated| ==> updated[i].id == customers[i].id;
      customers := updated;
      status := StatusOk;
    }

    /** DELETE /api/customers/:id. The customer's addresses stay: nothing cascades. */
    method DeleteCustomer(id: nat, fault: bool) returns (status: nat)
      requires Valid()
      modifies this
      ensures Valid()
      ensures fault ==> status == StatusBadRequest
      ensures !fault ==> status == if FindById(old(customers), CustomerId, id).None? then StatusNotFound else StatusOk
      ensures status != StatusOk ==> unchanged(this)
      ensures status == StatusOk ==>
        && customers == RemoveById(old(customers), CustomerId, id)
        && addresses == old(addresses)
        && customerSeq == old(customerSeq) && addressSeq == old(addressSeq)
        && issuedCustomerIds == old(issuedCustomerIds) && issuedAddressIds == old(issuedAddressIds)
    {
      if fault {
        return StatusBadRequest;
      }
      if FindById(customers, CustomerId, id).None? {
        return StatusNotFound;
      }
      var remaining := RemoveById(customers, CustomerId, id);
      RemoveKeepsUnique(customers, CustomerId, id, CustomerId);
      RemoveKeepsUnique(customers, CustomerId, id, PhoneOf);
      forall i | 0 <= i < |remaining| ensures remaining[i].id in issuedCustomerIds {
        RemoveByIdMember(customers, CustomerId, id, remaining[i]);
      }
      customers := remaining;
      status := StatusOk;
    }

    /** GET /api/customers: search, sort and offset pagination. The row statement
        and the count statement share the WHERE clause; the count is bound with
        the parameters minus the last two (LIMIT and OFFSET), so it counts every
        matching customer whatever the page. */
    method ListCustomers(
      search: Option<string>, page: Option<nat>, limit: Option<nat>,
      sort: Option<string>, order: Option<string>, fault: bool)
      returns (status: nat, rows: seq<Customer>, total: nat, pageOut: nat, totalPages: nat)
      requires Valid()
      requires page.None? || page.value >= 1
      requires limit.None? || limit.value >= 1
      ensures fault ==> status == StatusServerError
      ensures !fault ==>
        var p := GetOr(page, DefaultPage);
        var l := GetOr(limit, DefaultLimit);
        var matching := Matching(customers, addresses, SearchFilter(search));
        var column := SafeSort(GetOr(sort, DefaultSort));
        var direction := SafeOrder(GetOr(order, DefaultOrder));
        && status == StatusOk
        && rows == Window(SortRows(matching, column, direction), PageOffset(p, l), l)
        && total == |matching|
        && pageOut == p
        && totalPages == CeilDiv(total, l)
        && |rows| <= l
        && Ordered(rows, column, direction)
        && UniqueBy(rows, CustomerId)
        && (forall c :: c in rows ==> c in matching)
    {
      var p := GetOr(page, DefaultPage);
      var l := GetOr(limit, DefaultLimit);
      var offset := PageOffset(p, l);
      var column := SafeSort(GetOr(sort, DefaultSort));
      var direction := SafeOrder(GetOr(order, DefaultOrder));
      var filtered, params := BindListParams(search, l, offset);
      if fault {
        return StatusServerError, [], 0, 0, 0;
      }
      rows := RunSelect(filtered, column, direction, params, customers, addresses);
      var countParams := params[..|params| - 2];
      total := RunCount(filtered, countParams, customers, addresses);
      status, pageOut, totalPages := StatusOk, p, CeilDiv(total, l);
      PageOfMatches(customers, addresses, SearchFilter(search), column, direction, offset, l);
    }

    /** POST /api/customers/:id/addresses. The path id is stored as given: no
        customer with that id needs to exist. */
    method CreateAddress(customerId: nat, body: AddressBody, fault: bool) returns (status: nat, id: nat)
      requires Valid()
      modifies this
      ensures Valid()
      ensures status == if !AddressBodyComplete(body) || fault then StatusBadRequest else StatusCreated
      ensures status != StatusCreated ==> unchanged(this)
      ensures status == StatusCreated ==>
        && id !in old(issuedAddressIds)
        && id == old(addressSeq) + 1 && addressSeq == id
        && customerSeq == old(customerSeq)
        && addresses == old(addresses) + [AddressFrom(id, customerId, body)]
        && customers == old(customers)
        && issuedAddressIds == old(issuedAddressIds) + {id}
        && issuedCustomerIds == old(issuedCustomerIds)
    {
      id := addressSeq + 1;
      if !AddressBodyComplete(body) || fault {
        return StatusBadRequest, id;
      }
      assert forall i :: 0 <= i < |addresses| ==> addresses[i].id != id;
      addresses := addresses + [AddressFrom(id, customerId, body)];
      addressSeq := id;
      issuedAddressIds := issuedAddressIds + {id};
      status := StatusCreated;
    }

    /** GET /api/customers/:id/addresses: an unknown customer yields an empty list. */
    method ListAddresses(customerId: nat, fault: bool) returns (status: nat, rows: seq<Address>)
      ensures fault ==> status == StatusBadRequest
      ensures !fault ==> status == StatusOk
      ensures !fault ==> forall a :: a in rows <==> a in addresses && a.customer_id == customerId
      ensures !fault ==> multiset(rows) == multiset(AddressesOf(addresses, customerId))
      ensures !fault && (forall i :: 0 <= i < |addresses| ==> addresses[i].customer_id != customerId) ==> rows == []
    {
      if fault {
        return StatusBadRequest, [];
      }
      rows := AddressesOf(addresses, customerId);
      forall a ensures a in rows <==> a in addresses && a.customer_id == customerId {
        AddressesOfMember(addresses, customerId, a);
      }
      if forall i :: 0 <= i < |addresses| ==> addresses[i].customer_id != customerId {
        AddressesOfUnknown(addresses, customerId);
      }
      status := StatusOk;
    }

    /** PUT /api/customers/:id/addresses/:addressId: only a row that has both ids
        is updated; its id and customer_id stay. */
    method UpdateAddress(customerId: nat, addressId: nat, body: AddressBody, fault: bool) returns (status: nat)
      requires Valid()
      modifies this
      ensures Valid()
      ensures !AddressBodyComplete(body) ==> status == StatusBadRequest
      ensures AddressBodyComplete(body) && fault ==> status == StatusServerError
      ensures AddressBodyComplete(body) && !fault ==>
        status == if OwnedAddress(old(addresses), addressId, customerId) then StatusOk else StatusNotFound
      ensures status != StatusOk ==> unchanged(this)
      ensures status == StatusOk ==>
        && addresses == SetRow(old(addresses), AddressId, AddressFrom(addressId, customerId, body))
        && customers == old(customers)
        && customerSeq == old(customerSeq) && addressSeq == old(addressSeq)
        && issuedCustomerIds == old(issuedCustomerIds) && issuedAddressIds == old(issuedAddressIds)
    {
      if !AddressBodyComplete(body) {
        return StatusBadRequest;
      }
      if fault {
        return StatusServerError;
      }
      if !OwnedAddress(addresses, addressId, customerId) {
        return StatusNotFound;
      }
      var updated := SetRow(addresses, AddressId, AddressFrom(addressId, customerId, body));
      assert forall i :: 0 <= i < |updated| ==> updated[i].id == addresses[i].id;
      addresses := updated;
      status := StatusOk;
    }

    /** DELETE /api/customers/:id/addresses/:addressId: the row is chosen by the
        address id alone, whatever customer id the path names. */
    method DeleteAddress(customerId: nat, addressId: nat, fault: bool) returns (status: nat)
      requires Valid()
      modifies this
      ensures Valid()
      ensures fault ==> status == StatusBadRequest
      ensures !fault ==>
        status == if FindById(old(addresses), AddressId, addressId).None? then StatusNotFound else StatusOk
      ensures status != StatusOk ==> unchanged(this)
      ensures status == StatusOk ==>
        && addresses == RemoveById(old(addresses), AddressId, addressId)
        && customers == old(customers)
        && customerSeq == old(customerSeq) && addressSeq == old(addressSeq)
        && issuedCustomerIds == old(issuedCustomerIds) && issuedAddressIds == old(issuedAddressIds)
    {
      if fault {
        return StatusBadRequest;
      }
      if FindById(addresses, AddressId, addressId).None? {
        return StatusNotFound;
      }
      var remaining := RemoveById(addresses, AddressId, addressId);
      RemoveKeepsUnique(addresses, AddressId, addressId, AddressId);
      forall i | 0 <= i < |remaining| ensures remaining[i].id in issuedAddressIds {
        RemoveByIdMember(addresses, AddressId, addressId, remaining[i]);
      }
      addresses := remaining;
      status := StatusOk;
    }
  }
}
