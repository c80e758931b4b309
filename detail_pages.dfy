/** The customer detail page (client/src/pages/CustomerDetailPage.jsx): one
    customer and its addresses loaded together, and an address delete asked
    for through the browser's confirm dialog. */
module CustomerDetailPage {
  import opened Common
  import opened Sql
  import Server

  const LoadFailedMessage := "Failed to load customer details. Please check the ID and try again."

  /** Dropping an address from a customer's list gives the same rows as listing
      that customer's addresses after the server deleted it, so a successful
      delete leaves the page showing what the server now holds. */
  lemma {:induction false} LocalDeleteMatchesServer(table: seq<Address>, customerId: nat, addressId: nat)
    ensures RemoveById(Server.AddressesOf(table, customerId), AddressId, addressId)
         == Server.AddressesOf(RemoveById(table, AddressId, addressId), customerId)
  {
    if table != [] {
      LocalDeleteMatchesServer(table[1..], customerId, addressId);
      var head := [table[0]];
      assert table == head + table[1..];
      var mine := if table[0].customer_id == customerId then head else [];
      assert Server.AddressesOf(table, customerId) == mine + Server.AddressesOf(table[1..], customerId);
      RemoveByIdAppend(mine, Server.AddressesOf(table[1..], customerId), AddressId, addressId);
      var kept := if table[0].id != addressId then head else [];
      assert RemoveById(table, AddressId, addressId) == kept + RemoveById(table[1..], AddressId, addressId);
      AddressesOfAppend(kept, RemoveById(table[1..], AddressId, addressId), customerId);
    }
  }

  lemma AddressesOfCons(x: Address, rest: seq<Address>, customerId: nat)
    ensures Server.AddressesOf([x] + rest, customerId)
         == (if x.customer_id == customerId then [x] else []) + Server.AddressesOf(rest, customerId)
  {
    assert ([x] + rest)[0] == x && ([x] + rest)[1..] == rest;
  }

  lemma {:induction false} AddressesOfAppend(a: seq<Address>, b: seq<Address>, customerId: nat)
    ensures Server.AddressesOf(a + b, customerId) == Server.AddressesOf(a, customerId) + Server.AddressesOf(b, customerId)
  {
    if a == [] {
      assert a + b == b;
    } else {
      assert a == [a[0]] + a[1..] && a + b == [a[0]] + (a[1..] + b);
      AddressesOfCons(a[0], a[1..] + b, customerId);
      AddressesOfCons(a[0], a[1..], customerId);
      AddressesOfAppend(a[1..], b, customerId);
    }
  }

  class CustomerDetailScreen {
    /** The `:id` route parameter. */
    const id: Option<string>
    var addresses: seq<Address>
    var customer: Option<Customer>
    var loading: bool
    var error: Option<string>

    constructor (id: Option<string>)
      ensures this.id == id
      ensures addresses == [] && customer == None && loading && error == None
    {
      this.id := id;
      addresses := [];
      customer := None;
      loading := true;
      error := None;
    }

    /** The effect on `[id]`, as in the detail view: nothing without an id;
        data only when both replies are ok; otherwise the error, no customer
        and the previous addresses; never left loading. */
    method Load(customerReply: Reply<Customer>, addressReply: Reply<seq<Address>>) returns (sent: seq<Request>)
      modifies this`addresses, this`customer, this`loading, this`error
      ensures !Truthy(id) ==> sent == [] && unchanged(this)
      ensures Truthy(id) ==> !loading
      ensures Truthy(id) ==>
        sent == [Request(GET, "/api/customers/" + id.value), Request(GET, "/api/customers/" + id.value + "/addresses")]
      ensures Truthy(id) && customerReply.Ok? && addressReply.Ok? ==>
        && customer == Some(customerReply.data) && addresses == addressReply.data && error == None
      ensures Truthy(id) && (customerReply.NotOk? || addressReply.NotOk?) ==>
        && customer == None && addresses == old(addresses) && error == Some(LoadFailedMessage)
    {
      if !Truthy(id) {
        return [];
      }
      loading := true;
      error := None;
      sent := [Request(GET, "/api/customers/" + id.value), Request(GET, "/api/customers/" + id.value + "/addresses")];
      if customerReply.NotOk? || addressReply.NotOk? {
        error := Some(LoadFailedMessage);
        customer := None;
      } else {
        customer := Some(customerReply.data);
        addresses := addressReply.data;
      }
      loading := false;
    }

    /** Deleting an address: nothing is sent unless the user confirms. A
        successful DELETE drops exactly the addresses with that id from the
        list; a failed one leaves the list and reports the failure. */
    method HandleDeleteAddress(addressId: nat, confirmed: bool, ok: bool) returns (sent: Option<Request>, alerted: bool)
      modifies this`addresses
      ensures !confirmed ==> sent == None && !alerted && addresses == old(addresses)
      ensures confirmed ==>
        sent == Some(Request(DELETE, "/api/customers/" + ParamText(id) + "/addresses/" + NatText(addressId)))
      ensures confirmed && ok ==> !alerted && addresses == RemoveById(old(addresses), AddressId, addressId)
      ensures confirmed && !ok ==> alerted && addresses == old(addresses)
    {
      if !confirmed {
        return None, false;
      }
      sent := Some(Request(DELETE, "/api/customers/" + ParamText(id) + "/addresses/" + NatText(addressId)));
      if ok {
        addresses := RemoveById(addresses, AddressId, addressId);
        alerted := false;
      } else {
        alerted := true;
      }
    }
  }
}
