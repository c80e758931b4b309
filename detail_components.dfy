/** The customer detail view (client/src/components/CustomerDetailPage.jsx):
    one customer and its addresses loaded together, and a two-step address
    delete behind a confirmation dialog. */
module CustomerDetailComponent {
  import opened Common
  import opened Sql

  const LoadFailedMessage := "Failed to load customer details. Please check the ID and try again."
  const DeletedMessage := "Address successfully deleted!"
  const DeleteFailedMessage := "Error deleting address."

  /** The two GETs issued together when the view loads customer `id`. */
  function LoadRequests(id: string): (r: seq<Request>)
    ensures |r| == 2 && r[0].verb == GET && r[1].verb == GET
    ensures r[0].path == "/api/customers/" + id
    ensures r[1].path == r[0].path + "/addresses"
  {
    [Request(GET, "/api/customers/" + id), Request(GET, "/api/customers/" + id + "/addresses")]
  }

  class CustomerDetailView {
    /** The `:id` route parameter. */
    const id: Option<string>
    var addresses: seq<Address>
    var customer: Option<Customer>
    var loading: bool
    var error: Option<string>
    var showDeleteConfirm: bool
    var addressToDeleteId: Option<nat>
    var deleteMessage: string

    constructor (id: Option<string>)
      ensures this.id == id
      ensures addresses == [] && customer == None && loading && error == None
      ensures !showDeleteConfirm && addressToDeleteId == None && deleteMessage == ""
    {
      this.id := id;
      addresses := [];
      customer := None;
      loading := true;
      error := None;
      showDeleteConfirm := false;
      addressToDeleteId := None;
      deleteMessage := "";
    }

    /** The effect on `[id]`. Without an id nothing is requested and nothing
        changes. Otherwise both replies must be ok for the customer and its
        addresses to be shown; if either fails the error is set, the customer
        cleared and the previous addresses kept. Loading ends either way. */
    method Load(customerReply: Reply<Customer>, addressReply: Reply<seq<Address>>) returns (sent: seq<Request>)
      modifies this`addresses, this`customer, this`loading, this`error
      ensures !Truthy(id) ==> sent == [] && unchanged(this)
      ensures Truthy(id) ==> sent == LoadRequests(id.value) && !loading
      ensures Truthy(id) && customerReply.Ok? && addressReply.Ok? ==>
        && customer == Some(customerReply.data) && addresses == addressReply.data && error == None
      ensures Truthy(id) && (customerReply.NotOk? || addressReply.NotOk?) ==>
        && customer == None && addresses == old(addresses) && error == Some(LoadFailedMessage)
    {
      if !Truthy(id) {
        return [];
      }
      loading := true;
      error := None;
      sent := LoadRequests(id.value);
      if customerReply.NotOk? || addressReply.NotOk? {
        error := Some(LoadFailedMessage);
        customer := None;
      } else {
        customer := Some(customerReply.data);
        addresses := addressReply.data;
      }
      loading := false;
    }

    /** Picking an address to delete shows the confirmation. */
    method HandleDelete(addressId: nat)
      modifies this`addressToDeleteId, this`showDeleteConfirm
      ensures addressToDeleteId == Some(addressId) && showDeleteConfirm
    {
      addressToDeleteId := Some(addressId);
      showDeleteConfirm := true;
    }

    /** Confirming sends the DELETE for the pending address. On success exactly
        the addresses with that id leave the list (none when nothing is
        pending); on failure the list is kept. The confirmation always closes
        and nothing stays pending. */
    method ConfirmDelete(ok: bool) returns (sent: Request)
      modifies this`addresses, this`deleteMessage, this`showDeleteConfirm, this`addressToDeleteId
      ensures sent == Request(DELETE, "/api/customers/" + ParamText(id) + "/addresses/" + IdText(old(addressToDeleteId)))
      ensures ok && old(addressToDeleteId).Some? ==>
        addresses == RemoveById(old(addresses), AddressId, old(addressToDeleteId).value)
      ensures ok && old(addressToDeleteId).None? ==> addresses == old(addresses)
      ensures ok ==> deleteMessage == DeletedMessage
      ensures !ok ==> addresses == old(addresses) && deleteMessage == DeleteFailedMessage
      ensures !showDeleteConfirm && addressToDeleteId == None
    {
      sent := Request(DELETE, "/api/customers/" + ParamText(id) + "/addresses/" + IdText(addressToDeleteId));
      if ok {
        if addressToDeleteId.Some? {
          addresses := RemoveById(addresses, AddressId, addressToDeleteId.value);
        }
        deleteMessage := DeletedMessage;
      } else {
        deleteMessage := DeleteFailedMessage;
      }
      showDeleteConfirm := false;
      addressToDeleteId := None;
    }

    /** Cancel hides the confirmation and changes nothing else. */
    method Cancel()
      modifies this`showDeleteConfirm
      ensures !showDeleteConfirm
    {
      showDeleteConfirm := false;
    }
  }
}
