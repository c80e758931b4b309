/** The customer list page (client/src/components/CustomerListPage.jsx): the
    search box and page counter that drive the listing request, and the
    two-step delete (pick a customer, then confirm or cancel). */
module CustomerList {
  import opened Common
  import opened Sql

  /** The page size the list always asks for. */
  const PageSize := 10

  const DeletedMessage := "Customer successfully deleted!"
  const DeleteFailedMessage := "Error deleting customer."

  /** The query string of the listing request; sort and order are never sent,
      so the server applies its defaults. */
  datatype ListQuery = ListQuery(search: string, page: int, limit: int)

  /** The parts of the listing response the page keeps. */
  datatype ListResponse = ListResponse(data: seq<Customer>, totalPages: int)

  /** `customers.filter(c => c.id !== customerToDeleteId)`: exactly the
      customers whose id is not the pending one stay, in their order; with no
      pending id (`null`), or one no customer carries, the list is kept whole. */
  function WithoutPending(customers: seq<Customer>, pending: Option<nat>): (r: seq<Customer>)
    ensures forall c :: c in r <==> c in customers && pending != Some(c.id)
    ensures (forall i :: 0 <= i < |customers| ==> pending != Some(customers[i].id)) ==> r == customers
  {
    match pending
    case Some(id) =>
      assert forall c :: c in RemoveById(customers, CustomerId, id) <==> c in customers && c.id != id by {
        forall c ensures c in RemoveById(customers, CustomerId, id) <==> c in customers && c.id != id {
          RemoveByIdMember(customers, CustomerId, id, c);
        }
      }
      RemoveByIdAbsent(customers, CustomerId, id);
      RemoveById(customers, CustomerId, id)
    case None => customers
  }

  /** The Next button's guard as written: disabled only on `page === totalPages`. */
  predicate NextDisabledAsWritten(page: int, totalPages: int)
  {
    page == totalPages
  }

  /** With no customer matching the search the server reports zero pages, so
      on page 1 Next stays enabled and leads to pages past the last. */
  lemma NextEnabledPastLastPage()
    ensures !NextDisabledAsWritten(1, CeilDiv(0, PageSize))
    ensures !NextDisabledAsWritten(1 + 1, CeilDiv(0, PageSize))
  {
  }

  /** The guard the pagination evidently intends: Next only while a later page exists. */
  predicate NextAllowed(page: int, totalPages: int)
  {
    page < totalPages
  }

  /** Under that guard one click of Next keeps the page within the pages the
      server reported, and with zero pages Next is never allowed. */
  lemma NextAllowedStaysInRange(page: int, totalPages: int)
    requires 1 <= page <= totalPages || (page == 1 && totalPages == 0)
    ensures NextAllowed(page, totalPages) ==> 1 <= page + 1 <= totalPages
    ensures totalPages == 0 ==> !NextAllowed(page, totalPages)
    ensures NextDisabledAsWritten(page, totalPages) ==> !NextAllowed(page, totalPages)
  {
  }

  class CustomerListPage {
    var customers: seq<Customer>
    var search: string
    var page: int
    var totalPages: int
    var showDeleteConfirm: bool
    var customerToDeleteId: Option<nat>
    var deleteMessage: string

    /** The page counter never drops below 1. */
    ghost predicate Valid()
      reads this
    {
      page >= 1
    }

    constructor ()
      ensures Valid()
      ensures customers == [] && search == "" && page == 1 && totalPages == 1
      ensures !showDeleteConfirm && customerToDeleteId == None && deleteMessage == ""
    {
      customers := [];
      search := "";
      page := 1;
      totalPages := 1;
      showDeleteConfirm := false;
      customerToDeleteId := None;
      deleteMessage := "";
    }

    /** The effect on `[search, page]`: ask for the current search term and
        page, ten rows at a time; an ok reply replaces the rows and the page
        count, a failed one leaves both as they were. */
    method Fetch(reply: Reply<ListResponse>) returns (query: ListQuery)
      modifies this`customers, this`totalPages
      ensures query == ListQuery(search, page, PageSize)
      ensures reply.Ok? ==> customers == reply.data.data && totalPages == reply.data.totalPages
      ensures reply.NotOk? ==> customers == old(customers) && totalPages == old(totalPages)
    {
      query := ListQuery(search, page, PageSize);
      if reply.Ok? {
        customers := reply.data.data;
        totalPages := reply.data.totalPages;
      }
    }

    /** Typing in the search box; the page is not reset. */
    method SetSearch(value: string)
      modifies this`search
      ensures search == value
    {
      search := value;
    }

    predicate PreviousDisabled()
      reads this
    {
      page == 1
    }

    predicate NextDisabled()
      reads this
    {
      NextDisabledAsWritten(page, totalPages)
    }

    /** `setPage(prev => Math.max(prev - 1, 1))`, clickable only off page 1. */
    method Previous()
      requires Valid() && !PreviousDisabled()
      modifies this`page
      ensures Valid()
      ensures page == if old(page) - 1 > 1 then old(page) - 1 else 1
      ensures page == old(page) - 1
    {
      page := if page - 1 > 1 then page - 1 else 1;
    }

    /** `setPage(prev => prev + 1)`, clickable whenever the as-written guard
        leaves the button enabled. */
    method Next()
      requires Valid() && !NextDisabled()
      modifies this`page
      ensures Valid() && page == old(page) + 1
    {
      page := page + 1;
    }

    /** Picking a customer to delete opens the confirmation. */
    method HandleDelete(id: nat)
      modifies this`customerToDeleteId, this`showDeleteConfirm
      ensures customerToDeleteId == Some(id) && showDeleteConfirm
    {
      customerToDeleteId := Some(id);
      showDeleteConfirm := true;
    }

    /** Confirming sends the DELETE for the pending id. On success exactly the
        customers with that id leave the list; on failure the list is kept.
        Either way the confirmation closes and nothing is pending. */
    method ConfirmDelete(ok: bool) returns (sent: Request)
      modifies this`customers, this`deleteMessage, this`showDeleteConfirm, this`customerToDeleteId
      ensures sent == Request(DELETE, "/api/customers/" + IdText(old(customerToDeleteId)))
      ensures ok ==> customers == WithoutPending(old(customers), old(customerToDeleteId))
      ensures ok ==> deleteMessage == DeletedMessage
      ensures !ok ==> customers == old(customers) && deleteMessage == DeleteFailedMessage
      ensures !showDeleteConfirm && customerToDeleteId == None
    {
      sent := Request(DELETE, "/api/customers/" + IdText(customerToDeleteId));
      if ok {
        customers := WithoutPending(customers, customerToDeleteId);
        deleteMessage := DeletedMessage;
      } else {
        deleteMessage := DeleteFailedMessage;
      }
      showDeleteConfirm := false;
      customerToDeleteId := None;
    }

    /** Cancel only closes the confirmation: no request, and the pending id stays. */
    method Cancel()
      modifies this`showDeleteConfirm
      ensures !showDeleteConfirm
    {
      showDeleteConfirm := false;
    }
  }

  /** The finding replayed on the page itself: a search that matches nothing
      gets zero pages back, and from page 1 Next can still be clicked twice,
      leaving the counter on page 3 of 0. */
  method NextRunsPastLastPage() returns (view: CustomerListPage)
    ensures view.totalPages == 0 && view.page == 3
    ensures view.page > view.totalPages
  {
    view := new CustomerListPage();
    var query := view.Fetch(Ok(ListResponse([], CeilDiv(0, PageSize))));
    view.Next();
    view.Next();
  }
}
