# Customer CRUD app: a verified Dafny model

The system is a small customer-management web application.

- **Server.** An Express service over SQLite keeps two tables. `customers` rows have a unique ten-digit phone number. `addresses` rows each carry a `customer_id`. It offers:
  - create, get, update and delete of a customer;
  - a listing with search, sort and offset pagination;
  - create, list, update and delete of a customer's addresses.
- **Client.** A React app has:
  - a customer form and an address form, each with field-by-field validation;
  - a paginated customer list with a two-step delete;
  - two variants of a customer detail page that load a customer together with its addresses and let the user delete addresses.

This project models that behaviour and proves properties of it.

| file | module | models |
|---|---|---|
| `common.dfy` | `Common` | Options, JavaScript string behaviour (truthiness, `\d`, `trim`, ASCII case mapping, substring search), the client-side `filter` by id, URL text of ids, requests and replies |
| `sql.dfy` | `Sql` | The table rows and what the listing statements compute. `LIKE '%term%'` is ASCII case-insensitive substring search. `DISTINCT` runs over the `LEFT JOIN`. Then `ORDER BY` on the sanitised column and direction, `LIMIT`/`OFFSET`, `COUNT(DISTINCT c.id)`, and the page count |
| `server.dfy` | `Server` | Class `Store` holds the two tables and their AUTOINCREMENT counters. It has one method per route handler, returning the HTTP status |
| `customer_form.dfy` | `CustomerForm` | `client/src/pages/CustomerFormPage.jsx` |
| `address_form.dfy` | `AddressForm` | `client/src/components/AddressFormPage.jsx` |
| `customer_list.dfy` | `CustomerList` | `client/src/components/CustomerListPage.jsx` |
| `detail_components.dfy` | `CustomerDetailComponent` | `client/src/components/CustomerDetailPage.jsx` |
| `detail_pages.dfy` | `CustomerDetailPage` | `client/src/pages/CustomerDetailPage.jsx` |

Modelling choices:

- **Store.** The store is a class with the two tables as sequences and the `sqlite_sequence` counters as fields. Ghost sets record every id ever issued, so the proofs can state that a new id was never issued before.
  - `Valid()` says that ids and phone numbers are unique and that every row's id was issued by its counter.
  - A store error other than the phone UNIQUE constraint (an I/O error, a locked database) is a `fault` input. Each handler maps it to the status its error callback sends: 400 or 500.
- **Request bodies.** Body fields are `Option<string>`, where `None` means the key is absent. Truthiness is "present and not empty". Route ids are naturals (see "## Left out").
- **Client.** Every client page is a class whose fields are its React state, with one method per event handler or effect.
  - Each awaited `fetch` becomes an input: an ok reply with its data, or a failure with its message.
  - The requests the page issues are returned as values: the method and the path without the backend host.
  - `window.confirm` is a boolean input.
- **Validation.** Each form has a declarative error object `Errors(f)`, built with a map comprehension over the inputs. `ValidateForm` builds `newErrors` step by step as the source does, and is proved equal to `Errors`.
  - Lemmas connect each form to the server's own checks.
  - For the customer form the two agree exactly.
  - For the address form the client is strictly stricter: a concrete body shows that the server accepts what the client refuses.

## Model

| member | source | states |
|---|---|---|
| Common.AllDigits | server/index.js:47 | The result holds exactly when every character is an ASCII digit, the meaning of `\d` in `^\d{10}$`. |
| Common.TrimEmptyIffBlank | client/src/components/AddressFormPage.jsx:34-39 | `trim()` yields the empty string exactly when the value is empty or consists only of JavaScript white space and line terminators. |
| Common.Lower | server/index.js:84 | ASCII lower-casing keeps the length and maps each character on its own, as `LIKE` folds case. |
| Common.Upper | server/index.js:91 | ASCII upper-casing keeps the length and maps each character on its own, as `toUpperCase` does on ASCII. |
| Common.ContainsIffOccurs | server/index.js:84 | The recursive substring search holds exactly when the term occurs at some position of the text, which is what `%term%` matches. |
| Common.RemoveByIdMember | client/src/components/CustomerListPage.jsx:56 | Filtering by id keeps a row exactly when it was in the list and its id differs from the one removed. |
| Common.RemoveByIdAppend | client/src/components/CustomerListPage.jsx:56 | The filter distributes over concatenation, so the rows that stay keep their relative order. |
| Common.RemoveByIdAbsent | client/src/components/CustomerDetailPage.jsx:69 | When no row carries the id, the filtered list equals the original. |
| Common.NatText | client/src/components/CustomerListPage.jsx:49 | An id spliced into a URL is a non-empty string of decimal digits with no leading zero, and it denotes that id again. |
| Sql.FindById | server/index.js:121-129 | A lookup by primary key returns a row of the table that has that id, and returns nothing exactly when no row has it. |
| Sql.FindAppended | server/index.js:50-56 | After appending a row whose id no earlier row had, a lookup of that id finds that row. |
| Sql.RemoveKeepsUnique | server/index.js:157-171 | Deleting rows by id keeps every unique column unique. |
| Sql.Matching | server/index.js:66-86 | The listed customers are exactly the customers with no search, or those whose first name, last name, or the city, state or pin code of one of their addresses contains the term. Never more rows than the table has. |
| Sql.MatchingUnfiltered | server/index.js:78 | Without a search term every customer is listed, in table order. |
| Sql.MatchingDistinct | server/index.js:67 | `DISTINCT`: with unique ids in the table, no customer appears twice however many of its addresses match. |
| Sql.SafeSortAllowList | server/index.js:89-90 | The effective sort column is the requested one when it is in the allow-list, otherwise `c.id`. It is always one of `c.id`, `c.first_name`, `c.last_name`. |
| Sql.SafeOrderDesc | server/index.js:91 | DESC is chosen exactly for the four letters d, e, s, c in any mix of cases; anything else is ASC. |
| Sql.SortRowsCorrect | server/index.js:93 | `ORDER BY` returns a permutation of the matching rows, ordered by the chosen column and direction. |
| Sql.SortRowsKeepsIdsUnique | server/index.js:93 | Sorting keeps customer ids unique. |
| Sql.Window | server/index.js:93-94 | `LIMIT`/`OFFSET` returns at most `limit` rows: exactly `limit` when the table reaches past the page, the remainder on the last page. The k-th row is row `offset + k`. |
| Sql.CeilDiv | server/index.js:112 | `totalPages` is the smallest number of pages of `limit` rows that holds `total` rows. |
| Sql.PagesBeyond | server/index.js:112 | If `p` pages hold fewer rows than `total`, then `totalPages` is greater than `p`. |
| Sql.RowOnPage | server/index.js:62-112 | Every row of the ordered result is on page `i / limit + 1`, which lies between 1 and `totalPages`. |
| Sql.PageOfMatches | server/index.js:66-94 | Every page of the listing is ordered, holds no customer twice, and contains only matching customers. |
| Server.AddressesOfMember | server/index.js:192-199 | The listed addresses are exactly the rows with that `customer_id`. |
| Server.AddressesOfUnknown | server/index.js:192-199 | A customer id that no address carries lists nothing. |
| Server.ForeignAddressNotOwned | server/index.js:208-215 | With unique address ids, an address belonging to one customer is not owned by any other, so updating it through another customer's path is 404. |
| Server.BindListParams | server/index.js:76-103 | The parameters are five copies of the search pattern when the term is truthy, then LIMIT and OFFSET. Dropping the last two leaves exactly the count statement's parameters for the same search. |
| Server.Store.constructor | server/index.js:17-32 | A new store has two empty tables and both counters at zero, and satisfies the invariant. |
| Server.Store.CreateCustomer | server/index.js:41-58 | Returns 400 with nothing stored when a field is missing or empty (checked first) or the phone is not ten digits. Returns 500 with nothing stored on a fault or a phone already held. Otherwise returns 201 with the id one past the customers' AUTOINCREMENT counter, which becomes the new counter value. That id was never issued before. Exactly that row is appended, and the addresses and their counter are untouched. The invariant is kept. |
| Server.Store.GetCustomer | server/index.js:119-131 | A fault gives 400. Otherwise the row with that id and 200, or 404 when there is none. |
| Server.Store.CreateThenGet | server/index.js:41-131 | A successful create followed by a get of the returned id finds exactly the stored fields. |
| Server.Store.UpdateCustomer | server/index.js:133-155 | Returns 400 with nothing changed for a bad body or a fault. Returns 404 with nothing changed for an unknown id. Returns 400 when another customer holds the phone. Otherwise returns 200 and replaces only that row; addresses and counters are unchanged. |
| Server.Store.DeleteCustomer | server/index.js:157-171 | A fault gives 400, an unknown id 404, each with nothing changed. Otherwise 200, only that customer removed, and its address rows left in place. |
| Server.Store.ListCustomers | server/index.js:60-116 | On a fault: 500. Otherwise: 200, with the rows at offset `(page-1)*limit` of the sorted matching customers. `total` is the number of matching customers, independent of the page. `totalPages` is `CeilDiv(total, limit)`. |
| Server.Store.CreateAddress | server/index.js:175-190 | Returns 400 with nothing stored when a field is missing or empty, or on a fault; there is no pin format check. Otherwise returns 201 with the id one past the addresses' counter, which becomes the new counter value. It appends a row with that id and the path id as `customer_id`, and leaves the customers and their counter untouched. |
| Server.Store.ListAddresses | server/index.js:192-200 | A fault gives 400. Otherwise 200. The result holds the addresses whose `customer_id` is the path id, each as often as in the table (equal as a multiset), in some order. An unknown id gives an empty list. |
| Server.Store.UpdateAddress | server/index.js:202-218 | A missing field gives 400 and a fault 500. A row must have both the address id and the customer id, otherwise 404 with nothing changed. On success that row's fields are replaced and its ids kept. |
| Server.Store.DeleteAddress | server/index.js:219-230 | A fault gives 400. The address is removed by its id alone, ignoring the customer id in the path. 404 when no row has that id. |
| CustomerForm.WithField | client/src/pages/CustomerFormPage.jsx:57-60 | The named field takes the new value and every other field keeps its value. |
| CustomerForm.Errors | client/src/pages/CustomerFormPage.jsx:45-52 | First and last name each get their own key exactly when empty, independently of the other fields. The phone gets one key exactly when it is not ten digits, with "required" when empty and the digit message otherwise. No other key appears. |
| CustomerForm.ErrorsInOrder | client/src/pages/CustomerFormPage.jsx:46-53 | Adding each input's message in the form's order builds exactly the error object. |
| CustomerForm.ValidIffServerAccepts | client/src/pages/CustomerFormPage.jsx:45-55 | The form is valid exactly when the server's create/update checks accept its body. |
| CustomerForm.SaveRequest | client/src/pages/CustomerFormPage.jsx:66-67 | With an id the save is a PUT to `/api/customers/{id}`; without one it is a POST to `/api/customers`. |
| CustomerForm.CustomerFormPage.constructor | client/src/pages/CustomerFormPage.jsx:9-15 | The initial state: three empty fields, no errors, not loading, and the route id. |
| CustomerForm.CustomerFormPage.LoadCustomer | client/src/pages/CustomerFormPage.jsx:18-42 | With an id, that customer is requested, an ok reply fills the form, and loading ends false. Without an id nothing is requested and the form becomes three empty fields. |
| CustomerForm.CustomerFormPage.ValidateForm | client/src/pages/CustomerFormPage.jsx:45-55 | The error state becomes `Errors(formData)`, and the result is true exactly when it is empty. |
| CustomerForm.CustomerFormPage.HandleChange | client/src/pages/CustomerFormPage.jsx:57-60 | The form becomes `WithField` of the old form. |
| CustomerForm.CustomerFormPage.HandleSubmit | client/src/pages/CustomerFormPage.jsx:62-84 | An invalid form sends nothing and shows its errors. A valid one sends `SaveRequest(id)`. On success it navigates to `/` with no errors; on failure it stays, and the errors are exactly `{form: message}`. |
| AddressForm.WithField | client/src/components/AddressFormPage.jsx:47-50 | The named field takes the new value and every other field keeps its value. |
| AddressForm.Errors | client/src/components/AddressFormPage.jsx:32-44 | Only the four inputs can carry a message; the per-field meaning is stated in `BlankIsMissing` and `PinError`. |
| AddressForm.ErrorsInOrder | client/src/components/AddressFormPage.jsx:33-43 | Adding each input's message in the form's order builds exactly the error object. |
| AddressForm.BlankIsMissing | client/src/components/AddressFormPage.jsx:34-37 | Address details, city and state each get their key exactly when the value is empty or white space only. |
| AddressForm.PinError | client/src/components/AddressFormPage.jsx:38-42 | The pin gets one key exactly when the value as typed is not six digits: "required" when blank, the digit message otherwise. |
| AddressForm.ValidIsServerComplete | client/src/components/AddressFormPage.jsx:32-45 | Every body the form lets through passes the server's completeness check. |
| AddressForm.ServerAcceptsWhatClientRefuses | client/src/components/AddressFormPage.jsx:34-42 | The converse fails: a blank-looking detail and a non-digit pin pass the server but not the form. |
| AddressForm.SaveRequest | client/src/components/AddressFormPage.jsx:20-64 | In edit mode (an address id is present) the save is a PUT to `.../addresses/{addressId}`; otherwise it is a POST to `.../addresses`. |
| AddressForm.AddressFormPage.constructor | client/src/components/AddressFormPage.jsx:5-20 | The initial state: four empty fields, no errors, not loading, and both route ids. |
| AddressForm.AddressFormPage.LoadFromState | client/src/components/AddressFormPage.jsx:22-29 | The form takes the address passed in navigation state, or four empty fields. |
| AddressForm.AddressFormPage.ValidateForm | client/src/components/AddressFormPage.jsx:32-45 | The error state becomes `Errors(formData)`, and the result is true exactly when it is empty. |
| AddressForm.AddressFormPage.HandleChange | client/src/components/AddressFormPage.jsx:47-50 | The form becomes `WithField` of the old form. |
| AddressForm.AddressFormPage.HandleSubmit | client/src/components/AddressFormPage.jsx:52-88 | An invalid form sends nothing. A valid one clears the errors and sends `SaveRequest` with loading on; loading is off afterwards whatever the outcome. Success navigates to the customer page; failure leaves exactly `{form: message}`. |
| CustomerList.WithoutPending | client/src/components/CustomerListPage.jsx:56 | A customer stays exactly when it was listed and its id is not the pending one. With no pending id (`null`), or one that no customer carries, the list is kept whole. |
| CustomerList.NextEnabledPastLastPage | client/src/components/CustomerListPage.jsx:129 | With zero matches the server reports zero pages, and the Next guard as written leaves Next enabled on page 1 and beyond. |
| CustomerList.NextAllowedStaysInRange | client/src/components/CustomerListPage.jsx:126-129 | Under the intended guard `page < totalPages`, Next keeps the page within the reported pages, and is never allowed with zero pages. |
| CustomerList.CustomerListPage.Fetch | client/src/components/CustomerListPage.jsx:19-38 | Every fetch asks for the current search, the current page and limit 10. An ok reply replaces the rows and the page count; a failed one keeps both. |
| CustomerList.CustomerListPage.Previous | client/src/components/CustomerListPage.jsx:120-121 | Clickable only off page 1 (the button's guard). The page becomes max(page-1, 1), which there is exactly page-1, so it never drops below 1. |
| CustomerList.CustomerListPage.Next | client/src/components/CustomerListPage.jsx:127-130 | Clickable whenever the as-written guard leaves the button enabled. The page grows by exactly 1. |
| CustomerList.CustomerListPage.SetSearch | client/src/components/CustomerListPage.jsx:85 | Typing sets the search term to the input's value; the page is not reset. |
| CustomerList.CustomerListPage.constructor | client/src/components/CustomerListPage.jsx:8-14 | The initial state: no customers, an empty search, page 1 of 1, no confirmation open, nothing pending, no message. |
| CustomerList.NextRunsPastLastPage | client/src/components/CustomerListPage.jsx:118-130 | On the page itself, a search with no match leaves zero pages, and Next can still be clicked twice from page 1, ending on page 3 of 0. |
| CustomerList.CustomerListPage.HandleDelete | client/src/components/CustomerListPage.jsx:41-44 | Records the pending id and opens the confirmation. |
| CustomerList.CustomerListPage.ConfirmDelete | client/src/components/CustomerListPage.jsx:47-67 | Sends DELETE for the pending id. Success removes exactly the customers with that id with the success message. Failure keeps the list with the error message. Either way the confirmation closes and no id is pending. |
| CustomerList.CustomerListPage.Cancel | client/src/components/CustomerListPage.jsx:153 | Only closes the confirmation and sends nothing. |
| CustomerDetailComponent.LoadRequests | client/src/components/CustomerDetailPage.jsx:23-26 | The view issues two GETs: the customer and, under it, its addresses. |
| CustomerDetailComponent.CustomerDetailView.constructor | client/src/components/CustomerDetailPage.jsx:5-13 | The initial state: no addresses, no customer, loading, no error, no confirmation open, nothing pending, no message. |
| CustomerDetailComponent.CustomerDetailView.Load | client/src/components/CustomerDetailPage.jsx:15-53 | No request and no change without an id. With one: data only when both replies are ok. Otherwise the error is set, the customer cleared and the previous addresses kept. Loading ends false. |
| CustomerDetailComponent.CustomerDetailView.HandleDelete | client/src/components/CustomerDetailPage.jsx:55-58 | Records the pending address id and shows the confirmation. |
| CustomerDetailComponent.CustomerDetailView.ConfirmDelete | client/src/components/CustomerDetailPage.jsx:60-80 | Sends DELETE for the pending address. Success removes exactly the addresses with that id; failure keeps them with the error message. Either way the confirmation is hidden and no id is pending. |
| CustomerDetailComponent.CustomerDetailView.Cancel | client/src/components/CustomerDetailPage.jsx:209 | Hides the confirmation and changes nothing else. |
| CustomerDetailPage.LocalDeleteMatchesServer | client/src/pages/CustomerDetailPage.jsx:66 | Filtering the address out of a customer's list gives exactly the list the server returns for that customer after its delete by address id. |
| CustomerDetailPage.CustomerDetailScreen.constructor | client/src/pages/CustomerDetailPage.jsx:5-10 | The initial state: no addresses, no customer, loading, no error. |
| CustomerDetailPage.CustomerDetailScreen.Load | client/src/pages/CustomerDetailPage.jsx:12-49 | No request and no change without an id. With one: data only when both replies are ok. Otherwise the error is set, the customer cleared and the previous addresses kept. Loading ends false. |
| CustomerDetailPage.CustomerDetailScreen.HandleDeleteAddress | client/src/pages/CustomerDetailPage.jsx:52-74 | A DELETE is sent only when the user confirms. Success removes exactly the addresses with that id from the previous list; failure leaves the list and alerts. |

## Left out

- Route ids (`:id`, `:addressId`) are naturals in the model. A path id that is not a natural (text, negative or fractional) is not modelled. SQLite compares a path id with an INTEGER column after numeric conversion, so text such as `05` or `5.0` reaches the same rows as `5`. For any other value:
  - GET of one customer, and PUT and DELETE of a customer, match no row and answer 404.
  - DELETE of an address goes by `:addressId` alone and ignores the `:id` segment, as `Server.Store.DeleteAddress` does for any customer id. A non-natural `:addressId` matches no row and answers 404.
  - GET of a customer's address list answers 200 with the rows stored under that value, usually none.
  - A POST to an address collection stores the value as `customer_id`: text, or a negative or fractional number, none of which the model's `customer_id` (a natural) can hold. A later address update through the same path can match such a row.
- SQLite itself is not modelled: the connection, `db.serialize`, running the DDL, `app.listen`, CORS and JSON middleware. The store is two sequences with counters.
- Foreign keys are never enforced, since `PRAGMA foreign_keys` is not set. The model lets an address reference any customer id, and deleting a customer keeps its addresses.
- Sql.Like: `%` and `_` inside the user's term are treated as ordinary characters; SQLite would read them as wildcards.
- Sql.SafeOrder: `toUpperCase` is modelled on ASCII only. Non-ASCII mappings are left out, such as U+017F (long s) upper-casing to S.
- Sql.SortRows: SQLite leaves the order of ties unspecified. The model compares text by code point, as the default BINARY collation does, and keeps ties in table order, so the proved property is the order by the chosen key plus permutation, not a particular tie order.
- Server.Store.ListCustomers: `page` and `limit` are naturals of at least 1. String-to-number coercion, `parseInt`, a non-numeric value, `limit` 0 and the float `Math.ceil` are left out.
- Server.Store.ListCustomers: the query values `search`, `sort` and `order` are single strings or absent. Express's query parser can also give an array (a repeated key) or an object (a bracketed key). For such an `order`, `toUpperCase` throws and Express's default error handler answers 500, a status the model gives only for `fault`. An array `search` is spliced into the pattern as its comma-joined text. A non-string `sort` is not in the allow-list and falls back to `c.id`, as in the model.
- Server.Store.ListAddresses: the statement has no ORDER BY, so the contract states which rows are returned, not their order.
- Non-string JSON body values (numbers, booleans, objects) are not modelled; a field is a string or absent.
- Store error texts passed back in responses are not modelled. A non-UNIQUE store failure is only the `fault` input.
- AUTOINCREMENT exhausting the 64-bit rowid range is not modelled; ids are unbounded naturals.
- On the client: `setTimeout` clearing of messages, `console` output, `alert` text, `navigate`/`window.location` beyond the target path, `window.history`, and JSX rendering.
- The client's fetch is an input reply. Response bodies are taken as already decoded.
- `client/src/App.jsx` is not part of this model: it is only a routing table.
- `client/src/pages/CustomerListDetails.jsx` is not part of this model: it only renders one row.

## Findings

| source | as written | input that shows it | evidently intended | confidence | as-written member | corrected member |
|---|---|---|---|---|---|---|
| client/src/components/CustomerListPage.jsx:129 | Next is disabled only when the page equals `totalPages`. | A search that matches no customer: the server reports `totalPages` 0 (server/index.js:112), so on page 1 Next is enabled and leads to pages 2, 3, … past the last. The same happens once the page is beyond a smaller `totalPages` after the search changes. | Next enabled only while `page < totalPages`. | not executed; high for the zero-result case | CustomerList.NextEnabledPastLastPage | CustomerList.NextAllowedStaysInRange |

The page class keeps the button guard as written (`CustomerListPage.NextDisabled`). `CustomerList.NextRunsPastLastPage` replays the finding on the page class. The corrected guard `CustomerList.NextAllowed` is proved to keep the page in range in `CustomerList.NextAllowedStaysInRange`.
