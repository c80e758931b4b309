/** The two tables of the store and the part of SQLite's query semantics that the
    customer listing relies on: `LIKE '%term%'`, `DISTINCT` over a `LEFT JOIN`,
    `ORDER BY`, `LIMIT ? OFFSET ?` and the matching `COUNT(DISTINCT c.id)`. */
module Sql {
  import opened Common

  datatype Customer = Customer(id: nat, first_name: string, last_name: string, phone_number: string)

  datatype Address = Address(
    id: nat,
    customer_id: nat,
    address_details: string,
    city: string,
    state: string,
    pin_code: string)

  function CustomerId(c: Customer): nat { c.id }
  function PhoneOf(c: Customer): string { c.phone_number }
  function AddressId(a: Address): nat { a.id }

  /** No two rows share a key: how PRIMARY KEY and UNIQUE columns constrain a table. */
  ghost predicate UniqueBy<T, K>(rows: seq<T>, key: T -> K)
  {
    forall i, j :: 0 <= i < j < |rows| ==> key(rows[i]) != key(rows[j])
  }

  /** `SELECT * FROM t WHERE id = ?` on a table whose id is the primary key. */
  function FindById<T>(rows: seq<T>, idOf: T -> nat, id: nat): (r: Option<T>)
    ensures r.Some? ==> r.value in rows && idOf(r.value) == id
    ensures r.None? <==> forall i :: 0 <= i < |rows| ==> idOf(rows[i]) != id
  {
    if rows == [] then None
    else if idOf(rows[0]) == id then Some(rows[0])
    else FindById(rows[1..], idOf, id)
  }

  /** A row appended with an id that no row had before is what a lookup of that id finds. */
  lemma {:induction false} FindAppended<T>(rows: seq<T>, idOf: T -> nat, row: T)
    requires forall i :: 0 <= i < |rows| ==> idOf(rows[i]) != idOf(row)
    ensures FindById(rows + [row], idOf, idOf(row)) == Some(row)
  {
    if rows == [] {
      assert rows + [row] == [row];
    } else {
      assert (rows + [row])[1..] == rows[1..] + [row];
      FindAppended(rows[1..], idOf, row);
    }
  }

  /** Deleting rows (a filter on the id) keeps every UNIQUE column unique. */
  lemma {:induction false} RemoveKeepsUnique<T, K>(rows: seq<T>, idOf: T -> nat, id: nat, key: T -> K)
    requires UniqueBy(rows, key)
    ensures UniqueBy(RemoveById(rows, idOf, id), key)
  {
    if rows != [] {
      var rest := RemoveById(rows[1..], idOf, id);
      assert UniqueBy(rows[1..], key) by {
        forall i, j | 0 <= i < j < |rows[1..]| ensures key(rows[1..][i]) != key(rows[1..][j]) {
          assert rows[1..][i] == rows[i + 1] && rows[1..][j] == rows[j + 1];
        }
      }
      RemoveKeepsUnique(rows[1..], idOf, id, key);
      if idOf(rows[0]) != id {
        var r := [rows[0]] + rest;
        forall j | 0 < j < |r| ensures key(r[0]) != key(r[j]) {
          assert r[j] in rest;
          RemoveByIdMember(rows[1..], idOf, id, r[j]);
          var k :| 0 <= k < |rows[1..]| && rows[1..][k] == r[j];
          assert rows[k + 1] == r[j];
        }
        forall i, j | 0 < i < j < |r| ensures key(r[i]) != key(r[j]) {
          assert r[i] == rest[i - 1] && r[j] == rest[j - 1];
        }
      }
    }
  }

  // ---------------------------------------------------------------------------
  // The WHERE clause of the listing statement

  /** `text LIKE '%term%'` with SQLite's default ASCII case folding. */
  predicate Like(text: string, term: string)
  {
    Contains(Lower(text), Lower(term))
  }

  predicate AddressMatches(a: Address, term: string)
  {
    Like(a.city, term) || Like(a.state, term) || Like(a.pin_code, term)
  }

  /** Some joined row of `c LEFT JOIN a ON c.id = a.customer_id` passes the WHERE
      clause; a customer without addresses joins one row of NULLs, which only the
      name columns can match. */
  predicate CustomerMatches(c: Customer, addresses: seq<Address>, term: string)
  {
    || Like(c.first_name, term)
    || Like(c.last_name, term)
    || exists j :: 0 <= j < |addresses| && addresses[j].customer_id == c.id && AddressMatches(addresses[j], term)
  }

  /** `SELECT DISTINCT c.*` with the optional WHERE clause (`None`: no clause), in
      table order: a customer row is kept once, however many joined rows pass. */
  function Matching(customers: seq<Customer>, addresses: seq<Address>, search: Option<string>): (r: seq<Customer>)
    ensures |r| <= |customers|
    ensures forall c :: c in r <==> c in customers && (search.None? || CustomerMatches(c, addresses, search.value))
  {
    if customers == [] then []
    else
      var c := customers[0];
      assert customers == [c] + customers[1..];
      (if search.None? || CustomerMatches(c, addresses, search.value) then [c] else [])
      + Matching(customers[1..], addresses, search)
  }

  /** Without a WHERE clause every customer is listed, in table order. */
  lemma {:induction false} MatchingUnfiltered(customers: seq<Customer>, addresses: seq<Address>)
    ensures Matching(customers, addresses, None) == customers
  {
    if customers != [] {
      MatchingUnfiltered(customers[1..], addresses);
      assert customers == [customers[0]] + customers[1..];
    }
  }

  /** DISTINCT: since ids are unique in the table, no customer is listed twice. */
  lemma {:induction false} MatchingDistinct(customers: seq<Customer>, addresses: seq<Address>, search: Option<string>)
    requires UniqueBy(customers, CustomerId)
    ensures UniqueBy(Matching(customers, addresses, search), CustomerId)
  {
    if customers != [] {
      var c := customers[0];
      var rest := Matching(customers[1..], addresses, search);
      assert UniqueBy(customers[1..], CustomerId) by {
        forall i, j | 0 <= i < j < |customers[1..]| ensures customers[1..][i].id != customers[1..][j].id {
          assert customers[1..][i] == customers[i + 1] && customers[1..][j] == customers[j + 1];
        }
      }
      MatchingDistinct(customers[1..], addresses, search);
      if search.None? || CustomerMatches(c, addresses, search.value) {
        var r := [c] + rest;
        forall i, j | 0 <= i < j < |r| ensures r[i].id != r[j].id {
          if i == 0 {
            assert r[j] == rest[j - 1] && rest[j - 1] in customers[1..];
            var k :| 0 <= k < |customers[1..]| && customers[1..][k] == r[j];
            assert customers[k + 1] == r[j];
          } else {
            assert r[i] == rest[i - 1] && r[j] == rest[j - 1];
          }
        }
      }
    }
  }

  // ---------------------------------------------------------------------------
  // ORDER BY

  datatype SortColumn = ById | ByFirstName | ByLastName

  datatype Direction = Asc | Desc

  /** The column as it is spliced into `ORDER BY`. */
  function ColumnName(column: SortColumn): string
  {
    match column
    case ById => "c.id"
    case ByFirstName => "c.first_name"
    case ByLastName => "c.last_name"
  }

  const AllowedSortColumns: seq<string> := ["c.id", "c.first_name", "c.last_name"]

  /** The sanitised sort column. */
  function SafeSort(sort: string): SortColumn
  {
    if sort == "c.first_name" then ByFirstName
    else if sort == "c.last_name" then ByLastName
    else ById
  }

  /** `allowedSortColumns.includes(sort) ? sort : 'c.id'`: an allowed column is used
      as given, anything else falls back to `c.id`, and what reaches the statement
      is always one of the three allowed columns. */
  lemma SafeSortAllowList(sort: string)
    ensures ColumnName(SafeSort(sort)) == if sort in AllowedSortColumns then sort else "c.id"
    ensures ColumnName(SafeSort(sort)) in AllowedSortColumns
  {
    if sort !in AllowedSortColumns {
      assert sort != AllowedSortColumns[1] && sort != AllowedSortColumns[2];
    }
  }

  /** The sanitised direction: `order.toUpperCase() === 'DESC' ? 'DESC' : 'ASC'`. */
  function SafeOrder(order: string): Direction
  {
    if Upper(order) == "DESC" then Desc else Asc
  }

  /** DESC is chosen exactly for the four letters d, e, s, c in any mix of cases. */
  lemma SafeOrderDesc(order: string)
    ensures SafeOrder(order) == Desc <==>
      && |order| == 4
      && (order[0] == 'd' || order[0] == 'D')
      && (order[1] == 'e' || order[1] == 'E')
      && (order[2] == 's' || order[2] == 'S')
      && (order[3] == 'c' || order[3] == 'C')
  {
    var u := Upper(order);
    if |order| == 4 && u == "DESC" {
      assert u[0] == 'D' && u[1] == 'E' && u[2] == 'S' && u[3] == 'C';
    }
  }

  /** BINARY collation on text: code point by code point, a proper prefix first. */
  predicate TextLe(a: string, b: string)
  {
    a == [] || (b != [] && (a[0] < b[0] || (a[0] == b[0] && TextLe(a[1..], b[1..]))))
  }

  lemma {:induction false} TextLeTotal(a: string, b: string)
    ensures TextLe(a, b) || TextLe(b, a)
  {
    if a != [] && b != [] && a[0] == b[0] {
      TextLeTotal(a[1..], b[1..]);
    }
  }

  predicate KeyLe(x: Customer, y: Customer, column: SortColumn)
  {
    match column
    case ById => x.id <= y.id
    case ByFirstName => TextLe(x.first_name, y.first_name)
    case ByLastName => TextLe(x.last_name, y.last_name)
  }

  /** `x` may precede `y` under `ORDER BY column direction`. */
  predicate InOrder(x: Customer, y: Customer, column: SortColumn, direction: Direction)
  {
    if direction == Asc then KeyLe(x, y, column) else KeyLe(y, x, column)
  }

  lemma InOrderTotal(x: Customer, y: Customer, column: SortColumn, direction: Direction)
    ensures InOrder(x, y, column, direction) || InOrder(y, x, column, direction)
  {
    match column
    case ById =>
    case ByFirstName => TextLeTotal(x.first_name, y.first_name);
    case ByLastName => TextLeTotal(x.last_name, y.last_name);
  }

  ghost predicate Ordered(rows: seq<Customer>, column: SortColumn, direction: Direction)
  {
    forall i :: 0 < i < |rows| ==> InOrder(rows[i - 1], rows[i], column, direction)
  }

  function Insert(x: Customer, rows: seq<Customer>, column: SortColumn, direction: Direction): seq<Customer>
  {
    if rows == [] || InOrder(x, rows[0], column, direction) then [x] + rows
    else [rows[0]] + Insert(x, rows[1..], column, direction)
  }

  /** The engine's sort, stable on ties (SQLite leaves the order of ties open). */
  function SortRows(rows: seq<Customer>, column: SortColumn, direction: Direction): seq<Customer>
  {
    if rows == [] then [] else Insert(rows[0], SortRows(rows[1..], column, direction), column, direction)
  }

  lemma {:induction false} InsertPermutes(x: Customer, rows: seq<Customer>, column: SortColumn, direction: Direction)
    ensures multiset(Insert(x, rows, column, direction)) == multiset(rows) + multiset{x}
    ensures Insert(x, rows, column, direction)[0] == x || (rows != [] && Insert(x, rows, column, direction)[0] == rows[0])
  {
    if !(rows == [] || InOrder(x, rows[0], column, direction)) {
      InsertPermutes(x, rows[1..], column, direction);
      assert rows == [rows[0]] + rows[1..];
    }
  }

  lemma {:induction false} InsertOrdered(x: Customer, rows: seq<Customer>, column: SortColumn, direction: Direction)
    requires Ordered(rows, column, direction)
    ensures Ordered(Insert(x, rows, column, direction), column, direction)
  {
    if !(rows == [] || InOrder(x, rows[0], column, direction)) {
      InOrderTotal(x, rows[0], column, direction);
      InsertOrdered(x, rows[1..], column, direction);
      InsertPermutes(x, rows[1..], column, direction);
      var tail := Insert(x, rows[1..], column, direction);
      var r := [rows[0]] + tail;
      forall i | 0 < i < |r| ensures InOrder(r[i - 1], r[i], column, direction) {
        if i > 1 {
          assert r[i - 1] == tail[i - 2] && r[i] == tail[i - 1];
        }
      }
    }
  }

  lemma {:induction false} InsertKeepsIdsUnique(x: Customer, rows: seq<Customer>, column: SortColumn, direction: Direction)
    requires UniqueBy(rows, CustomerId)
    requires forall c :: c in rows ==> c.id != x.id
    ensures UniqueBy(Insert(x, rows, column, direction), CustomerId)
  {
    if rows == [] || InOrder(x, rows[0], column, direction) {
      var r := [x] + rows;
      forall i, j | 0 <= i < j < |r| ensures r[i].id != r[j].id {
        assert r[j] == rows[j - 1] && rows[j - 1] in rows;
        if i > 0 { assert r[i] == rows[i - 1]; }
      }
    } else {
      assert UniqueBy(rows[1..], CustomerId) by {
        forall i, j | 0 <= i < j < |rows[1..]| ensures rows[1..][i].id != rows[1..][j].id {
          assert rows[1..][i] == rows[i + 1] && rows[1..][j] == rows[j + 1];
        }
      }
      InsertKeepsIdsUnique(x, rows[1..], column, direction);
      InsertPermutes(x, rows[1..], column, direction);
      var tail := Insert(x, rows[1..], column, direction);
      var r := [rows[0]] + tail;
      forall i, j | 0 <= i < j < |r| ensures r[i].id != r[j].id {
        if i == 0 {
          assert r[j] == tail[j - 1];
          assert tail[j - 1] in multiset(tail);
          if tail[j - 1] != x {
            assert tail[j - 1] in multiset(rows[1..]);
            var k :| 0 <= k < |rows[1..]| && rows[1..][k] == tail[j - 1];
            assert rows[k + 1] == tail[j - 1];
          }
        } else {
          assert r[i] == tail[i - 1] && r[j] == tail[j - 1];
        }
      }
    }
  }

  /** ORDER BY returns the same rows, ordered by the chosen key. */
  lemma {:induction false} SortRowsCorrect(rows: seq<Customer>, column: SortColumn, direction: Direction)
    ensures multiset(SortRows(rows, column, direction)) == multiset(rows)
    ensures Ordered(SortRows(rows, column, direction), column, direction)
  {
    if rows != [] {
      SortRowsCorrect(rows[1..], column, direction);
      InsertPermutes(rows[0], SortRows(rows[1..], column, direction), column, direction);
      InsertOrdered(rows[0], SortRows(rows[1..], column, direction), column, direction);
      assert rows == [rows[0]] + rows[1..];
    }
  }

  /** ORDER BY lists each customer at most once when the input does. */
  lemma {:induction false} SortRowsKeepsIdsUnique(rows: seq<Customer>, column: SortColumn, direction: Direction)
    requires UniqueBy(rows, CustomerId)
    ensures UniqueBy(SortRows(rows, column, direction), CustomerId)
  {
    if rows != [] {
      assert UniqueBy(rows[1..], CustomerId) by {
        forall i, j | 0 <= i < j < |rows[1..]| ensures rows[1..][i].id != rows[1..][j].id {
          assert rows[1..][i] == rows[i + 1] && rows[1..][j] == rows[j + 1];
        }
      }
      SortRowsKeepsIdsUnique(rows[1..], column, direction);
      SortRowsCorrect(rows[1..], column, direction);
      var sorted := SortRows(rows[1..], column, direction);
      forall c | c in sorted ensures c.id != rows[0].id {
        assert c in multiset(rows[1..]);
        var k :| 0 <= k < |rows[1..]| && rows[1..][k] == c;
        assert rows[k + 1] == c;
      }
      InsertKeepsIdsUnique(rows[0], sorted, column, direction);
    }
  }

  // ---------------------------------------------------------------------------
  // LIMIT ? OFFSET ? and the page count

  /** `LIMIT limit OFFSET offset` over the ordered result. */
  function Window<T>(rows: seq<T>, offset: nat, limit: nat): (r: seq<T>)
    ensures |r| <= limit
    ensures offset + limit <= |rows| ==> |r| == limit
    ensures offset < |rows| < offset + limit ==> |r| == |rows| - offset
    ensures forall k :: 0 <= k < |r| ==> offset + k < |rows| && r[k] == rows[offset + k]
  {
    if offset >= |rows| then []
    else if offset + limit <= |rows| then rows[offset..offset + limit]
    else rows[offset..]
  }

  /** `(page - 1) * limit`: the rows before page `page`. */
  function PageOffset(page: nat, limit: nat): nat
    requires page >= 1
  {
    (page - 1) * limit
  }

  /** `Math.ceil(total / limit)` for a whole number of rows and a positive limit:
      the fewest pages of `limit` rows that hold `total` rows. */
  function CeilDiv(total: nat, limit: nat): (r: nat)
    requires limit > 0
    ensures r * limit >= total
    ensures r == 0 || (r - 1) * limit < total
  {
    (total + limit - 1) / limit
  }

  /** If `p` pages of `limit` rows hold fewer than `total` rows, the page count
      is larger than `p`. */
  lemma PagesBeyond(total: nat, limit: nat, p: nat)
    requires limit > 0 && p * limit < total
    ensures p < CeilDiv(total, limit)
  {
    var q := CeilDiv(total, limit);
    assert p * limit < q * limit;
    CancelFactor(p, q, limit);
  }

  lemma CancelFactor(a: nat, b: nat, c: nat)
    requires c > 0 && a * c < b * c
    ensures a < b
  {
  }

  /** Every listed row is on exactly the page its position says, and that page
      number is between 1 and `totalPages`. */
  lemma RowOnPage<T>(rows: seq<T>, limit: nat, i: nat)
    requires limit > 0 && i < |rows|
    ensures 1 <= i / limit + 1 <= CeilDiv(|rows|, limit)
    ensures rows[i] in Window(rows, (i / limit) * limit, limit)
  {
    var p := i / limit;
    var offset := p * limit;
    assert i == offset + i % limit;
    PagesBeyond(|rows|, limit, p);
    var w := Window(rows, offset, limit);
    assert i - offset < |w|;
    assert w[i - offset] == rows[i];
  }

  /** A page of the listing: each row matches, none repeats, and the page is in
      the order the statement asks for. */
  lemma PageOfMatches(
    customers: seq<Customer>, addresses: seq<Address>, search: Option<string>,
    column: SortColumn, direction: Direction, offset: nat, limit: nat)
    requires UniqueBy(customers, CustomerId)
    ensures var matching := Matching(customers, addresses, search);
      var page := Window(SortRows(matching, column, direction), offset, limit);
      && Ordered(page, column, direction)
      && UniqueBy(page, CustomerId)
      && (forall c :: c in page ==> c in matching)
  {
    var matching := Matching(customers, addresses, search);
    var sorted := SortRows(matching, column, direction);
    var page := Window(sorted, offset, limit);
    SortRowsCorrect(matching, column, direction);
    MatchingDistinct(customers, addresses, search);
    SortRowsKeepsIdsUnique(matching, column, direction);
    forall c | c in page ensures c in matching {
      WindowWithin(sorted, offset, limit, c);
      assert c in multiset(sorted);
    }
  }

  lemma WindowWithin<T>(rows: seq<T>, offset: nat, limit: nat, x: T)
    requires x in Window(rows, offset, limit)
    ensures x in rows
  {
    var w := Window(rows, offset, limit);
    var k :| 0 <= k < |w| && w[k] == x;
    assert rows[offset + k] == x;
  }

  // ---------------------------------------------------------------------------
  // The two listing statements and their bound parameters

  /** A bound parameter: the term of a `%term%` pattern, or an integer. */
  datatype SqlParam = Pattern(term: string) | Number(n: int)

  /** The number of `LIKE ?` placeholders in the WHERE clause: first name, last
      name, city, state and pin code. */
  const SearchSlots: nat := 5

  /** `params` fills the placeholders of a listing statement: the five search
      patterns (one term) when there is a WHERE clause, followed, for the row
      statement (`paged`), by the LIMIT and the OFFSET. */
  predicate Binds(filtered: bool, params: seq<SqlParam>, paged: bool)
  {
    var slots := if filtered then SearchSlots else 0;
    && |params| == slots + (if paged then 2 else 0)
    && (forall i :: 0 <= i < slots ==> params[i].Pattern? && params[i] == params[0])
    && (paged ==> params[slots].Number? && params[slots].n >= 0)
    && (paged ==> params[slots + 1].Number? && params[slots + 1].n >= 0)
  }

  function SearchOf(filtered: bool, params: seq<SqlParam>): Option<string>
    requires filtered ==> |params| > 0 && params[0].Pattern?
  {
    if filtered then Some(params[0].term) else None
  }

  /** `SELECT DISTINCT c.* FROM customers c LEFT JOIN addresses a ... [WHERE ...]
      ORDER BY column direction LIMIT ? OFFSET ?`. */
  function RunSelect(
    filtered: bool, column: SortColumn, direction: Direction, params: seq<SqlParam>,
    customers: seq<Customer>, addresses: seq<Address>): seq<Customer>
    requires Binds(filtered, params, true)
  {
    var limit := params[|params| - 2].n;
    var offset := params[|params| - 1].n;
    Window(SortRows(Matching(customers, addresses, SearchOf(filtered, params)), column, direction), offset, limit)
  }

  /** `SELECT COUNT(DISTINCT c.id) ... [WHERE ...]`: ids are the primary key, so
      this is the number of distinct matching rows. */
  function RunCount(filtered: bool, params: seq<SqlParam>, customers: seq<Customer>, addresses: seq<Address>): nat
    requires Binds(filtered, params, false)
  {
    |Matching(customers, addresses, SearchOf(filtered, params))|
  }
}
