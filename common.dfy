/** Values and JavaScript string behaviour shared by the server and the client model. */
module Common {

  datatype Option<+T> = None | Some(value: T)

  function GetOr<T>(o: Option<T>, default: T): T
  {
    match o
    case Some(v) => v
    case None => default
  }

  /** A request field as it arrives in a JSON body: `None` when the key is absent. */
  type Field = Option<string>

  /** JavaScript truthiness of a string-valued field: present and not the empty string. */
  predicate Truthy(f: Field)
  {
    f.Some? && f.value != ""
  }

  // ---------------------------------------------------------------------------
  // Regular expressions `^\d{n}$`

  /** `\d` in a JavaScript regular expression: an ASCII decimal digit, nothing else. */
  predicate IsDigit(c: char)
  {
    '0' <= c <= '9'
  }

  function AllDigits(s: string): (r: bool)
    ensures r <==> forall i :: 0 <= i < |s| ==> IsDigit(s[i])
  {
    s == [] || (IsDigit(s[0]) && AllDigits(s[1..]))
  }

  /** `/^\d{n}$/.test(s)`: without the `m` flag `$` anchors at the very end, so
      the whole string is exactly `n` digits. */
  predicate MatchesDigits(s: string, n: nat)
  {
    |s| == n && AllDigits(s)
  }

  // ---------------------------------------------------------------------------
  // String.prototype.trim

  /** The characters `trim` removes: WhiteSpace (tab, vertical tab, form feed,
      U+FEFF and every space separator) and LineTerminator. */
  predicate IsJsSpace(c: char)
  {
    || c == '\U{9}' || c == '\U{B}' || c == '\U{C}' || c == '\U{FEFF}'
    || c == ' ' || c == '\U{A0}' || c == '\U{1680}'
    || ('\U{2000}' <= c <= '\U{200A}') || c == '\U{202F}' || c == '\U{205F}' || c == '\U{3000}'
    || c == '\U{A}' || c == '\U{D}' || c == '\U{2028}' || c == '\U{2029}'
  }

  ghost predicate Blank(s: string)
  {
    forall i :: 0 <= i < |s| ==> IsJsSpace(s[i])
  }

  function TrimStart(s: string): string
  {
    if s != [] && IsJsSpace(s[0]) then TrimStart(s[1..]) else s
  }

  function TrimEnd(s: string): string
  {
    if s != [] && IsJsSpace(s[|s| - 1]) then TrimEnd(s[..|s| - 1]) else s
  }

  function Trim(s: string): string
  {
    TrimEnd(TrimStart(s))
  }

  lemma {:induction false} TrimStartBlank(s: string)
    ensures TrimStart(s) == [] <==> Blank(s)
    ensures TrimStart(s) != [] ==> !IsJsSpace(TrimStart(s)[0])
  {
    if s != [] && IsJsSpace(s[0]) {
      TrimStartBlank(s[1..]);
      if Blank(s[1..]) {
        assert Blank(s) by {
          forall i | 0 <= i < |s| ensures IsJsSpace(s[i]) {
            if i > 0 { assert s[i] == s[1..][i - 1]; }
          }
        }
      }
      if Blank(s) {
        assert Blank(s[1..]) by {
          forall i | 0 <= i < |s[1..]| ensures IsJsSpace(s[1..][i]) {
            assert s[1..][i] == s[i + 1];
          }
        }
      }
    }
  }

  lemma {:induction false} TrimEndKeepsHead(s: string)
    requires s != [] && !IsJsSpace(s[0])
    ensures TrimEnd(s) != [] && TrimEnd(s)[0] == s[0]
  {
    if IsJsSpace(s[|s| - 1]) {
      TrimEndKeepsHead(s[..|s| - 1]);
    }
  }

  /** A value that is empty or whitespace-only is falsy after `trim()`. */
  lemma TrimEmptyIffBlank(s: string)
    ensures Trim(s) == [] <==> Blank(s)
  {
    TrimStartBlank(s);
    if TrimStart(s) != [] {
      TrimEndKeepsHead(TrimStart(s));
    }
  }

  // ---------------------------------------------------------------------------
  // ASCII case mapping and substring search

  function LowerChar(c: char): char
  {
    if 'A' <= c <= 'Z' then (c as int + 32) as char else c
  }

  function UpperChar(c: char): char
  {
    if 'a' <= c <= 'z' then (c as int - 32) as char else c
  }

  function Lower(s: string): (r: string)
    ensures |r| == |s| && forall i :: 0 <= i < |s| ==> r[i] == LowerChar(s[i])
  {
    if s == [] then [] else [LowerChar(s[0])] + Lower(s[1..])
  }

  function Upper(s: string): (r: string)
    ensures |r| == |s| && forall i :: 0 <= i < |s| ==> r[i] == UpperChar(s[i])
  {
    if s == [] then [] else [UpperChar(s[0])] + Upper(s[1..])
  }

  predicate StartsWith(s: string, p: string)
  {
    |p| <= |s| && s[..|p|] == p
  }

  /** Whether `p` occurs in `s` at some position. */
  function Contains(s: string, p: string): bool
    decreases |s|
  {
    StartsWith(s, p) || (s != [] && Contains(s[1..], p))
  }

  /** `p` occurs in `s` starting at index `i`. */
  predicate OccursAt(s: string, p: string, i: int)
  {
    0 <= i <= |s| - |p| && s[i..i + |p|] == p
  }

  lemma {:induction false} ContainsIffOccurs(s: string, p: string)
    ensures Contains(s, p) <==> exists i :: OccursAt(s, p, i)
  {
    if StartsWith(s, p) {
      assert OccursAt(s, p, 0);
    } else if s == [] {
    } else {
      forall i | OccursAt(s, p, i) && i > 0 ensures OccursAt(s[1..], p, i - 1) {
        assert s[1..][i - 1..i - 1 + |p|] == s[i..i + |p|];
      }
      ContainsIffOccurs(s[1..], p);
      if Contains(s[1..], p) {
        var i :| OccursAt(s[1..], p, i);
        assert s[1..][i..i + |p|] == s[i + 1..i + 1 + |p|];
        assert OccursAt(s, p, i + 1);
      }
    }
  }

  // ---------------------------------------------------------------------------
  // `list.filter(x => x.id !== id)` on the client

  function RemoveById<T>(rows: seq<T>, idOf: T -> nat, id: nat): seq<T>
  {
    if rows == [] then []
    else (if idOf(rows[0]) != id then [rows[0]] else []) + RemoveById(rows[1..], idOf, id)
  }

  /** A row is kept exactly when its id differs. */
  lemma {:induction false} RemoveByIdMember<T>(rows: seq<T>, idOf: T -> nat, id: nat, x: T)
    ensures x in RemoveById(rows, idOf, id) <==> x in rows && idOf(x) != id
  {
    if rows != [] {
      RemoveByIdMember(rows[1..], idOf, id, x);
      assert rows == [rows[0]] + rows[1..];
    }
  }

  /** Filtering works piecewise, so the kept rows stay in their original order. */
  lemma {:induction false} RemoveByIdAppend<T>(a: seq<T>, b: seq<T>, idOf: T -> nat, id: nat)
    ensures RemoveById(a + b, idOf, id) == RemoveById(a, idOf, id) + RemoveById(b, idOf, id)
  {
    if a != [] {
      assert (a + b)[1..] == a[1..] + b;
      RemoveByIdAppend(a[1..], b, idOf, id);
    } else {
      assert a + b == b;
    }
  }

  /** When no row carries the id, the list is left exactly as it was. */
  lemma {:induction false} RemoveByIdAbsent<T>(rows: seq<T>, idOf: T -> nat, id: nat)
    ensures (forall i :: 0 <= i < |rows| ==> idOf(rows[i]) != id) ==> RemoveById(rows, idOf, id) == rows
  {
    if rows != [] && forall i :: 0 <= i < |rows| ==> idOf(rows[i]) != id {
      assert forall i :: 0 <= i < |rows[1..]| ==> idOf(rows[1..][i]) != id by {
        forall i | 0 <= i < |rows[1..]| ensures idOf(rows[1..][i]) != id {
          assert rows[1..][i] == rows[i + 1];
        }
      }
      RemoveByIdAbsent(rows[1..], idOf, id);
      assert rows == [rows[0]] + rows[1..];
    }
  }

  // ---------------------------------------------------------------------------
  // Error objects of the forms

  /** `if (message) newErrors[key] = message`. */
  function Put<K>(m: map<K, string>, key: K, message: Option<string>): map<K, string>
  {
    if message.Some? then m[key := message.value] else m
  }

  // ---------------------------------------------------------------------------
  // Numbers spliced into URLs by template literals

  function DigitChar(d: nat): (c: char)
    requires d < 10
    ensures IsDigit(c) && c as int - '0' as int == d
  {
    ('0' as int + d) as char
  }

  /** The whole number a string of decimal digits denotes, most significant first. */
  function DigitsValue(s: string): nat
    requires AllDigits(s)
  {
    if s == [] then 0 else DigitsValue(s[..|s| - 1]) * 10 + (s[|s| - 1] as int - '0' as int)
  }

  /** `${n}` for a whole number: its decimal digits, no sign, no leading zero,
      denoting `n` again. */
  function NatText(n: nat): (r: string)
    ensures r != [] && AllDigits(r)
    ensures |r| > 1 ==> r[0] != '0'
    ensures DigitsValue(r) == n
  {
    if n < 10 then [DigitChar(n)]
    else
      var r := NatText(n / 10) + [DigitChar(n % 10)];
      assert r[..|r| - 1] == NatText(n / 10);
      r
  }

  /** `${x}` for an id that may be `null`. */
  function IdText(id: Option<nat>): string
  {
    match id
    case Some(n) => NatText(n)
    case None => "null"
  }

  /** `${p}` for a route parameter that may be `undefined`. */
  function ParamText(p: Option<string>): string
  {
    match p
    case Some(s) => s
    case None => "undefined"
  }

  // ---------------------------------------------------------------------------
  // Requests the client issues (paths without the fixed backend host)

  datatype Method = GET | POST | PUT | DELETE

  datatype Request = Request(verb: Method, path: string)

  /** The outcome of an awaited `fetch`: an ok response carrying its `data`, or
      anything else (non-2xx status, network error, unreadable body). */
  datatype Reply<+T> = Ok(data: T) | NotOk(message: string)
}
