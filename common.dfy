/** Values shared by every part of the model: optional and failing results,
    JavaScript truthiness, route replies, the store's row filter and the
    decimal rendering of integers that template strings perform. */
module Common {

  datatype Option<+T> = None | Some(value: T)

  datatype Result<+T, +E> = Ok(value: T) | Err(error: E)

  /** JavaScript truthiness of an optional string field: `undefined`, `null`
      and `""` are falsy, every other string (including `"0"`) is truthy. */
  predicate Truthy(s: Option<string>) {
    s.Some? && s.value != ""
  }

  /** A JavaScript number that is integer-valued or NaN, as `parseInt` yields. */
  datatype JsInt = Int(i: int) | NaN

  /** What a route handler answers: a JSON body with status 200, or an error
      object `{ error }` with a non-200 status. */
  datatype Reply<+T> = Json(body: T) | Fail(status: int, error: string)

  /** The outcome the database server chooses for one store call: the call
      goes through, or it fails with a PostgREST error code (a lost
      connection, a violated constraint, ...). */
  datatype Link = Up | Down(code: string)

  /** The rows of `rows` that `keep` accepts, in their original order
      (PostgREST `.eq(column, value)`). Every accepted row keeps its
      multiplicity, every rejected row is gone. */
  function Where<T(!new)>(rows: seq<T>, keep: T -> bool): (r: seq<T>)
    ensures |r| <= |rows|
    ensures forall x :: multiset(r)[x] == if keep(x) then multiset(rows)[x] else 0
    ensures forall i :: 0 <= i < |r| ==> keep(r[i]) && r[i] in rows
  {
    if rows == [] then []
    else
      assert rows == [rows[0]] + rows[1..];
      (if keep(rows[0]) then [rows[0]] else []) + Where(rows[1..], keep)
  }

  /** A filter every row passes returns the rows unchanged. */
  lemma {:induction false} WhereKeepsAll<T(!new)>(rows: seq<T>, keep: T -> bool)
    requires forall i :: 0 <= i < |rows| ==> keep(rows[i])
    ensures Where(rows, keep) == rows
  {
    if rows != [] {
      WhereKeepsAll(rows[1..], keep);
    }
  }

  predicate IsDigit(c: char) {
    '0' <= c <= '9'
  }

  function DigitChar(d: nat): (c: char)
    requires d < 10
    ensures IsDigit(c) && c as int - '0' as int == d
  {
    (d + '0' as int) as char
  }

  /** The decimal digits of `n` without leading zeros, as JavaScript prints
      a non-negative integer below 10^21 (from there on it switches to
      exponent form, which this model does not write). */
  function NatToString(n: nat): (s: string)
    ensures |s| >= 1
    ensures forall i :: 0 <= i < |s| ==> IsDigit(s[i])
    ensures s[0] == '0' ==> n == 0
  {
    if n < 10 then [DigitChar(n)] else NatToString(n / 10) + [DigitChar(n % 10)]
  }

  /** The number a string of decimal digits denotes. */
  function DecimalValue(s: string): nat
    requires forall i :: 0 <= i < |s| ==> IsDigit(s[i])
  {
    if s == [] then 0
    else
      assert IsDigit(s[|s| - 1]);
      DecimalValue(s[..|s| - 1]) * 10 + (s[|s| - 1] as int - '0' as int)
  }

  /** Printing then reading back a natural gives the natural again. */
  lemma {:induction false} NatToStringRoundTrip(n: nat)
    ensures DecimalValue(NatToString(n)) == n
  {
    if n >= 10 {
      NatToStringRoundTrip(n / 10);
      var s := NatToString(n);
      assert s[..|s| - 1] == NatToString(n / 10);
    }
  }

  /** `${i}` for an integer of magnitude below 10^21: a minus sign before
      the digits of a negative one. */
  function IntToString(i: int): (s: string)
    ensures i >= 0 ==> s == NatToString(i)
    ensures i < 0 ==> s == "-" + NatToString(-i)
  {
    if i < 0 then "-" + NatToString(-i) else NatToString(i)
  }

  /** `${x}` for an integer-valued number or NaN. */
  function JsIntToString(x: JsInt): string {
    match x
    case Int(i) => IntToString(i)
    case NaN => "NaN"
  }

  /** `1000 * 60 * 60 * 24`: one day in milliseconds. */
  const MillisPerDay: int := 1000 * 60 * 60 * 24

  /** A guarded average: zero when there is nothing to divide by. */
  function Average(total: real, n: nat): (avg: real)
    ensures n > 0 ==> avg * n as real == total
    ensures n == 0 ==> avg == 0.0
  {
    if n > 0 then total / n as real else 0.0
  }

  function Min(a: int, b: int): int {
    if a <= b then a else b
  }
}
