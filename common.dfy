/** Shared vocabulary of the dashboard server: optional values, HTTP-style
    responses, the abstract clock and money, and JavaScript's `String(n)`
    on the non-negative integer ids Shopify hands out. */
module Common {

  datatype Option<+T> = None | Some(value: T)

  /** A calendar day (the `YYYY-MM-DD` part of a UTC timestamp) as a day number. */
  type Day = int

  /** An amount of money in cents. */
  type Money = int

  /** Primary key of a tenant (a string in the HTTP requests). */
  type TenantId = string

  /** Primary key the database assigns to a synced row. */
  type RowId = nat

  /** What a handler sends back: a JSON body with a success status, or an
      `{ error: message }` body with an error status. */
  datatype Response<+T> = Ok(status: nat, value: T) | Error(status: nat, message: string)

  /** JavaScript truthiness of an optional string: `undefined`/`null` and `""` are falsy. */
  predicate Truthy(o: Option<string>)
    ensures Truthy(o) <==> o.Some? && |o.value| > 0
  {
    o.Some? && o.value != ""
  }

  function DigitChar(d: nat): (c: char)
    requires d < 10
    ensures '0' <= c <= '9'
    ensures c as int - '0' as int == d
  {
    ('0' as int + d) as char
  }

  /** `String(n)` for a non-negative integer: its decimal digits, most significant first. */
  function NatToString(n: nat): (s: string)
    ensures 1 <= |s|
    ensures n < 10 <==> |s| == 1
    ensures forall i :: 0 <= i < |s| ==> '0' <= s[i] <= '9'
    decreases n
  {
    if n < 10 then [DigitChar(n)] else NatToString(n / 10) + [DigitChar(n % 10)]
  }

  /** Distinct numeric ids give distinct strings, so keying rows by `String(id)`
      identifies exactly the records that share a numeric id. */
  lemma {:induction false} NatToStringInjective(a: nat, b: nat)
    requires NatToString(a) == NatToString(b)
    ensures a == b
  {
    if a < 10 && b < 10 {
      assert NatToString(a)[0] == DigitChar(a);
      assert NatToString(b)[0] == DigitChar(b);
    } else if 10 <= a && 10 <= b {
      var sa, sb := NatToString(a), NatToString(b);
      assert sa[|sa| - 1] == DigitChar(a % 10);
      assert sb[|sb| - 1] == DigitChar(b % 10);
      assert sa[..|sa| - 1] == NatToString(a / 10);
      assert sb[..|sb| - 1] == NatToString(b / 10);
      NatToStringInjective(a / 10, b / 10);
    }
  }
}
