/**
 * Values shared by every service of the storage system: bytes, optional
 * request fields, handler outcomes with their HTTP status, Python
 * truthiness of text fields, the owner rule used by every delete, and the
 * decimal rendering of integers used to build names.
 */
module Common {

  type Byte = bv8
  type Bytes = seq<Byte>

  /** An optional value; for request fields, None is a field or header that was not sent. */
  datatype Option<+T> = None | Some(value: T) {
    /** Python's `d.get(k, default)`. */
    function GetOr(default: T): T {
      match this
      case Some(v) => v
      case None => default
    }
  }

  /**
   * A JSON body key where the difference between a missing key and an
   * explicit null decides behaviour: Python's `d.get(k, default)` gives
   * the default only for a missing key and None for a null.
   */
  datatype JsonField<+T> = Absent | Null | Present(value: T) {
    /** Python's `d.get(k, default)`: None stands for the null it returns. */
    function Get(default: T): (r: Option<T>)
      ensures r.None? <==> this.Null?
      ensures this.Absent? ==> r == Some(default)
      ensures this.Present? ==> r == Some(this.value)
    {
      match this
      case Absent => Some(default)
      case Null => None
      case Present(v) => Some(v)
    }
  }

  /** What a route handler answers: a body with status 200, or an error status. */
  datatype Outcome<+T> = Ok(value: T) | Fail(status: int)

  const StatusBadRequest := 400
  const StatusForbidden := 403
  const StatusNotFound := 404
  const StatusServerError := 500
  const StatusUnavailable := 503
  const StatusInsufficientStorage := 507

  /** Bytes in one mebibyte: the `1024 * 1024` every MB figure is divided by. */
  const MiB := 1048576

  /** The owner that every service treats as public. */
  const Anonymous := "anonymous"

  /** Python truthiness of an optional text value: absent and empty are both false. */
  predicate Given(s: Option<string>) {
    s.Some? && s.value != ""
  }

  /**
   * The delete rule shared by the node's open pool, the coordinator's
   * catalog and both clients: a record owned by "anonymous" may be deleted by
   * anyone, any other record only by a caller whose X-Owner equals the stored
   * owner (a missing header compares equal only to a missing owner).
   */
  predicate OwnerMayDelete(stored: Option<string>, claimed: Option<string>) {
    stored == Some(Anonymous) || stored == claimed
  }

  function DigitChar(d: nat): (c: char)
    requires d < 10
    ensures '0' <= c <= '9'
    ensures c as int - '0' as int == d
  {
    ('0' as int + d) as char
  }

  /** The number a string of decimal digits denotes, read most significant first. */
  function DigitsValue(s: string): int {
    if |s| == 0 then 0 else DigitsValue(s[..|s| - 1]) * 10 + (s[|s| - 1] as int - '0' as int)
  }

  /** Python's `int` of a decimal string with an optional leading '-'. */
  function ParseDecimal(s: string): int {
    if |s| > 0 && s[0] == '-' then -DigitsValue(s[1..]) else DigitsValue(s)
  }

  /** The decimal digits of n, most significant first (Python's `str` of a non-negative int). */
  function NatDigits(n: nat): (s: string)
    ensures |s| >= 1
    ensures forall i :: 0 <= i < |s| ==> '0' <= s[i] <= '9'
    decreases n
  {
    if n < 10 then [DigitChar(n)] else NatDigits(n / 10) + [DigitChar(n % 10)]
  }

  /** Python's `str` of an int: a leading '-' only for negative values. */
  function Decimal(n: int): (s: string)
    ensures |s| >= 1
    ensures forall i :: 0 < i < |s| ==> '0' <= s[i] <= '9'
    ensures s[0] == '-' <==> n < 0
  {
    if n < 0 then "-" + NatDigits(-n) else NatDigits(n)
  }

  /** The digits of n denote n. */
  lemma {:induction false} NatDigitsValue(n: nat)
    ensures DigitsValue(NatDigits(n)) == n
    decreases n
  {
    if n >= 10 {
      NatDigitsValue(n / 10);
      var s := NatDigits(n);
      assert s[..|s| - 1] == NatDigits(n / 10);
    }
  }

  /** Reading the text back gives n, so distinct numbers render distinct names. */
  lemma DecimalRoundTrip(n: int)
    ensures ParseDecimal(Decimal(n)) == n
  {
    if n < 0 {
      NatDigitsValue(-n);
      assert Decimal(n)[1..] == NatDigits(-n);
    } else {
      NatDigitsValue(n);
    }
  }

  /** Decimal is injective. */
  lemma DecimalInjective(m: int, n: int)
    requires Decimal(m) == Decimal(n)
    ensures m == n
  {
    DecimalRoundTrip(m);
    DecimalRoundTrip(n);
  }
}
