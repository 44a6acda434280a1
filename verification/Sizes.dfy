/** Sizes as the Library's JSON projection carries them. */
module Sizes {
  import opened Types

  newtype int64 = x: int | -0x8000_0000_0000_0000 <= x < 0x8000_0000_0000_0000

  /** The dynamic value of a size member: int and int64, float64, json.Number, or anything else.
      A float64 is the real number it denotes; MaxInt64 rounds up to 2^63 as a float64. */
  datatype Number =
    | IntNumber(whole: int64)
    | FloatNumber(float: real)
    | NonFinite
    | Decimal(parsed: Option<int64>)
    | NotNumeric

  predicate Whole(r: real) {
    r.Floor as real == r
  }

  /** The number a dynamic value denotes, if any. */
  function Denoted(v: Number): Option<real> {
    match v
    case IntNumber(n) => Some(n as int as real)
    case FloatNumber(f) => Some(f)
    case NonFinite => None
    case Decimal(None) => None
    case Decimal(Some(n)) => Some(n as int as real)
    case NotNumeric => None
  }

  /** pipelineQuotaSize: exactly the whole numbers that fit are accepted, unchanged. */
  function QuotaSize(v: Number): (r: Option<int64>)
    ensures r.Some? <==> Denoted(v).Some? && 0.0 <= Denoted(v).value < 9223372036854775808.0 && Whole(Denoted(v).value)
    ensures r.Some? ==> 0 <= r.value && r.value as int as real == Denoted(v).value
  {
    match v
    case IntNumber(n) => if n < 0 then None else Some(n)
    case FloatNumber(f) =>
      if f < 0.0 || f >= 9223372036854775808.0 || !Whole(f) then None
      else Some(f.Floor as int64)
    case NonFinite => None
    case Decimal(None) => None
    case Decimal(Some(n)) => if n < 0 then None else Some(n)
    case NotNumeric => None
  }

  /** pipelineSizeMatches */
  predicate SizeMatches(v: Number, expected: int) {
    match v
    case IntNumber(n) => n as int == expected
    case FloatNumber(f) => f == expected as real
    case NonFinite => false
    case Decimal(None) => false
    case Decimal(Some(n)) => n as int == expected
    case NotNumeric => false
  }

  /** A size matches exactly when it denotes the expected number, in whichever dynamic form. */
  lemma SizeMatchesDenoted(v: Number, expected: int)
    ensures SizeMatches(v, expected) <==> Denoted(v) == Some(expected as real)
  {
  }

  /** The two readers of a size agree on every size a journal row can have: a row accepted as
      matching is charged exactly that size, and a value charged as that size is matching. */
  lemma SizeReadersAgree(v: Number, expected: int)
    requires 0 <= expected <= MaxStreamBytes
    ensures SizeMatches(v, expected) <==> QuotaSize(v).Some? && QuotaSize(v).value as int == expected
  {
    match v
    case FloatNumber(f) =>
      assert (expected as real).Floor == expected;
    case _ =>
  }
}
