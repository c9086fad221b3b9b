/** The saturating quota conversions of common/quota_math.go, over the reals with NaN and the infinities. */
module QuotaMath {
  import opened Base

  const MaxQuota: int := 0x7FFF_FFFF
  const MinQuota: int := -0x8000_0000

  datatype Num = NaN | NegInf | Fin(x: real) | PosInf

  datatype Clamp = Overflow | Underflow | NotANumber

  /** The conversion of a Go float to int: toward zero. */
  function Trunc(x: real): int { if x >= 0.0 then x.Floor else -(-x).Floor }

  /** math.Round: half away from zero. */
  function RoundReal(x: real): int { if x >= 0.0 then (x + 0.5).Floor else -(-x + 0.5).Floor }

  function RoundNum(v: Num): Num { if v.Fin? then Fin(RoundReal(v.x) as real) else v }

  /** saturateQuota. */
  function Saturate(v: Num): (int, Option<Clamp>) {
    match v
    case NaN => (0, Some(NotANumber))
    case PosInf => (MaxQuota, Some(Overflow))
    case NegInf => (MinQuota, Some(Underflow))
    case Fin(x) =>
      if x >= MaxQuota as real then (MaxQuota, Some(Overflow))
      else if x <= MinQuota as real then (MinQuota, Some(Underflow))
      else (Trunc(x), None)
  }

  function FromFloat(v: Num): (int, Option<Clamp>) { Saturate(v) }

  /** QuotaRoundChecked, and QuotaFromDecimalChecked for a finite value. */
  function Round(v: Num): (int, Option<Clamp>) { Saturate(RoundNum(v)) }

  function Strict(r: (int, Option<Clamp>)): Option<int> { if r.1.Some? then None else Some(r.0) }

  /** The order of the numbers other than NaN. */
  predicate AtMost(v: Num, w: Num)
    requires v != NaN && w != NaN
  {
    v == NegInf || w == PosInf || (v.Fin? && w.Fin? && v.x <= w.x)
  }

  /** Truncation: in range, never of the other sign, under one away from every value in range, and clamped exactly
      outside the open range. */
  lemma FromFloatMeans(v: Num)
    ensures var (q, clamp) := FromFloat(v);
            && MinQuota <= q <= MaxQuota
            && (v != NaN && AtMost(Fin(0.0), v) ==> q >= 0) && (v != NaN && AtMost(v, Fin(0.0)) ==> q <= 0)
            && (clamp == None <==> v.Fin? && MinQuota as real < v.x < MaxQuota as real)
            && (v.Fin? && MinQuota as real <= v.x <= MaxQuota as real ==> q as real - 1.0 < v.x < q as real + 1.0)
  {
  }

  lemma RoundRealMeans(x: real)
    ensures RoundReal(x) as real - 0.5 <= x <= RoundReal(x) as real + 0.5
    ensures x >= 0.0 ==> RoundReal(x) >= 0 && x < RoundReal(x) as real + 0.5
    ensures x <= 0.0 ==> RoundReal(x) <= 0 && RoundReal(x) as real - 0.5 < x
  {
  }

  lemma TruncOfInteger(n: int)
    ensures Trunc(n as real) == n
  {
  }

  /** A finite value is rounded and then held within the range. */
  lemma RoundOfReal(x: real)
    ensures var n := RoundReal(x);
            Round(Fin(x)) == if n >= MaxQuota then (MaxQuota, Some(Overflow))
                             else if n <= MinQuota then (MinQuota, Some(Underflow))
                             else (n, None)
  {
    TruncOfInteger(RoundReal(x));
  }

  /** Rounding: in range, never of the other sign, at most half away from every value in range, and clamped exactly
      from half a unit inside the range on. */
  lemma RoundedMeans(v: Num)
    ensures var (q, clamp) := Round(v);
            && MinQuota <= q <= MaxQuota
            && (v != NaN && AtMost(Fin(0.0), v) ==> q >= 0) && (v != NaN && AtMost(v, Fin(0.0)) ==> q <= 0)
            && (clamp == None <==> v.Fin? && MinQuota as real + 0.5 < v.x < MaxQuota as real - 0.5)
            && (v.Fin? && MinQuota as real <= v.x <= MaxQuota as real ==> q as real - 0.5 <= v.x <= q as real + 0.5)
  {
    if v.Fin? {
      RoundOfReal(v.x);
      RoundRealMeans(v.x);
    }
  }

  /** A larger amount never converts to a smaller quota. */
  lemma Monotone(v: Num, w: Num)
    requires v != NaN && w != NaN && AtMost(v, w)
    ensures FromFloat(v).0 <= FromFloat(w).0 && Round(v).0 <= Round(w).0
  {
    FromFloatMeans(v);
    FromFloatMeans(w);
    RoundedMeans(v);
    RoundedMeans(w);
  }

  /** Rounding and truncation never differ by more than one. */
  lemma RoundNearTrunc(v: Num)
    ensures -1 <= Round(v).0 - FromFloat(v).0 <= 1
  {
    FromFloatMeans(v);
    RoundedMeans(v);
  }

  /** A strict form succeeds exactly strictly inside the range, with the checked quota: the bounds themselves are
      refused although they are representable. */
  lemma StrictIffInside(v: Num)
    ensures Strict(FromFloat(v)) ==
            (if v.Fin? && MinQuota as real < v.x < MaxQuota as real then Some(FromFloat(v).0) else None)
    ensures Strict(Round(v)) ==
            (if v.Fin? && MinQuota as real + 0.5 < v.x < MaxQuota as real - 0.5 then Some(Round(v).0) else None)
  {
    FromFloatMeans(v);
    RoundedMeans(v);
  }
}
