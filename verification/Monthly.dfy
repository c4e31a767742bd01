/** The twelve month fields shared by every weighted-distribution record and DTO,
    and the arithmetic the services do on them. Months are exact decimals
    (`real`); a missing (null) month is `None`. */
module Monthly {
  import opened Results

  /** Month values in calendar order, enero first. */
  type Months = m: seq<Option<real>> | |m| == 12 witness [None, None, None, None, None, None, None, None, None, None, None, None]

  /** The field names the validation errors use, in the order the checks run. */
  const MonthNames: seq<string> :=
    ["enero", "febrero", "marzo", "abril", "mayo", "junio",
     "julio", "agosto", "septiembre", "octubre", "noviembre", "diciembre"]

  /** The constant 100.00 every record must add up to. */
  const Hundred: real := 100.0

  /** A month value with null read as 0.00. */
  function OrZero(v: Option<real>): real {
    if v.Some? then v.value else 0.0
  }

  /** True when a month is present and below zero. */
  predicate IsNegative(v: Option<real>) {
    v.Some? && v.value < 0.0
  }

  /** Left-to-right sum of the values, null read as 0.00. */
  function Sum(m: seq<Option<real>>): real
    decreases |m|
  {
    if |m| == 0 then 0.0 else Sum(m[..|m| - 1]) + OrZero(m[|m| - 1])
  }

  /** The sum exactly as the source spells it: zero plus each month in turn. */
  function ChainedSum(m: Months): real {
    0.0 + OrZero(m[0]) + OrZero(m[1]) + OrZero(m[2]) + OrZero(m[3])
      + OrZero(m[4]) + OrZero(m[5]) + OrZero(m[6]) + OrZero(m[7])
      + OrZero(m[8]) + OrZero(m[9]) + OrZero(m[10]) + OrZero(m[11])
  }

  /** Every present month is at least zero. */
  predicate NonNegative(m: seq<Option<real>>) {
    forall i | 0 <= i < |m| :: !IsNegative(m[i])
  }

  /** Index of the first negative month at or after `from`, if any. */
  function FirstNegativeFrom(m: seq<Option<real>>, from: nat): (r: Option<nat>)
    requires from <= |m|
    ensures r.None? <==> forall j | from <= j < |m| :: !IsNegative(m[j])
    ensures r.Some? ==> from <= r.value < |m| && IsNegative(m[r.value])
    ensures r.Some? ==> forall j | from <= j < r.value :: !IsNegative(m[j])
    decreases |m| - from
  {
    if from == |m| then None
    else if IsNegative(m[from]) then Some(from)
    else FirstNegativeFrom(m, from + 1)
  }

  /** validateMonthlyValues: each month, enero to diciembre, is checked for a
      negative value and the first one found is reported under its own name. */
  function ValidateMonthlyValues(m: Months): (r: Outcome)
    ensures r.Pass? <==> NonNegative(m)
    ensures r.Fail? ==> exists i | 0 <= i < 12 ::
      && IsNegative(m[i])
      && (forall j | 0 <= j < i :: !IsNegative(m[j]))
      && r.error == Invalid(MonthNames[i])
  {
    match FirstNegativeFrom(m, 0)
    case None => Pass
    case Some(i) => Fail(Invalid(MonthNames[i]))
  }

  /** Sum of the first `k` chained terms. */
  function PrefixChain(m: Months, k: nat): real
    requires k <= 12
  {
    if k == 0 then 0.0 else PrefixChain(m, k - 1) + OrZero(m[k - 1])
  }

  /** The recursive sum of the first `k` months is the first `k` chained terms. */
  lemma {:induction false} SumOfPrefix(m: Months, k: nat)
    requires k <= 12
    ensures Sum(m[..k]) == PrefixChain(m, k)
  {
    if k > 0 {
      assert m[..k][..k - 1] == m[..k - 1];
      SumOfPrefix(m, k - 1);
    }
  }

  /** The recursive sum agrees with the source's twelve-term chain. */
  lemma SumIsChainedSum(m: Months)
    ensures Sum(m) == ChainedSum(m)
  {
    SumOfPrefix(m, 12);
    assert m[..12] == m;
    // unfold the chain one month at a time
    assert PrefixChain(m, 1) == PrefixChain(m, 0) + OrZero(m[0]);
    assert PrefixChain(m, 2) == PrefixChain(m, 1) + OrZero(m[1]);
    assert PrefixChain(m, 3) == PrefixChain(m, 2) + OrZero(m[2]);
    assert PrefixChain(m, 4) == PrefixChain(m, 3) + OrZero(m[3]);
    assert PrefixChain(m, 5) == PrefixChain(m, 4) + OrZero(m[4]);
    assert PrefixChain(m, 6) == PrefixChain(m, 5) + OrZero(m[5]);
    assert PrefixChain(m, 7) == PrefixChain(m, 6) + OrZero(m[6]);
    assert PrefixChain(m, 8) == PrefixChain(m, 7) + OrZero(m[7]);
    assert PrefixChain(m, 9) == PrefixChain(m, 8) + OrZero(m[8]);
    assert PrefixChain(m, 10) == PrefixChain(m, 9) + OrZero(m[9]);
    assert PrefixChain(m, 11) == PrefixChain(m, 10) + OrZero(m[10]);
    assert PrefixChain(m, 12) == PrefixChain(m, 11) + OrZero(m[11]);
  }

  /** With no negative months, no single month exceeds the sum. */
  lemma {:induction false} MonthAtMostSum(m: seq<Option<real>>, i: nat)
    requires NonNegative(m)
    requires i < |m|
    ensures 0.0 <= OrZero(m[i]) <= Sum(m)
    decreases |m|
  {
    var p := m[..|m| - 1];
    assert NonNegative(p) by {
      forall j | 0 <= j < |p| ensures !IsNegative(p[j]) { assert p[j] == m[j]; }
    }
    SumNonNegative(p);
    if i < |m| - 1 {
      assert p[i] == m[i];
      MonthAtMostSum(p, i);
    }
    assert !IsNegative(m[|m| - 1]);
  }

  /** With no negative months, the sum is at least zero. */
  lemma {:induction false} SumNonNegative(m: seq<Option<real>>)
    requires NonNegative(m)
    ensures Sum(m) >= 0.0
    decreases |m|
  {
    if |m| > 0 {
      var p := m[..|m| - 1];
      assert NonNegative(p) by {
        forall j | 0 <= j < |p| ensures !IsNegative(p[j]) { assert p[j] == m[j]; }
      }
      SumNonNegative(p);
      assert !IsNegative(m[|m| - 1]);
    }
  }

  /** Months that pass the non-negativity check and add up to 100.00 each lie in [0, 100]. */
  lemma MonthsWithinPercentRange(m: Months)
    requires NonNegative(m)
    requires Sum(m) == Hundred
    ensures forall i | 0 <= i < 12 :: m[i].None? || 0.0 <= m[i].value <= Hundred
  {
    forall i | 0 <= i < 12
      ensures m[i].None? || 0.0 <= m[i].value <= Hundred
    {
      MonthAtMostSum(m, i);
    }
  }
}
