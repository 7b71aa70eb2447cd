/** The sum of the share sizes of a list of ownership records: the present
    expressions are joined with "+" and evaluated, with exact values here. */
module ShareArithmetic {
  import opened DrrpTypes

  /** The present share sizes, in record order (dropping the falsy ones). */
  function PresentPartSizes(owners: seq<RealtyProperty>): (sizes: seq<real>)
    ensures |sizes| <= |owners|
    ensures |sizes| == 0 <==> forall i :: 0 <= i < |owners| ==> !owners[i].partSize.IsPresent()
    ensures forall x :: x in sizes ==> exists p :: p in owners && p.partSize == Expr(x)
  {
    if |owners| == 0 then []
    else
      var head := if owners[0].partSize.IsPresent() then [owners[0].partSize.value] else [];
      assert forall p :: p in owners[1..] ==> p in owners;
      head + PresentPartSizes(owners[1..])
  }

  /** Value of the expression `x1+x2+...+xn`. */
  function SumOf(xs: seq<real>): real {
    if |xs| == 0 then 0.0 else xs[0] + SumOf(xs[1..])
  }

  /** countPartSizeSum: 0 for no records or no present share, else the sum of
      the present shares. */
  function CountPartSizeSum(owners: seq<RealtyProperty>): (sum: real)
    ensures (forall i :: 0 <= i < |owners| ==> !owners[i].partSize.IsPresent()) ==> sum == 0.0
  {
    if |owners| == 0 then 0.0
    else
      var partSizes := PresentPartSizes(owners);
      if |partSizes| == 0 then 0.0 else SumOf(partSizes)
  }

  /** Reference definition: every record contributes its share, or 0 when it
      has none. */
  function ShareTotal(owners: seq<RealtyProperty>): real {
    if |owners| == 0 then 0.0 else owners[0].partSize.Contribution() + ShareTotal(owners[1..])
  }

  lemma {:induction false} SumOfAppend(xs: seq<real>, ys: seq<real>)
    ensures SumOf(xs + ys) == SumOf(xs) + SumOf(ys)
  {
    if |xs| == 0 {
      assert xs + ys == ys;
    } else {
      assert (xs + ys)[1..] == xs[1..] + ys;
      SumOfAppend(xs[1..], ys);
    }
  }

  lemma {:induction false} PresentPartSizesAppend(a: seq<RealtyProperty>, b: seq<RealtyProperty>)
    ensures PresentPartSizes(a + b) == PresentPartSizes(a) + PresentPartSizes(b)
  {
    if |a| == 0 {
      assert a + b == b;
    } else {
      assert (a + b)[1..] == a[1..] + b;
      PresentPartSizesAppend(a[1..], b);
    }
  }

  /** The sum is exactly the reference total: present shares summed, absent
      ones contributing nothing. */
  lemma {:induction false} CountPartSizeSumIsShareTotal(owners: seq<RealtyProperty>)
    ensures CountPartSizeSum(owners) == ShareTotal(owners)
  {
    if |owners| != 0 {
      CountPartSizeSumIsShareTotal(owners[1..]);
      assert owners == [owners[0]] + owners[1..];
      PresentPartSizesAppend([owners[0]], owners[1..]);
      SumOfAppend(PresentPartSizes([owners[0]]), PresentPartSizes(owners[1..]));
    }
  }

  /** Summing two lists of records one after the other adds their sums. */
  lemma {:induction false} CountPartSizeSumAppend(a: seq<RealtyProperty>, b: seq<RealtyProperty>)
    ensures CountPartSizeSum(a + b) == CountPartSizeSum(a) + CountPartSizeSum(b)
  {
    PresentPartSizesAppend(a, b);
    SumOfAppend(PresentPartSizes(a), PresentPartSizes(b));
  }

  /** A record without a share size can be inserted anywhere without
      changing the sum. */
  lemma CountPartSizeSumIgnoresAbsent(a: seq<RealtyProperty>, p: RealtyProperty, b: seq<RealtyProperty>)
    requires !p.partSize.IsPresent()
    ensures CountPartSizeSum(a + [p] + b) == CountPartSizeSum(a + b)
  {
    CountPartSizeSumAppend(a + [p], b);
    CountPartSizeSumAppend(a, [p]);
    CountPartSizeSumAppend(a, b);
  }

  /** The sum reads nothing but the share sizes: records with the same
      share sizes, position by position, have the same sum. */
  lemma {:induction false} CountPartSizeSumReadsSharesOnly(a: seq<RealtyProperty>, b: seq<RealtyProperty>)
    requires |a| == |b|
    requires forall i :: 0 <= i < |a| ==> a[i].partSize == b[i].partSize
    ensures CountPartSizeSum(a) == CountPartSizeSum(b)
  {
    SameSharesSamePresentSizes(a, b);
  }

  lemma {:induction false} SameSharesSamePresentSizes(a: seq<RealtyProperty>, b: seq<RealtyProperty>)
    requires |a| == |b|
    requires forall i :: 0 <= i < |a| ==> a[i].partSize == b[i].partSize
    ensures PresentPartSizes(a) == PresentPartSizes(b)
  {
    if |a| != 0 {
      SameSharesSamePresentSizes(a[1..], b[1..]);
    }
  }

  /** With non-negative shares, every present share is at most the sum. */
  lemma {:induction false} PresentShareAtMostSum(owners: seq<RealtyProperty>, i: int)
    requires 0 <= i < |owners| && owners[i].partSize.IsPresent()
    requires forall k :: 0 <= k < |owners| ==> owners[k].partSize.Contribution() >= 0.0
    ensures 0.0 <= owners[i].partSize.value <= CountPartSizeSum(owners)
  {
    CountPartSizeSumIsShareTotal(owners);
    ShareTotalAtLeast(owners, i);
  }

  lemma {:induction false} ShareTotalAtLeast(owners: seq<RealtyProperty>, i: int)
    requires 0 <= i < |owners|
    requires forall k :: 0 <= k < |owners| ==> owners[k].partSize.Contribution() >= 0.0
    ensures owners[i].partSize.Contribution() <= ShareTotal(owners)
  {
    ShareTotalNonNegative(owners[1..]);
    if i > 0 {
      ShareTotalAtLeast(owners[1..], i - 1);
    }
  }

  lemma {:induction false} ShareTotalNonNegative(owners: seq<RealtyProperty>)
    requires forall k :: 0 <= k < |owners| ==> owners[k].partSize.Contribution() >= 0.0
    ensures ShareTotal(owners) >= 0.0
  {
    if |owners| != 0 {
      ShareTotalNonNegative(owners[1..]);
    }
  }

  /** Two halves make a whole; a third beside a missing share is a third. */
  lemma CountPartSizeSumExamples(subjects: seq<RealtySubject>)
    ensures CountPartSizeSum([]) == 0.0
    ensures CountPartSizeSum([RealtyProperty(1, Expr(0.5), NoCommonKind, subjects),
                              RealtyProperty(2, Expr(0.5), NoCommonKind, subjects)]) == 1.0
    ensures CountPartSizeSum([RealtyProperty(1, Expr(1.0 / 3.0), NoCommonKind, subjects),
                              RealtyProperty(2, Missing, NoCommonKind, subjects)]) == 1.0 / 3.0
  {
    var halves := [RealtyProperty(1, Expr(0.5), NoCommonKind, subjects),
                   RealtyProperty(2, Expr(0.5), NoCommonKind, subjects)];
    CountPartSizeSumIsShareTotal(halves);
    assert halves[1..] == [halves[1]] && halves[1..][1..] == [];
    assert ShareTotal(halves[1..]) == 0.5;
    var third := [RealtyProperty(1, Expr(1.0 / 3.0), NoCommonKind, subjects),
                  RealtyProperty(2, Missing, NoCommonKind, subjects)];
    CountPartSizeSumIsShareTotal(third);
    assert third[1..] == [third[1]] && third[1..][1..] == [];
  }
}
