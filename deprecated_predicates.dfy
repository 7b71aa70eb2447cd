/** The two deprecated checks kept for older callers: isSoleOwner and
    checkOwnersShares. Both look only at the first record's kind and accept a
    share sum of at least 1 where getOwnershipType demands exactly 1. */
module DeprecatedOwnership {
  import opened DrrpTypes
  import opened ShareArithmetic
  import opened OwnershipClassification
  import opened DrrpFixtures

  /** The distinct non-empty codes of the first subject of each record
      (`uniq` of the mapped and filtered codes). */
  function FirstSubjectCodes(owners: seq<RealtyProperty>): (codes: set<string>)
    ensures "" !in codes
    ensures forall p :: p in owners && |p.subjects| > 0 && p.subjects[0].HasCode() ==> p.subjects[0].sbjCode.value in codes
    ensures forall c :: c in codes ==> exists p :: p in owners && |p.subjects| > 0 && p.subjects[0].sbjCode == Some(c)
  {
    set p | p in owners && |p.subjects| > 0 && p.subjects[0].HasCode() :: p.subjects[0].sbjCode.value
  }

  /** isSoleOwner: exactly one distinct first-subject code, and then an
      absent or CommonShared kind, or a CommonPartial kind with shares
      summing to at least 1; any other kind is not a sole owner. */
  predicate IsSoleOwner(owners: seq<RealtyProperty>)
    ensures IsSoleOwner(owners) ==> |owners| > 0 && |FirstSubjectCodes(owners)| == 1
    ensures IsSoleOwner(owners) ==> !owners[0].prCommonKind.OtherKind? || owners[0].prCommonKind.text == ""
    ensures IsSoleOwner(owners) && owners[0].prCommonKind == PropertyCommonKind.CommonPartial ==>
      CountPartSizeSum(owners) >= 1.0
  {
    if |owners| == 0 then false
    else if |FirstSubjectCodes(owners)| != 1 then false
    else
      var prCommonKind := owners[0].prCommonKind;
      if prCommonKind.IsUnset() || prCommonKind == PropertyCommonKind.CommonShared then true
      else if prCommonKind == PropertyCommonKind.CommonPartial then CountPartSizeSum(owners) >= 1.0
      else false
  }

  /** checkOwnersShares: false for no records; true for an absent or
      CommonShared first kind; for CommonPartial whether the shares sum to
      at least 1; an error for any other kind. */
  function CheckOwnersShares(owners: seq<RealtyProperty>): (r: Result<bool, DrrpError>)
    ensures |owners| == 0 ==> r == Ok(false)
    ensures r.Err? <==> |owners| > 0 && owners[0].prCommonKind.OtherKind? && owners[0].prCommonKind.text != ""
    ensures r.Err? ==> r.error == UnexpectedPropertyCommonKind(owners[0].prCommonKind)
    ensures |owners| > 0 && (owners[0].prCommonKind.IsUnset() || owners[0].prCommonKind == PropertyCommonKind.CommonShared) ==>
      r == Ok(true)
    ensures |owners| > 0 && owners[0].prCommonKind == PropertyCommonKind.CommonPartial ==>
      r == Ok(CountPartSizeSum(owners) >= 1.0)
  {
    if |owners| == 0 then Ok(false)
    else
      var prCommonKind := owners[0].prCommonKind;
      if prCommonKind.IsUnset() || prCommonKind == PropertyCommonKind.CommonShared then Ok(true)
      else if prCommonKind == PropertyCommonKind.CommonPartial then Ok(CountPartSizeSum(owners) >= 1.0)
      else Err(UnexpectedPropertyCommonKind(prCommonKind))
  }

  /** A sole owner always passes the share check. */
  lemma SoleOwnerPassesShareCheck(owners: seq<RealtyProperty>)
    requires IsSoleOwner(owners)
    ensures CheckOwnersShares(owners) == Ok(true)
  {
  }

  /** A sole owner's records agree on one non-empty first-subject code. */
  lemma SoleOwnerHasOneFirstCode(owners: seq<RealtyProperty>)
    requires IsSoleOwner(owners)
    ensures exists code ::
      && code != ""
      && (exists p :: p in owners && |p.subjects| > 0 && p.subjects[0].sbjCode == Some(code))
      && (forall p :: p in owners && |p.subjects| > 0 && p.subjects[0].HasCode() ==> p.subjects[0].sbjCode == Some(code))
  {
    var codes := FirstSubjectCodes(owners);
    var code :| code in codes;
    assert codes == {code} by {
      if exists other :: other in codes && other != code {
        var other :| other in codes && other != code;
        assert {code, other} <= codes;
        SubsetCardinality({code, other}, codes);
        assert false;
      }
    }
    var p :| p in owners && |p.subjects| > 0 && p.subjects[0].HasCode() && p.subjects[0].sbjCode.value == code;
    forall q | q in owners && |q.subjects| > 0 && q.subjects[0].HasCode() ensures q.subjects[0].sbjCode == Some(code) {
      assert q.subjects[0].sbjCode.value in codes;
    }
  }

  /** The first subjects of the records with a non-empty code all carry
      `code`, and at least one does. */
  predicate OneFirstSubjectCode(owners: seq<RealtyProperty>, code: string) {
    && code != ""
    && (exists p :: p in owners && |p.subjects| > 0 && p.subjects[0].sbjCode == Some(code))
    && (forall p :: p in owners && |p.subjects| > 0 && p.subjects[0].HasCode() ==> p.subjects[0].sbjCode == Some(code))
  }

  /** isSoleOwner, stated without the code set: the records agree on one
      non-empty first-subject code, and the first kind is absent or
      CommonShared, or CommonPartial with shares summing to at least 1. */
  lemma IsSoleOwnerIff(owners: seq<RealtyProperty>)
    ensures IsSoleOwner(owners) <==>
      && |owners| > 0
      && (exists code :: OneFirstSubjectCode(owners, code))
      && var prCommonKind := owners[0].prCommonKind;
         || prCommonKind.IsUnset()
         || prCommonKind == PropertyCommonKind.CommonShared
         || (prCommonKind == PropertyCommonKind.CommonPartial && CountPartSizeSum(owners) >= 1.0)
  {
    if IsSoleOwner(owners) {
      SoleOwnerHasOneFirstCode(owners);
      var code :| code != ""
        && (exists p :: p in owners && |p.subjects| > 0 && p.subjects[0].sbjCode == Some(code))
        && (forall p :: p in owners && |p.subjects| > 0 && p.subjects[0].HasCode() ==> p.subjects[0].sbjCode == Some(code));
      assert OneFirstSubjectCode(owners, code);
    }
    if |owners| > 0 && exists code :: OneFirstSubjectCode(owners, code) {
      var code :| OneFirstSubjectCode(owners, code);
      assert FirstSubjectCodes(owners) == {code};
    }
  }

  /** Both deprecated checks reject an object without records. */
  lemma DeprecatedChecksRejectNoRecords()
    ensures !IsSoleOwner([])
    ensures CheckOwnersShares([]) == Ok(false)
  {
  }

  /** Only the first record's kind is consulted: changing any later
      record's kind changes neither check. */
  lemma DeprecatedChecksReadFirstKindOnly(owners: seq<RealtyProperty>, i: int, kind: PropertyCommonKind)
    requires 0 < i < |owners|
    ensures var changed := owners[i := owners[i].(prCommonKind := kind)];
      && CheckOwnersShares(changed) == CheckOwnersShares(owners)
      && IsSoleOwner(changed) == IsSoleOwner(owners)
  {
    var changed := owners[i := owners[i].(prCommonKind := kind)];
    CountPartSizeSumReadsSharesOnly(changed, owners);
    SameSubjectsSameFirstCodes(changed, owners);
  }

  lemma SameSubjectsSameFirstCodes(a: seq<RealtyProperty>, b: seq<RealtyProperty>)
    requires |a| == |b|
    requires forall j :: 0 <= j < |a| ==> a[j].subjects == b[j].subjects
    ensures FirstSubjectCodes(a) == FirstSubjectCodes(b)
  {
    forall c | c in FirstSubjectCodes(a) ensures c in FirstSubjectCodes(b) {
      var p :| p in a && |p.subjects| > 0 && p.subjects[0].HasCode() && p.subjects[0].sbjCode.value == c;
      var j :| 0 <= j < |a| && a[j] == p;
      assert b[j] in b && b[j].subjects == p.subjects;
    }
    forall c | c in FirstSubjectCodes(b) ensures c in FirstSubjectCodes(a) {
      var p :| p in b && |p.subjects| > 0 && p.subjects[0].HasCode() && p.subjects[0].sbjCode.value == c;
      var j :| 0 <= j < |b| && b[j] == p;
      assert a[j] in a && a[j].subjects == p.subjects;
    }
  }

  /** Where the two generations agree: a Single classification for a
      non-empty code is also a sole owner, except for a lone CommonPartial
      record without a share size, whose sum 0 fails the `>= 1` test. */
  lemma SingleOwnershipIsSoleOwner(properties: seq<RealtyProperty>, itn: string)
    requires IsSingleOwnershipType(properties, itn)
    requires itn != ""
    requires !(|properties| == 1 && properties[0].prCommonKind == PropertyCommonKind.CommonPartial
               && !properties[0].partSize.IsPresent())
    ensures IsSoleOwner(properties)
  {
    SingleOwnershipExcludesCoOwners(properties, itn);
    var p0 := properties[0];
    assert p0 in properties && p0.subjects[0] in p0.subjects;
    assert FirstSubjectCodes(properties) == {itn} by {
      forall c | c in FirstSubjectCodes(properties) ensures c == itn {
        var p :| p in properties && |p.subjects| > 0 && p.subjects[0].HasCode() && p.subjects[0].sbjCode.value == c;
        assert p.subjects[0] in p.subjects;
      }
    }
  }

  /** Where they part: two whole shares of one person are a sole owner for
      the deprecated check (2 >= 1) but not Single (2 != 1). */
  lemma SurplusSharesDivergence()
    ensures
      var r := RealtyProperty(1, Expr(1.0), PropertyCommonKind.CommonPartial,
                              [MockSubject(Some("1233434"), Individual)]);
      IsSoleOwner([r, r]) && !IsSingleOwnershipType([r, r], "1233434")
  {
    var r := RealtyProperty(1, Expr(1.0), PropertyCommonKind.CommonPartial,
                            [MockSubject(Some("1233434"), Individual)]);
    CountPartSizeSumIsShareTotal([r, r]);
    assert [r, r][1..] == [r] && [r][1..] == [];
    assert ShareTotal([r, r][1..]) == 1.0;
    assert FirstSubjectCodes([r, r]) == {"1233434"};
  }

  /** And the other way: a lone CommonPartial record without a share size
      is Single, yet its sum 0 fails the deprecated `>= 1` test. */
  lemma MissingShareDivergence()
    ensures
      var r := RealtyProperty(1, Missing, PropertyCommonKind.CommonPartial,
                              [MockSubject(Some("1233434"), Individual)]);
      IsSingleOwnershipType([r], "1233434") && !IsSoleOwner([r])
  {
  }

  /** The unit-test verdicts of isSoleOwner on CommonPartial records: a
      third alone is too little, two codes are not one owner, and 2/3 plus
      1/3 of one person is a sole owner. */
  lemma IsSoleOwnerSharesExamples()
    ensures !IsSoleOwner([RealtyProperty(1, Expr(1.0 / 3.0), PropertyCommonKind.CommonPartial, [MockSubject(Some("1233434"), Individual)])])
    ensures !IsSoleOwner([RealtyProperty(1, Expr(2.0 / 3.0), PropertyCommonKind.CommonPartial, [MockSubject(Some("1111110000"), Individual)]),
                          RealtyProperty(1, Expr(1.0 / 3.0), PropertyCommonKind.CommonPartial, [MockSubject(Some("1233434"), Individual)])])
    ensures IsSoleOwner([RealtyProperty(1, Expr(2.0 / 3.0), PropertyCommonKind.CommonPartial, [MockSubject(Some("1233434"), Individual)]),
                         RealtyProperty(1, Expr(1.0 / 3.0), PropertyCommonKind.CommonPartial, [MockSubject(Some("1233434"), Individual)])])
  {
    var me := MockSubject(Some("1233434"), Individual);
    var third := [RealtyProperty(1, Expr(1.0 / 3.0), PropertyCommonKind.CommonPartial, [me])];
    CountPartSizeSumIsShareTotal(third);
    var mixed := [RealtyProperty(1, Expr(2.0 / 3.0), PropertyCommonKind.CommonPartial, [MockSubject(Some("1111110000"), Individual)]),
                  RealtyProperty(1, Expr(1.0 / 3.0), PropertyCommonKind.CommonPartial, [me])];
    TwoFirstCodes(mixed);
    var mine := [RealtyProperty(1, Expr(2.0 / 3.0), PropertyCommonKind.CommonPartial, [me]),
                 RealtyProperty(1, Expr(1.0 / 3.0), PropertyCommonKind.CommonPartial, [me])];
    CountPartSizeSumIsShareTotal(mine);
    assert mine[1..] == [mine[1]] && mine[1..][1..] == [];
    assert ShareTotal(mine[1..]) == 1.0 / 3.0;
    OneFirstCode(mine, "1233434");
  }

  /** The unit-test verdicts of isSoleOwner on records without a share: an
      absent or CommonShared kind makes a sole owner, a second code does
      not. */
  lemma IsSoleOwnerKindsExamples()
    ensures IsSoleOwner([RealtyProperty(1, Missing, PropertyCommonKind.CommonShared, [MockSubject(Some("1233434"), Individual)])])
    ensures IsSoleOwner([RealtyProperty(1, Missing, NoCommonKind, [MockSubject(Some("1233434"), Individual)])])
    ensures !IsSoleOwner([RealtyProperty(1, Missing, NoCommonKind, [MockSubject(Some("1233434"), Individual)]),
                          RealtyProperty(1, Missing, NoCommonKind, [MockSubject(Some("1111110000"), Individual)])])
  {
    var me := MockSubject(Some("1233434"), Individual);
    OneFirstCode([RealtyProperty(1, Missing, PropertyCommonKind.CommonShared, [me])], "1233434");
    OneFirstCode([RealtyProperty(1, Missing, NoCommonKind, [me])], "1233434");
    TwoFirstCodes([RealtyProperty(1, Missing, NoCommonKind, [me]),
                   RealtyProperty(1, Missing, NoCommonKind, [MockSubject(Some("1111110000"), Individual)])]);
  }

  lemma OneFirstCode(owners: seq<RealtyProperty>, code: string)
    requires code != ""
    requires forall i :: 0 <= i < |owners| ==> |owners[i].subjects| > 0 && owners[i].subjects[0].sbjCode == Some(code)
    requires |owners| > 0
    ensures FirstSubjectCodes(owners) == {code}
  {
    assert owners[0] in owners;
  }

  lemma TwoFirstCodes(owners: seq<RealtyProperty>)
    requires |owners| == 2 && |owners[0].subjects| > 0 && |owners[1].subjects| > 0
    requires owners[0].subjects[0].HasCode() && owners[1].subjects[0].HasCode()
    requires owners[0].subjects[0].sbjCode != owners[1].subjects[0].sbjCode
    ensures |FirstSubjectCodes(owners)| > 1
  {
    var a := owners[0].subjects[0].sbjCode.value;
    var b := owners[1].subjects[0].sbjCode.value;
    assert owners[0] in owners && owners[1] in owners;
    assert {a, b} <= FirstSubjectCodes(owners);
    SubsetCardinality({a, b}, FirstSubjectCodes(owners));
  }

  /** The unit-test verdicts of checkOwnersShares. */
  lemma CheckOwnersSharesExamples(subjects: seq<RealtySubject>)
    ensures CheckOwnersShares([RealtyProperty(1, Expr(0.0), PropertyCommonKind.CommonShared, subjects)]) == Ok(true)
    ensures CheckOwnersShares([RealtyProperty(1, Expr(1.0), PropertyCommonKind.CommonPartial, subjects)]) == Ok(true)
    ensures CheckOwnersShares([RealtyProperty(1, Expr(0.5), PropertyCommonKind.CommonPartial, subjects),
                               RealtyProperty(1, Expr(0.5), PropertyCommonKind.CommonPartial, subjects)]) == Ok(true)
    ensures CheckOwnersShares([RealtyProperty(1, Expr(0.0), PropertyCommonKind.CommonPartial, subjects)]) == Ok(false)
    ensures CheckOwnersShares([RealtyProperty(1, Expr(0.0), OtherKind("1"), subjects)]).Err?
  {
    CountPartSizeSumIsShareTotal([RealtyProperty(1, Expr(1.0), PropertyCommonKind.CommonPartial, subjects)]);
    HalvesSumToOne([RealtyProperty(1, Expr(0.5), PropertyCommonKind.CommonPartial, subjects),
                    RealtyProperty(1, Expr(0.5), PropertyCommonKind.CommonPartial, subjects)]);
    CountPartSizeSumIsShareTotal([RealtyProperty(1, Expr(0.0), PropertyCommonKind.CommonPartial, subjects)]);
  }
}
