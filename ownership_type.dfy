/** Classification of the inquiring person's stake in one real-estate object
    (getOwnershipType and its three private predicates). */
module OwnershipClassification {
  import opened DrrpTypes
  import opened ShareArithmetic
  import opened DrrpFixtures

  /** The set `uniqueItns`: the code of every subject of every record. A
      subject without a code puts the absent value (None) into the set. */
  function UniqueItns(properties: seq<RealtyProperty>): (uniqueItns: set<Option<string>>)
    ensures forall p, s :: p in properties && s in p.subjects ==> s.sbjCode in uniqueItns
    ensures forall c :: c in uniqueItns ==> exists p, s :: p in properties && s in p.subjects && s.sbjCode == c
  {
    set p, s | p in properties && s in p.subjects :: s.sbjCode
  }

  /** `hasUserWithCoOwners`: more than one distinct code, one of them itn. */
  predicate HasUserWithCoOwners(properties: seq<RealtyProperty>, itn: string)
    ensures HasUserWithCoOwners(properties, itn) ==>
      exists p, s :: p in properties && s in p.subjects && s.sbjCode == Some(itn)
  {
    var uniqueItns := UniqueItns(properties);
    |uniqueItns| > 1 && Some(itn) in uniqueItns
  }

  /** Some subject of some record carries exactly the given code. */
  predicate SomeSubjectHasCode(properties: seq<RealtyProperty>, code: Option<string>) {
    exists p, s :: p in properties && s in p.subjects && s.sbjCode == code
  }

  /** Some subject of some record carries a code other than the given one
      (a missing code is other than every present one). */
  predicate SomeSubjectHasOtherCode(properties: seq<RealtyProperty>, code: Option<string>) {
    exists p, s :: p in properties && s in p.subjects && s.sbjCode != code
  }

  /** The record names exactly one subject, and that subject's code is itn. */
  predicate IsUserSingleSubject(p: RealtyProperty, itn: string) {
    |p.subjects| == 1 && p.subjects[0].sbjCode == Some(itn)
  }

  /** isSingleOwnershipType. */
  predicate IsSingleOwnershipType(properties: seq<RealtyProperty>, itn: string)
    ensures IsSingleOwnershipType(properties, itn) ==>
      && |properties| > 0
      && (forall p :: p in properties ==> IsUserSingleSubject(p, itn))
      && (forall p :: p in properties ==>
            p.prCommonKind.IsUnset() || p.prCommonKind == PropertyCommonKind.CommonPartial)
  {
    var partSizesSum := CountPartSizeSum(properties);
    if |properties| == 1 then
      var p := properties[0];
      var hasUserWithoutCoOwners := IsUserSingleSubject(p, itn);
      var soleKind := p.prCommonKind.IsUnset() || p.prCommonKind == PropertyCommonKind.CommonPartial;
      || (partSizesSum == 1.0 && hasUserWithoutCoOwners && soleKind)
      || (!p.partSize.IsPresent() && hasUserWithoutCoOwners && soleKind)
    else
      var isSingleSubject := forall p :: p in properties ==>
        p.partSize.IsPresent() && IsUserSingleSubject(p, itn) && p.prCommonKind == PropertyCommonKind.CommonPartial;
      partSizesSum == 1.0 && isSingleSubject
  }

  /** A record of joint ownership: several subjects, kind CommonShared. */
  predicate IsCommonSharedRecord(p: RealtyProperty) {
    |p.subjects| > 1 && p.prCommonKind == PropertyCommonKind.CommonShared
  }

  /** A record of a divided share: one subject, kind CommonPartial. */
  predicate IsCommonPartialRecord(p: RealtyProperty) {
    |p.subjects| == 1 && p.prCommonKind == PropertyCommonKind.CommonPartial
  }

  /** isCommonSharedOwnershipType. */
  predicate IsCommonSharedOwnershipType(properties: seq<RealtyProperty>, itn: string)
    ensures IsCommonSharedOwnershipType(properties, itn) ==>
      && |properties| > 0
      && HasUserWithCoOwners(properties, itn)
      && (|properties| == 1 ==> properties[0].prCommonKind == PropertyCommonKind.CommonShared)
      && (|properties| > 1 ==>
            && CountPartSizeSum(properties) == 1.0
            && forall p :: p in properties ==> p.partSize.IsPresent() && (IsCommonSharedRecord(p) || IsCommonPartialRecord(p)))
  {
    var partSizesSum := CountPartSizeSum(properties);
    var hasUserWithCoOwners := HasUserWithCoOwners(properties, itn);
    if |properties| == 1 then
      var p := properties[0];
      || (partSizesSum == 1.0 && hasUserWithCoOwners && p.prCommonKind == PropertyCommonKind.CommonShared)
      || (!p.partSize.IsPresent() && hasUserWithCoOwners && p.prCommonKind == PropertyCommonKind.CommonShared)
    else
      var isAllCommonShared := forall p :: p in properties ==>
        p.partSize.IsPresent() && IsCommonSharedRecord(p);
      var isAllCommonSharedOrCommonPartial := forall p :: p in properties ==>
        p.partSize.IsPresent() && (IsCommonSharedRecord(p) || IsCommonPartialRecord(p));
      || (partSizesSum == 1.0 && isAllCommonShared && hasUserWithCoOwners)
      || (partSizesSum == 1.0 && isAllCommonSharedOrCommonPartial && hasUserWithCoOwners)
  }

  /** isCommonPartialOwnershipType. */
  predicate IsCommonPartialOwnershipType(properties: seq<RealtyProperty>, itn: string)
    ensures IsCommonPartialOwnershipType(properties, itn) ==>
      && |properties| > 1
      && HasUserWithCoOwners(properties, itn)
      && CountPartSizeSum(properties) == 1.0
      && forall p :: p in properties ==> p.partSize.IsPresent() && IsCommonPartialRecord(p)
  {
    var partSizesSum := CountPartSizeSum(properties);
    var hasUserWithCoOwners := HasUserWithCoOwners(properties, itn);
    if |properties| > 1 then
      var isAllCommonPartial := forall p :: p in properties ==>
        p.partSize.IsPresent() && IsCommonPartialRecord(p);
      partSizesSum == 1.0 && isAllCommonPartial && hasUserWithCoOwners
    else
      false
  }

  /** getOwnershipType: Single, then CommonPartial, then CommonShared, the
      first whose predicate holds; otherwise the error carrying the caller's
      process code. */
  function GetOwnershipType(realty: Realty, itn: string, invalidDataProcessCode: Option<int>)
    : (r: Result<OwnershipType, DrrpError>)
    ensures r == Ok(OwnershipType.Single) <==> IsSingleOwnershipType(realty.properties, itn)
    ensures r == Ok(OwnershipType.CommonPartial) <==>
      !IsSingleOwnershipType(realty.properties, itn) && IsCommonPartialOwnershipType(realty.properties, itn)
    ensures r == Ok(OwnershipType.CommonShared) <==>
      && !IsSingleOwnershipType(realty.properties, itn)
      && !IsCommonPartialOwnershipType(realty.properties, itn)
      && IsCommonSharedOwnershipType(realty.properties, itn)
    ensures r.Err? <==>
      && !IsSingleOwnershipType(realty.properties, itn)
      && !IsCommonPartialOwnershipType(realty.properties, itn)
      && !IsCommonSharedOwnershipType(realty.properties, itn)
    ensures r.Err? ==> r.error == FailedToDetermineOwnershipType(invalidDataProcessCode)
  {
    var properties := realty.properties;
    if IsSingleOwnershipType(properties, itn) then Ok(OwnershipType.Single)
    else if IsCommonPartialOwnershipType(properties, itn) then Ok(OwnershipType.CommonPartial)
    else if IsCommonSharedOwnershipType(properties, itn) then Ok(OwnershipType.CommonShared)
    else Err(FailedToDetermineOwnershipType(invalidDataProcessCode))
  }

  /** `hasUserWithCoOwners` holds exactly when itn is some subject's code and
      some subject has a different code, a missing code included. */
  lemma HasUserWithCoOwnersIff(properties: seq<RealtyProperty>, itn: string)
    ensures HasUserWithCoOwners(properties, itn) <==>
      SomeSubjectHasCode(properties, Some(itn)) && SomeSubjectHasOtherCode(properties, Some(itn))
  {
    if HasUserWithCoOwners(properties, itn) {
      CoOwnersHaveOtherCode(properties, itn);
    }
    if SomeSubjectHasCode(properties, Some(itn)) && SomeSubjectHasOtherCode(properties, Some(itn)) {
      OtherCodeMakesCoOwners(properties, itn);
    }
  }

  lemma CoOwnersHaveOtherCode(properties: seq<RealtyProperty>, itn: string)
    requires HasUserWithCoOwners(properties, itn)
    ensures SomeSubjectHasCode(properties, Some(itn)) && SomeSubjectHasOtherCode(properties, Some(itn))
  {
    var codes := UniqueItns(properties);
    var others := codes - {Some(itn)};
    assert |others| == |codes| - 1;
    var c :| c in others;
    var p, s :| p in properties && s in p.subjects && s.sbjCode == c;
  }

  lemma OtherCodeMakesCoOwners(properties: seq<RealtyProperty>, itn: string)
    requires SomeSubjectHasCode(properties, Some(itn)) && SomeSubjectHasOtherCode(properties, Some(itn))
    ensures HasUserWithCoOwners(properties, itn)
  {
    var codes := UniqueItns(properties);
    var p, s :| p in properties && s in p.subjects && s.sbjCode != Some(itn);
    assert {Some(itn), s.sbjCode} <= codes;
    assert |{Some(itn), s.sbjCode}| == 2;
    SubsetCardinality({Some(itn), s.sbjCode}, codes);
  }

  lemma {:induction false} SubsetCardinality<T>(small: set<T>, large: set<T>)
    requires small <= large
    ensures |small| <= |large|
  {
    if small != {} {
      var x :| x in small;
      SubsetCardinality(small - {x}, large - {x});
    }
  }

  /** Single ownership means every subject on every record is the inquiring
      person, so the set of codes is {itn} and the other two predicates
      cannot hold. */
  lemma SingleOwnershipExcludesCoOwners(properties: seq<RealtyProperty>, itn: string)
    requires IsSingleOwnershipType(properties, itn)
    ensures forall p, s :: p in properties && s in p.subjects ==> s.sbjCode == Some(itn)
    ensures UniqueItns(properties) == {Some(itn)}
    ensures !HasUserWithCoOwners(properties, itn)
    ensures !IsCommonPartialOwnershipType(properties, itn)
    ensures !IsCommonSharedOwnershipType(properties, itn)
  {
  }

  /** A CommonPartial classification also satisfies the mixed
      CommonShared/CommonPartial pattern: the two predicates overlap, and only
      the order of the tests in getOwnershipType tells them apart. */
  lemma CommonPartialImpliesCommonShared(properties: seq<RealtyProperty>, itn: string)
    requires IsCommonPartialOwnershipType(properties, itn)
    ensures IsCommonSharedOwnershipType(properties, itn)
  {
  }

  /** What a successful classification says about the records: the
      inquiring person is named, Single means nobody else is, the two common
      types mean somebody else is, and CommonPartial means several
      single-subject records with divided shares. */
  lemma OwnershipTypeMeaning(realty: Realty, itn: string, processCode: Option<int>)
    requires GetOwnershipType(realty, itn, processCode).Ok?
    ensures SomeSubjectHasCode(realty.properties, Some(itn))
    ensures GetOwnershipType(realty, itn, processCode).value == OwnershipType.Single <==>
      !SomeSubjectHasOtherCode(realty.properties, Some(itn))
    ensures GetOwnershipType(realty, itn, processCode).value == OwnershipType.CommonPartial ==>
      && |realty.properties| > 1
      && CountPartSizeSum(realty.properties) == 1.0
      && forall p :: p in realty.properties ==> p.partSize.IsPresent() && IsCommonPartialRecord(p)
  {
    var properties := realty.properties;
    if IsSingleOwnershipType(properties, itn) {
      SingleOwnershipExcludesCoOwners(properties, itn);
      var p0 := properties[0];
      assert p0 in properties && p0.subjects[0] in p0.subjects;
    } else {
      HasUserWithCoOwnersIff(properties, itn);
      if IsCommonPartialOwnershipType(properties, itn) {
      } else {
        assert IsCommonSharedOwnershipType(properties, itn);
      }
    }
  }

  /** An object without ownership records cannot be classified: the sum 0 is
      not 1 and a single record is absent. */
  lemma NoPropertiesFails(itn: string, processCode: Option<int>)
    ensures GetOwnershipType(Realty([]), itn, processCode) == Err(FailedToDetermineOwnershipType(processCode))
  {
    assert CountPartSizeSum([]) == 0.0;
  }

  /** One record with share 1, kind CommonPartial, the user alone: Single. */
  lemma WholeShareIsSingle()
    ensures GetOwnershipType(Realty([RealtyProperty(1, Expr(1.0), PropertyCommonKind.CommonPartial, [MockSubject(Some("user1"), Individual)])]),
                             "user1", None) == Ok(OwnershipType.Single)
  {
  }

  /** One record with share 1, no kind, the user alone: Single. */
  lemma WholeShareWithoutKindIsSingle()
    ensures GetOwnershipType(Realty([RealtyProperty(1, Expr(1.0), NoCommonKind, [MockSubject(Some("user1"), Individual)])]),
                             "user1", None) == Ok(OwnershipType.Single)
  {
  }

  /** A lone single-subject record without a share size is Single exactly
      when its subject is the user and its kind is absent or CommonPartial. */
  lemma LoneUnsharedRecordSingleIff(p: RealtyProperty, itn: string)
    requires !p.partSize.IsPresent() && |p.subjects| == 1
    ensures IsSingleOwnershipType([p], itn) <==>
      p.subjects[0].sbjCode == Some(itn) && (p.prCommonKind.IsUnset() || p.prCommonKind == PropertyCommonKind.CommonPartial)
  {
  }

  /** One record without a share size, the user alone: Single. */
  lemma MissingShareIsSingle()
    ensures GetOwnershipType(Realty([RealtyProperty(1, Missing, PropertyCommonKind.CommonPartial, [MockSubject(Some("user1"), Individual)])]),
                             "user1", None) == Ok(OwnershipType.Single)
  {
  }

  /** Two halves, both the user's: Single. */
  lemma UserHalvesAreSingle()
    ensures GetOwnershipType(Realty([RealtyProperty(1, Expr(0.5), PropertyCommonKind.CommonPartial, [MockSubject(Some("user1"), Individual)]),
                                     RealtyProperty(1, Expr(0.5), PropertyCommonKind.CommonPartial, [MockSubject(Some("user1"), Individual)])]),
                             "user1", None) == Ok(OwnershipType.Single)
  {
  }

  /** One CommonShared record, no share size, the user and a peer: CommonShared. */
  lemma JointRecordIsCommonShared()
    ensures GetOwnershipType(Realty([RealtyProperty(1, Missing, PropertyCommonKind.CommonShared,
                                                    [MockSubject(Some("user1"), Individual), MockSubject(Some("user2"), Individual)])]),
                             "user1", None) == Ok(OwnershipType.CommonShared)
  {
    CoOwnersWitness([RealtyProperty(1, Missing, PropertyCommonKind.CommonShared, [MockSubject(Some("user1"), Individual), MockSubject(Some("user2"), Individual)])],
                    "user1", 0, 0, 0, 1);
  }

  /** A joint half and a divided half held by someone else: CommonShared. */
  lemma MixedRecordsAreCommonShared()
    ensures GetOwnershipType(Realty([RealtyProperty(1, Expr(0.5), PropertyCommonKind.CommonShared,
                                                    [MockSubject(Some("user1"), Individual), MockSubject(Some("user2"), Individual)]),
                                     RealtyProperty(1, Expr(0.5), PropertyCommonKind.CommonPartial, [MockSubject(Some("user3"), Individual)])]),
                             "user1", None) == Ok(OwnershipType.CommonShared)
  {
    var mixed := [RealtyProperty(1, Expr(0.5), PropertyCommonKind.CommonShared, [MockSubject(Some("user1"), Individual), MockSubject(Some("user2"), Individual)]),
                  RealtyProperty(1, Expr(0.5), PropertyCommonKind.CommonPartial, [MockSubject(Some("user3"), Individual)])];
    HalvesSumToOne(mixed);
    CoOwnersWitness(mixed, "user1", 0, 0, 1, 0);
    assert mixed[0] in mixed && IsCommonSharedRecord(mixed[0]);
    MixedPatternIsCommonShared(mixed, "user1", None);
  }

  /** Several records with present shares summing to 1, each joint or
      divided and at least one joint, with the user among co-owners:
      CommonShared. */
  lemma MixedPatternIsCommonShared(properties: seq<RealtyProperty>, itn: string, processCode: Option<int>)
    requires |properties| > 1 && CountPartSizeSum(properties) == 1.0
    requires forall p :: p in properties ==> p.partSize.IsPresent() && (IsCommonSharedRecord(p) || IsCommonPartialRecord(p))
    requires exists p :: p in properties && IsCommonSharedRecord(p)
    requires HasUserWithCoOwners(properties, itn)
    ensures GetOwnershipType(Realty(properties), itn, processCode) == Ok(OwnershipType.CommonShared)
  {
    var p :| p in properties && IsCommonSharedRecord(p);
    assert !IsUserSingleSubject(p, itn) && !IsCommonPartialRecord(p);
  }

  /** Two divided halves of two people: CommonPartial, although the
      CommonShared predicate holds too. */
  lemma DividedHalvesAreCommonPartial()
    ensures
      var partial := [RealtyProperty(1, Expr(0.5), PropertyCommonKind.CommonPartial, [MockSubject(Some("user1"), Individual)]),
                      RealtyProperty(1, Expr(0.5), PropertyCommonKind.CommonPartial, [MockSubject(Some("user2"), Individual)])];
      && GetOwnershipType(Realty(partial), "user1", None) == Ok(OwnershipType.CommonPartial)
      && IsCommonSharedOwnershipType(partial, "user1")
  {
    var partial := [RealtyProperty(1, Expr(0.5), PropertyCommonKind.CommonPartial, [MockSubject(Some("user1"), Individual)]),
                    RealtyProperty(1, Expr(0.5), PropertyCommonKind.CommonPartial, [MockSubject(Some("user2"), Individual)])];
    HalvesSumToOne(partial);
    CoOwnersWitness(partial, "user1", 0, 0, 1, 0);
    CommonPartialImpliesCommonShared(partial, "user1");
  }

  /** A subject coded itn and a subject coded otherwise, found by position,
      make itn a user with co-owners. */
  lemma CoOwnersWitness(properties: seq<RealtyProperty>, itn: string, i: nat, j: nat, k: nat, l: nat)
    requires i < |properties| && j < |properties[i].subjects| && properties[i].subjects[j].sbjCode == Some(itn)
    requires k < |properties| && l < |properties[k].subjects| && properties[k].subjects[l].sbjCode != Some(itn)
    ensures HasUserWithCoOwners(properties, itn)
  {
    assert properties[i] in properties && properties[i].subjects[j] in properties[i].subjects;
    assert properties[k] in properties && properties[k].subjects[l] in properties[k].subjects;
    HasUserWithCoOwnersIff(properties, itn);
  }
}
