/** The integrity check of a registry answer (isInvalidOwnersData) and the
    flat list of identified individual co-owners (extractIndividualOwners). */
module OwnersData {
  import opened DrrpTypes
  import opened ShareArithmetic
  import opened OwnershipClassification
  import opened DrrpFixtures

  // ---------------------------------------------------------------------
  // isInvalidOwnersData
  // ---------------------------------------------------------------------

  /** First check: the share sizes do not add up. A lone record is suspect
      only when it has a share, the sum is not 1 and it names one subject;
      any other number of records is suspect when some record has a share
      and the sum is not 1 or some record has none. */
  predicate HasInvalidPartSizes(properties: seq<RealtyProperty>) {
    var partSizesSum := CountPartSizeSum(properties);
    if |properties| == 1 then
      properties[0].partSize.IsPresent() && partSizesSum != 1.0 && |properties[0].subjects| == 1
    else
      var hasPartSizes := exists p :: p in properties && p.partSize.IsPresent();
      var hasMissingPartSizes := exists p :: p in properties && !p.partSize.IsPresent();
      hasPartSizes && (partSizesSum != 1.0 || hasMissingPartSizes)
  }

  /** Second check: a CommonShared record with at most one subject. */
  predicate HasMissingSubjectsForCommonShared(properties: seq<RealtyProperty>) {
    exists p :: p in properties && p.prCommonKind == PropertyCommonKind.CommonShared && |p.subjects| <= 1
  }

  /** Third check: a subject that is not an individual. */
  predicate HasNonIndividualSubjects(properties: seq<RealtyProperty>) {
    exists p, s :: p in properties && s in p.subjects && s.dcSbjType != Individual
  }

  /** Fourth check: an individual without a tax code (minors included). */
  predicate HasIndividualSubjectsWithoutSbjCode(properties: seq<RealtyProperty>) {
    exists p, s :: p in properties && s in p.subjects && s.dcSbjType == Individual && !s.HasCode()
  }

  /** isInvalidOwnersData: the checks in the order the service runs them,
      the first that fires deciding; false when none fires. */
  predicate IsInvalidOwnersData(realty: Realty)
    ensures |realty.properties| == 0 ==> !IsInvalidOwnersData(realty)
    ensures !IsInvalidOwnersData(realty) ==> AllSubjectsIdentifiedIndividuals(realty.properties)
    ensures !IsInvalidOwnersData(realty) ==>
      forall p :: p in realty.properties && p.prCommonKind == PropertyCommonKind.CommonShared ==> |p.subjects| >= 2
    ensures !IsInvalidOwnersData(realty) && |realty.properties| > 1 && (exists p :: p in realty.properties && p.partSize.IsPresent()) ==>
      CountPartSizeSum(realty.properties) == 1.0
  {
    var properties := realty.properties;
    || HasInvalidPartSizes(properties)
    || HasMissingSubjectsForCommonShared(properties)
    || HasNonIndividualSubjects(properties)
    || HasIndividualSubjectsWithoutSbjCode(properties)
  }

  /** Every subject is an individual with a non-empty tax code. */
  predicate AllSubjectsIdentifiedIndividuals(properties: seq<RealtyProperty>) {
    forall p, s :: p in properties && s in p.subjects ==> IsIdentifiedIndividual(s)
  }

  /** What a valid answer looks like, stated positively: identified
      individuals only, at least two subjects on every CommonShared record,
      a lone single-subject record with a share holds exactly 1, and several
      records either all lack a share or all have one and together hold 1. */
  lemma ValidOwnersDataIff(realty: Realty)
    ensures !IsInvalidOwnersData(realty) <==>
      var properties := realty.properties;
      && AllSubjectsIdentifiedIndividuals(properties)
      && (forall p :: p in properties && p.prCommonKind == PropertyCommonKind.CommonShared ==> |p.subjects| >= 2)
      && (|properties| == 1 && properties[0].partSize.IsPresent() && |properties[0].subjects| == 1 ==>
            properties[0].partSize.value == 1.0)
      && (|properties| != 1 ==>
            || (forall p :: p in properties ==> !p.partSize.IsPresent())
            || ((forall p :: p in properties ==> p.partSize.IsPresent()) && CountPartSizeSum(properties) == 1.0))
  {
    var properties := realty.properties;
    SubjectChecksIff(properties);
    if |properties| == 1 {
      CountPartSizeSumIsShareTotal(properties);
      assert properties[1..] == [];
      assert CountPartSizeSum(properties) == properties[0].partSize.Contribution();
      assert HasInvalidPartSizes(properties) <==>
        properties[0].partSize.IsPresent() && |properties[0].subjects| == 1 && properties[0].partSize.value != 1.0;
    }
  }

  /** The two subject checks pass exactly when every subject is an
      identified individual. */
  lemma SubjectChecksIff(properties: seq<RealtyProperty>)
    ensures !HasNonIndividualSubjects(properties) && !HasIndividualSubjectsWithoutSbjCode(properties) <==>
      AllSubjectsIdentifiedIndividuals(properties)
  {
    if !HasNonIndividualSubjects(properties) && !HasIndividualSubjectsWithoutSbjCode(properties) {
      forall p, s | p in properties && s in p.subjects ensures IsIdentifiedIndividual(s) {
        assert s.dcSbjType == Individual;
      }
    }
    if AllSubjectsIdentifiedIndividuals(properties) {
      forall p, s | p in properties && s in p.subjects ensures s.dcSbjType == Individual && s.HasCode() {
        assert IsIdentifiedIndividual(s);
      }
    }
  }

  /** An object without ownership records passes every check. */
  lemma NoPropertiesIsValid()
    ensures !IsInvalidOwnersData(Realty([]))
  {
  }

  /** A valid answer has no missing and no empty code, so `uniqueItns`
      holds real tax codes only. */
  lemma ValidOwnersDataHasOnlyPresentCodes(realty: Realty)
    requires !IsInvalidOwnersData(realty)
    ensures None !in UniqueItns(realty.properties)
    ensures Some("") !in UniqueItns(realty.properties)
  {
  }

  /** A valid answer loses no subject when flattened into owners. */
  lemma ValidOwnersDataExtractsEverySubject(realty: Realty)
    requires !IsInvalidOwnersData(realty)
    ensures |ExtractIndividualOwners(realty)| == TotalSubjects(realty.properties)
  {
    AllIdentifiedExtractsAll(realty.properties);
  }

  /** The unit-test verdicts that agree with the code. */
  lemma OneHalfAloneIsInvalid()
    ensures IsInvalidOwnersData(Realty([RealtyProperty(1, Expr(0.5), NoCommonKind, [MockSubject(Some("1233434"), Individual)])]))
    ensures IsInvalidOwnersData(Realty([RealtyProperty(1, Expr(0.5), PropertyCommonKind.CommonPartial,
                                                       [MockSubject(Some("1233434"), Individual)])]))
  {
  }

  lemma MissingShareBesideShareIsInvalid()
    ensures IsInvalidOwnersData(Realty([RealtyProperty(1, Expr(1.0), PropertyCommonKind.CommonShared, [MockSubject(None, Individual)]),
                                        RealtyProperty(1, Missing, PropertyCommonKind.CommonPartial, [MockSubject(None, Individual)])]))
  {
  }

  lemma EntityOrUncodedSubjectIsInvalid()
    ensures IsInvalidOwnersData(Realty([RealtyProperty(1, Expr(1.0), NoCommonKind, [MockSubject(Some("1233434"), Entity)])]))
    ensures IsInvalidOwnersData(Realty([RealtyProperty(1, Expr(1.0), NoCommonKind, [MockSubject(None, Individual)])]))
  {
  }

  lemma WholeShareOfIdentifiedPersonIsValid()
    ensures !IsInvalidOwnersData(Realty([RealtyProperty(1, Expr(1.0), NoCommonKind, [MockSubject(Some("1233434"), Individual)])]))
  {
  }

  // ---------------------------------------------------------------------
  // extractIndividualOwners
  // ---------------------------------------------------------------------

  /** The subjects that become owners: individuals with a non-empty code. */
  predicate IsIdentifiedIndividual(s: RealtySubject) {
    s.dcSbjType == Individual && s.HasCode()
  }

  /** The owner entry of one subject, with its record's number, share and
      kind copied as they are. */
  function ToOwnerInfo(p: RealtyProperty, s: RealtySubject): PropertyOwnerInfo
    requires IsIdentifiedIndividual(s)
  {
    PropertyOwnerInfo(s.sbjName, s.sbjCode.value, p.rnNum, p.partSize, p.prCommonKind)
  }

  /** The owners one record contributes from the given subjects, in subject
      order. */
  function RecordOwners(p: RealtyProperty, subjects: seq<RealtySubject>): (owners: seq<PropertyOwnerInfo>)
    ensures |owners| <= |subjects|
    ensures forall o :: o in owners <==>
      exists s :: s in subjects && IsIdentifiedIndividual(s) && o == ToOwnerInfo(p, s)
  {
    if |subjects| == 0 then []
    else
      var head := if IsIdentifiedIndividual(subjects[0]) then [ToOwnerInfo(p, subjects[0])] else [];
      assert forall s :: s in subjects <==> s == subjects[0] || s in subjects[1..];
      head + RecordOwners(p, subjects[1..])
  }

  /** Number of subjects over all records. */
  function TotalSubjects(properties: seq<RealtyProperty>): nat {
    if |properties| == 0 then 0 else |properties[0].subjects| + TotalSubjects(properties[1..])
  }

  /** The owners of a list of records, record after record. */
  function PropertiesOwners(properties: seq<RealtyProperty>): (owners: seq<PropertyOwnerInfo>)
    ensures |owners| <= TotalSubjects(properties)
    ensures forall o :: o in owners <==>
      exists p, s :: p in properties && s in p.subjects && IsIdentifiedIndividual(s) && o == ToOwnerInfo(p, s)
  {
    if |properties| == 0 then []
    else
      assert forall p :: p in properties <==> p == properties[0] || p in properties[1..];
      RecordOwners(properties[0], properties[0].subjects) + PropertiesOwners(properties[1..])
  }

  /** extractIndividualOwners: one entry per identified individual subject,
      in record order and then subject order. */
  function ExtractIndividualOwners(realty: Realty): (owners: seq<PropertyOwnerInfo>)
    ensures |owners| <= TotalSubjects(realty.properties)
    ensures forall o :: o in owners ==> o.rnokpp != ""
    ensures forall o :: o in owners <==>
      exists p, s :: p in realty.properties && s in p.subjects && IsIdentifiedIndividual(s) && o == ToOwnerInfo(p, s)
  {
    PropertiesOwners(realty.properties)
  }

  /** Record order: the owners of two lists of records are the owners of
      the first followed by those of the second. */
  lemma {:induction false} PropertiesOwnersAppend(a: seq<RealtyProperty>, b: seq<RealtyProperty>)
    ensures PropertiesOwners(a + b) == PropertiesOwners(a) + PropertiesOwners(b)
  {
    if |a| == 0 {
      assert a + b == b;
    } else {
      assert (a + b)[1..] == a[1..] + b;
      PropertiesOwnersAppend(a[1..], b);
    }
  }

  /** Subject order: within a record, the owners of two runs of subjects are
      those of the first run followed by those of the second. */
  lemma {:induction false} RecordOwnersAppend(p: RealtyProperty, a: seq<RealtySubject>, b: seq<RealtySubject>)
    ensures RecordOwners(p, a + b) == RecordOwners(p, a) + RecordOwners(p, b)
  {
    if |a| == 0 {
      assert a + b == b;
    } else {
      assert (a + b)[1..] == a[1..] + b;
      RecordOwnersAppend(p, a[1..], b);
    }
  }

  /** Each record's identified individuals appear once each and in order:
      the owners of one record are exactly its identified subjects, mapped. */
  lemma {:induction false} RecordOwnersAreMappedSubjects(p: RealtyProperty, subjects: seq<RealtySubject>)
    requires forall i :: 0 <= i < |subjects| ==> IsIdentifiedIndividual(subjects[i])
    ensures |RecordOwners(p, subjects)| == |subjects|
    ensures forall i :: 0 <= i < |subjects| ==> RecordOwners(p, subjects)[i] == ToOwnerInfo(p, subjects[i])
  {
    if |subjects| != 0 {
      RecordOwnersAreMappedSubjects(p, subjects[1..]);
    }
  }

  /** When every subject is an identified individual, every subject yields
      an owner. */
  lemma {:induction false} AllIdentifiedExtractsAll(properties: seq<RealtyProperty>)
    requires AllSubjectsIdentifiedIndividuals(properties)
    ensures |PropertiesOwners(properties)| == TotalSubjects(properties)
  {
    if |properties| != 0 {
      var p0 := properties[0];
      assert p0 in properties;
      assert forall i :: 0 <= i < |p0.subjects| ==> p0.subjects[i] in p0.subjects;
      RecordOwnersAreMappedSubjects(p0, p0.subjects);
      assert forall p :: p in properties[1..] ==> p in properties;
      AllIdentifiedExtractsAll(properties[1..]);
    }
  }

  /** The unit test: an entity and an individual without a code are
      dropped; the others come out in order with their record's data. */
  lemma ExtractIndividualOwnersExample()
    ensures
      var s1 := RealtySubject("Subject 1", Some("1"), Individual);
      var s2 := RealtySubject("Subject 2", Some("2"), Individual);
      var s3 := RealtySubject("Subject 3", Some("3"), Individual);
      var entity := RealtySubject("Non-individual subject", Some("1233434"), Entity);
      var uncoded := RealtySubject("Subject without sbjCode", None, Individual);
      ExtractIndividualOwners(Realty([
        RealtyProperty(1, Expr(0.5), PropertyCommonKind.CommonPartial, [s1, s2, entity, uncoded]),
        RealtyProperty(2, Expr(0.5), PropertyCommonKind.CommonPartial, [s3])]))
      == [PropertyOwnerInfo("Subject 1", "1", 1, Expr(0.5), PropertyCommonKind.CommonPartial),
          PropertyOwnerInfo("Subject 2", "2", 1, Expr(0.5), PropertyCommonKind.CommonPartial),
          PropertyOwnerInfo("Subject 3", "3", 2, Expr(0.5), PropertyCommonKind.CommonPartial)]
  {
  }
}
