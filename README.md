# DRRP ownership classification, in Dafny

A model of the decision core of the DRRP provider (`DrrpProvider`), the client of the
Ukrainian state register of real-estate rights. For one real-estate object it takes the
list of ownership records the register returned and the tax code (`itn`) of the person
asking, and it does four things:

- sums the share sizes of the records (`countPartSizeSum`);
- decides whether the register's answer is trustworthy (`isInvalidOwnersData`), by four
  checks run in order;
- classifies the person's stake as Single, CommonPartial or CommonShared, tested in that
  order, or fails (`getOwnershipType` with its three private predicates);
- flattens the records into the list of identified individual co-owners
  (`extractIndividualOwners`).

It also models the two deprecated checks `isSoleOwner` and `checkOwnersShares`, as separate
functions.

Every one of these is a side-effect-free decision over finite lists, so the model is made
of datatypes, functions, predicates and lemmas:

- `drrp_types.dfy` (module `DrrpTypes`): the records, subjects, kinds and owner entries.
  `partSize` is `Missing`, `Blank` (the empty string) or `Expr(value)`, an exact real.
  `sbjCode` is an `Option<string>`. `prCommonKind` is `NoCommonKind`, `CommonShared`,
  `CommonPartial` or `OtherKind(text)`. The empty string counts as absent wherever the
  service tests it for truthiness.
- `share_arithmetic.dfy` (module `ShareArithmetic`): `countPartSizeSum`, and a reference
  definition it is proved equal to.
- `ownership_type.dfy` (module `OwnershipClassification`): the three predicates and
  `getOwnershipType`, with lemmas on which predicates exclude or imply each other.
- `owners_data.dfy` (module `OwnersData`): `isInvalidOwnersData` and
  `extractIndividualOwners`, with lemmas that connect the two.
- `drrp_fixtures.dfy` (module `DrrpFixtures`): the subject and the half-and-half share sum
  that the unit-test scenarios are built from.
- `deprecated_predicates.dfy` (module `DeprecatedOwnership`): the deprecated checks and
  where they agree and disagree with `getOwnershipType`.

Facts about the code that the model keeps, as the code has them:

- The three classifications overlap. A CommonPartial set always satisfies the mixed
  CommonShared pattern too, and only the order of the tests in `getOwnershipType`
  separates them (`CommonPartialImpliesCommonShared`).
- The deprecated checks are not wrappers around the classifier. They keep logic of their
  own, accept a share sum `>= 1` where the classifier demands `== 1`, and look only at the
  first record's kind (`SurplusSharesDivergence`, `MissingShareDivergence`).
- Nothing in the code relies on a record having a subject, and the model allows records
  without one.
- `uniqueItns` is a set of optional codes. A subject without a code adds an absent element,
  which counts toward "more than one code" (`HasUserWithCoOwnersIff`).

Some unit tests expect results the code does not produce, and they are not encoded:

- `tests/unit/drrp.spec.ts:349-358` and `377-383` expect a valid verdict. The share-sum
  check fires on both.
- `tests/unit/drrp.spec.ts:621-631` and `642-661` expect CommonShared. The sum test
  fails on both, so the code throws.
- `tests/unit/drrp.spec.ts:396-398` expects a valid verdict. The mock's default subject
  has its `sbjCode` overwritten with `undefined` (`tests/mocks/providers/drrp.ts:178`), so
  the missing-code check fires.
- The "no partSize" cases at `594-602` and `633-641` get the mock's default `partSize`
  '1'. The model covers the missing-share branches (index.ts:353, 389) with lemmas of its
  own.

## Model

| member | source | states |
|---|---|---|
| `ShareArithmetic.PresentPartSizes` | src/providers/drrp/index.ts:449 | the kept share sizes are no more than the records; there are none exactly when no record has a truthy `partSize`; each one is some record's share |
| `ShareArithmetic.CountPartSizeSum` | src/providers/drrp/index.ts:444-458 | the sum is 0 for an empty list and whenever no record has a share size |
| `ShareArithmetic.CountPartSizeSumIsShareTotal` | src/providers/drrp/index.ts:444-458 | the joined sum equals the reference total: each record adds its share value, and a missing or empty share adds 0 |
| `ShareArithmetic.CountPartSizeSumAppend` | src/providers/drrp/index.ts:449-455 | the sum of two lists joined is the sum of their sums |
| `ShareArithmetic.CountPartSizeSumIgnoresAbsent` | src/providers/drrp/index.ts:449 | adding a record without a share anywhere in the list leaves the sum unchanged |
| `ShareArithmetic.CountPartSizeSumReadsSharesOnly` | src/providers/drrp/index.ts:444-458 | two lists whose share sizes agree at each position have the same sum; kinds and subjects do not matter |
| `ShareArithmetic.PresentShareAtMostSum` | src/providers/drrp/index.ts:444-458 | when no share is negative, every present share lies between 0 and the sum |
| `ShareArithmetic.CountPartSizeSumExamples` | src/providers/drrp/index.ts:444-458 | sum of no records is 0; two halves sum to 1; a third beside a missing share sums to 1/3 |
| `OwnershipClassification.GetOwnershipType` | src/providers/drrp/index.ts:316-334 | Single exactly when the Single predicate holds; otherwise CommonPartial exactly when that predicate holds; otherwise CommonShared exactly when that predicate holds; otherwise the failure carrying the caller's process code |
| `OwnershipClassification.UniqueItns` | src/providers/drrp/index.ts:377 | the set holds the code of every subject of every record, and nothing that is not some subject's code; a missing code is the absent element |
| `OwnershipClassification.HasUserWithCoOwners` | src/providers/drrp/index.ts:377-378 | when it holds, some subject carries exactly itn |
| `OwnershipClassification.IsSingleOwnershipType` | src/providers/drrp/index.ts:339-370 | Single needs at least one record, every record naming itn as its only subject, and every kind absent or CommonPartial |
| `OwnershipClassification.IsCommonPartialOwnershipType` | src/providers/drrp/index.ts:423-442 | CommonPartial needs several records, all single-subject CommonPartial records with a share, summing to 1, with itn among several codes |
| `OwnershipClassification.IsCommonSharedOwnershipType` | src/providers/drrp/index.ts:375-418 | CommonShared needs itn among several codes; a lone record must be CommonShared; several records must have shares summing to 1, each record joint (CommonShared, several subjects) or divided (CommonPartial, one subject) |
| `OwnershipClassification.HasUserWithCoOwnersIff` | src/providers/drrp/index.ts:377-378 | `hasUserWithCoOwners` holds exactly when some subject's code is itn and some subject's code differs from itn, a missing code included |
| `OwnershipClassification.SingleOwnershipExcludesCoOwners` | src/providers/drrp/index.ts:339-370 | under Single every subject's code is itn, the code set is {itn}, `hasUserWithCoOwners` is false, and neither CommonPartial nor CommonShared holds |
| `OwnershipClassification.CommonPartialImpliesCommonShared` | src/providers/drrp/index.ts:423-441 | every set that passes the CommonPartial predicate also passes the CommonShared predicate (mixed pattern at index.ts:404-413) |
| `OwnershipClassification.OwnershipTypeMeaning` | src/providers/drrp/index.ts:316-441 | a successful classification names itn on some subject. Single holds exactly when no subject has another code. CommonPartial means several single-subject CommonPartial records with shares summing to 1 |
| `OwnershipClassification.NoPropertiesFails` | src/providers/drrp/index.ts:316-334 | an object without records fails to classify, with the caller's process code |
| `OwnershipClassification.WholeShareIsSingle` | tests/unit/drrp.spec.ts:582-592 | one CommonPartial record with share 1 and the user alone is Single |
| `OwnershipClassification.WholeShareWithoutKindIsSingle` | src/providers/drrp/index.ts:342-355 | one record with share 1, no kind and the user alone is Single |
| `OwnershipClassification.LoneUnsharedRecordSingleIff` | src/providers/drrp/index.ts:342-355 | for every lone single-subject record without a share: Single exactly when the subject's code is itn and the kind is absent or CommonPartial |
| `OwnershipClassification.MissingShareIsSingle` | src/providers/drrp/index.ts:352-355 | one CommonPartial record without a share and the user alone is Single |
| `OwnershipClassification.UserHalvesAreSingle` | tests/unit/drrp.spec.ts:603-618 | two CommonPartial halves, both the user's, are Single |
| `OwnershipClassification.JointRecordIsCommonShared` | src/providers/drrp/index.ts:388-391 | one CommonShared record without a share, naming the user and a peer, is CommonShared |
| `OwnershipClassification.MixedRecordsAreCommonShared` | tests/unit/drrp.spec.ts:662-678 | a CommonShared half with the user and a CommonPartial half of someone else is CommonShared |
| `OwnershipClassification.MixedPatternIsCommonShared` | src/providers/drrp/index.ts:404-416 | for all inputs: several records with shares summing to 1, each joint or divided and at least one joint, with itn among co-owners, classify as CommonShared |
| `OwnershipClassification.DividedHalvesAreCommonPartial` | tests/unit/drrp.spec.ts:681-696 | two CommonPartial halves of two people are CommonPartial, while the CommonShared predicate holds as well |
| `OwnersData.IsInvalidOwnersData` | src/providers/drrp/index.ts:234-293 | no records is valid; a valid answer names only individuals with codes, puts at least two subjects on every CommonShared record, and when several records have any share their shares sum to 1 |
| `OwnersData.ValidOwnersDataIff` | src/providers/drrp/index.ts:234-293 | valid exactly when all of these hold: every subject is an individual with a code; every CommonShared record has at least two subjects; a lone single-subject record with a share holds exactly 1; several records either all lack a share, or all have one and sum to 1 |
| `OwnersData.SubjectChecksIff` | src/providers/drrp/index.ts:273-290 | the non-individual check and the missing-code check both pass exactly when every subject is an individual with a non-empty code |
| `OwnersData.NoPropertiesIsValid` | src/providers/drrp/index.ts:237-261 | an object without records is never invalid |
| `OwnersData.ValidOwnersDataHasOnlyPresentCodes` | src/providers/drrp/index.ts:282-290 | on valid data the set of codes contains neither the absent code nor the empty string |
| `OwnersData.ValidOwnersDataExtractsEverySubject` | src/providers/drrp/index.ts:295-314 | on valid data, the extracted owner list is exactly as long as the total number of subjects |
| `OwnersData.OneHalfAloneIsInvalid` | tests/unit/drrp.spec.ts:333-347 | a lone single-subject record holding 1/2 is invalid with no kind and with CommonPartial |
| `OwnersData.MissingShareBesideShareIsInvalid` | tests/unit/drrp.spec.ts:369-375 | a CommonShared record with the default share beside a CommonPartial record without one, both subjects without a code as the mock leaves them, is invalid |
| `OwnersData.EntityOrUncodedSubjectIsInvalid` | tests/unit/drrp.spec.ts:385-394 | an entity subject, or an individual without a code, makes the data invalid |
| `OwnersData.WholeShareOfIdentifiedPersonIsValid` | src/providers/drrp/index.ts:234-293 | one record with share 1 and one identified individual is valid |
| `OwnersData.RecordOwners` | src/providers/drrp/index.ts:299-310 | a record yields at most one owner per subject. An owner is produced exactly for each individual subject with a non-empty code, and copies its name and code plus the record's number, share and kind |
| `OwnersData.PropertiesOwners` | src/providers/drrp/index.ts:296-311 | the owners of a record list are no more than its subjects, and are exactly the mapped identified individuals of every record |
| `OwnersData.ExtractIndividualOwners` | src/providers/drrp/index.ts:295-314 | the output is no longer than the total number of subjects. Every entry has a non-empty code. An entry is present exactly when it is some record's identified individual, mapped with that record's data |
| `OwnersData.PropertiesOwnersAppend` | src/providers/drrp/index.ts:296 | record order: the owners of two lists joined are the first list's owners followed by the second's |
| `OwnersData.RecordOwnersAppend` | src/providers/drrp/index.ts:299-303 | subject order: within a record, the owners of two runs of subjects joined are the first run's owners followed by the second's |
| `OwnersData.RecordOwnersAreMappedSubjects` | src/providers/drrp/index.ts:299-310 | when every subject is an identified individual, the i-th owner is the i-th subject mapped |
| `OwnersData.AllIdentifiedExtractsAll` | src/providers/drrp/index.ts:295-314 | when every subject is an identified individual, the owner list has one entry per subject |
| `OwnersData.ExtractIndividualOwnersExample` | tests/unit/drrp.spec.ts:409-461 | the entity and the uncoded individual are dropped; the three others come out in order with their record's number, share and kind |
| `DeprecatedOwnership.FirstSubjectCodes` | src/providers/drrp/index.ts:188-189 | the set holds each record's non-empty first-subject code and nothing else; the empty code is never in it |
| `DeprecatedOwnership.IsSoleOwner` | src/providers/drrp/index.ts:183-206 | a sole owner has records, exactly one distinct first-subject code, a first kind that is not an unknown text, and on a CommonPartial first kind shares summing to at least 1 |
| `DeprecatedOwnership.CheckOwnersShares` | src/providers/drrp/index.ts:209-229 | no records give false. An absent or CommonShared first kind gives true. A CommonPartial first kind gives whether the shares sum to at least 1. The failure happens exactly when the first kind is a non-empty unknown text, and carries that kind |
| `DeprecatedOwnership.SoleOwnerPassesShareCheck` | src/providers/drrp/index.ts:183-229 | whenever isSoleOwner holds, checkOwnersShares returns true |
| `DeprecatedOwnership.SoleOwnerHasOneFirstCode` | src/providers/drrp/index.ts:188-193 | a sole owner's records have one non-empty code that every coded first subject carries and at least one does |
| `DeprecatedOwnership.IsSoleOwnerIff` | src/providers/drrp/index.ts:183-206 | isSoleOwner holds exactly when there are records, they agree on one non-empty first-subject code, and the first kind is absent, CommonShared, or CommonPartial with shares summing to at least 1 |
| `DeprecatedOwnership.DeprecatedChecksRejectNoRecords` | src/providers/drrp/index.ts:183-212 | both deprecated checks give false for an empty list |
| `DeprecatedOwnership.DeprecatedChecksReadFirstKindOnly` | src/providers/drrp/index.ts:195-228 | changing the kind of any record after the first changes neither deprecated check |
| `DeprecatedOwnership.SingleOwnershipIsSoleOwner` | src/providers/drrp/index.ts:183-206 | Single for a non-empty itn implies isSoleOwner. The one exception is a lone CommonPartial record without a share |
| `DeprecatedOwnership.SurplusSharesDivergence` | src/providers/drrp/index.ts:201-202 | two whole shares of one person pass isSoleOwner (2 >= 1) but are not Single (2 is not 1) |
| `DeprecatedOwnership.MissingShareDivergence` | src/providers/drrp/index.ts:197-205 | a lone CommonPartial record without a share is Single, yet fails isSoleOwner because its sum 0 is below 1 |
| `DeprecatedOwnership.IsSoleOwnerSharesExamples` | tests/unit/drrp.spec.ts:248-290 | the unit-test verdicts of isSoleOwner on CommonPartial records: 1/3 alone and two different owners are false; 2/3+1/3 of one owner is true |
| `DeprecatedOwnership.IsSoleOwnerKindsExamples` | tests/unit/drrp.spec.ts:291-322 | the unit-test verdicts of isSoleOwner without shares: CommonShared alone and no kind alone are true; two owners without a kind are false |
| `DeprecatedOwnership.CheckOwnersSharesExamples` | tests/unit/drrp.spec.ts:213-239 | the unit-test verdicts of checkOwnersShares: CommonShared true, CommonPartial 1 and 1/2+1/2 true, CommonPartial 0 false, an unknown kind fails |

## Left out

- The register calls `getSubjectInfo`, `getSubjectInfoClarifying`, `getObjectInfo`,
  `makeExtSearchRequest`, `request`, `getActualAtuId` and `getActualAtuIds`
  (src/providers/drrp/index.ts:49-180, 460-506) are left out. They are message-broker
  calls, JSON decoding and error wrapping, and the decisions receive their decoded result.
- Share expressions are not parsed. Each present `partSize` is held as its exact value,
  and the joined expression is its exact sum. Parse errors of `math-expression-evaluator`
  and JavaScript floating-point rounding in `===` and `>=` are not modelled.
- Logger calls are side effects with no effect on any result.
- The exception types are not modelled. `InternalServerError` is the `DrrpError` variant
  of a `Result`, without its message text.
- `OtherKind(text)` is always distinct from `CommonShared` and `CommonPartial`. A decoder
  is assumed to map the register's two words onto those variants.
- Fields the decisions never read are not modelled, e.g. `regDate`, `prKind`, `country`,
  `idDoc`, and every `Realty` field except `properties`.
- The validation schemas in src/validation/drrp/index.ts and the types in
  publicServiceDrrpExtGroup.ts are not part of this model. Neither affects the decisions.
