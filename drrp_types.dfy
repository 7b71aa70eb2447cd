/** Records of the state register of real-estate rights (DRRP) as the
    ownership decisions see them: one real-estate object, its ownership
    records, the subjects named on each record, and the owner list derived
    from them. Only the fields the decisions read are kept. */
module DrrpTypes {

  datatype Option<+T> = None | Some(value: T)

  datatype Result<+T, +E> = Ok(value: T) | Err(error: E)

  /** The two failures the decision code raises (both an InternalServerError
      in the service). */
  datatype DrrpError =
    | FailedToDetermineOwnershipType(processCode: Option<int>)
    | UnexpectedPropertyCommonKind(kind: PropertyCommonKind)

  /** The registry's kind of common ownership on one record. The registry
      sends free text, so any other value is kept as it came. */
  datatype PropertyCommonKind =
    | NoCommonKind
    | CommonShared
    | CommonPartial
    | OtherKind(text: string)
  {
    /** The kind is falsy: absent, or the empty string. */
    predicate IsUnset() {
      NoCommonKind? || (OtherKind? && text == "")
    }
  }

  /** The classification handed back to callers. */
  datatype OwnershipType = Single | CommonShared | CommonPartial

  /** The share size of one record: an arithmetic expression such as
      "1/3+1/6", held here as its exact value. Missing and Blank (the empty
      string) are both falsy; they differ only when copied into an owner. */
  datatype PartSize = Missing | Blank | Expr(value: real) {
    /** The share size is truthy: a non-empty expression, whatever its value. */
    predicate IsPresent() {
      Expr?
    }

    /** What the share contributes to the joined sum. */
    function Contribution(): real {
      if Expr? then value else 0.0
    }
  }

  datatype DcSbjType = Individual | Entity

  /** A subject named on a record. The tax code is optional, and the empty
      string counts as missing wherever the code is tested for truthiness. */
  datatype RealtySubject = RealtySubject(sbjName: string, sbjCode: Option<string>, dcSbjType: DcSbjType) {
    predicate HasCode() {
      sbjCode.Some? && sbjCode.value != ""
    }
  }

  /** One ownership record of the object. */
  datatype RealtyProperty = RealtyProperty(
    rnNum: int,
    partSize: PartSize,
    prCommonKind: PropertyCommonKind,
    subjects: seq<RealtySubject>)

  /** One real-estate object; only its ownership records matter here. */
  datatype Realty = Realty(properties: seq<RealtyProperty>)

  /** One individual co-owner, flattened out of a record. */
  datatype PropertyOwnerInfo = PropertyOwnerInfo(
    fullName: string,
    rnokpp: string,
    rnNum: int,
    partSize: PartSize,
    prCommonKind: PropertyCommonKind)
}
