/** The subject and share sums the unit-test scenarios are built from. */
module DrrpFixtures {
  import opened DrrpTypes
  import opened ShareArithmetic

  /** The unit tests' subject: always the same name, with the code and the
      subject type each test sets. */
  function MockSubject(code: Option<string>, kind: DcSbjType): RealtySubject {
    RealtySubject("Jane Smith", code, kind)
  }

  /** Two records holding a half each sum to a whole. */
  lemma HalvesSumToOne(properties: seq<RealtyProperty>)
    requires |properties| == 2
    requires properties[0].partSize == Expr(0.5) && properties[1].partSize == Expr(0.5)
    ensures CountPartSizeSum(properties) == 1.0
  {
    CountPartSizeSumIsShareTotal(properties);
    assert properties[1..] == [properties[1]] && properties[1..][1..] == [];
    assert ShareTotal(properties[1..]) == 0.5;
  }
}
