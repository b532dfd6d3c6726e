/** Coefficient converters registered for bond terms (term order 2). */
module BondConverters {

  /** The term order under which `ConvertNothing` is registered. */
  const RegisteredOrder: nat := 2

  /** The identity converter: bond coefficients already in canonical form. */
  function ConvertNothing(coeffs: seq<real>): (r: seq<real>)
    ensures |r| == |coeffs|
    ensures forall i :: 0 <= i < |coeffs| ==> r[i] == coeffs[i]
  {
    coeffs
  }

  /** Converting twice gives the same coefficients as converting once. */
  lemma ConvertNothingIdempotent(coeffs: seq<real>)
    ensures ConvertNothing(ConvertNothing(coeffs)) == ConvertNothing(coeffs)
  {
  }

  /** The converter is registered for bonds and for no other order. */
  lemma RegisteredForBondsOnly(order: nat)
    ensures order == RegisteredOrder <==> order == 2
  {
  }
}
