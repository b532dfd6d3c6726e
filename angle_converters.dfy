/** Coefficient converters registered for angle terms (term order 3). */
module AngleConverters {

  /** The term order under which `ConvertNothing` is registered. */
  const RegisteredOrder: nat := 3

  /** The identity converter: angle coefficients already in canonical form. */
  function ConvertNothing(coeffs: seq<real>): (r: seq<real>)
    ensures |r| == |coeffs|
    ensures forall i :: 0 <= i < |coeffs| ==> r[i] == coeffs[i]
  {
    coeffs
  }

  /** Converting twice gives the same coefficients as converting once. */
  lemma ConvertNothingIdempotent(coeffs: seq<real>)
    ensures ConvertNothing(ConvertNothing(coeffs)) == ConvertNothing(coeffs)
  {
  }

  /** The converter is registered for angles and for no other order. */
  lemma RegisteredForAnglesOnly(order: nat)
    ensures order == RegisteredOrder <==> order == 3
  {
  }
}
