/** Normalisation of a row's phone number before it is addressed. */
module Phone {

  /** Default country code put in front of a number given without one. */
  const DefaultCountryCode: string := "+91"

  predicate HasPlus(number: string) {
    |number| > 0 && number[0] == '+'
  }

  /**
   * A number not starting with `+` gets the default country code in front;
   * one that already starts with `+` is kept as it is.
   */
  function Normalize(number: string): (r: string)
    ensures HasPlus(r)
    ensures r == number <==> HasPlus(number)
    ensures !HasPlus(number) ==> r == DefaultCountryCode + number
    ensures r[|r| - |number|..] == number
  {
    if HasPlus(number) then number else DefaultCountryCode + number
  }

  /** Normalising twice is normalising once. */
  lemma NormalizeIdempotent(number: string)
    ensures Normalize(Normalize(number)) == Normalize(number)
  {
  }
}
