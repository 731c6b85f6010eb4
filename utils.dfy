/**
 * `anonymize_number`: mask the last three digits of a phone number.  The
 * repository-root `utils.py` holds the same function, character for
 * character, so this one definition models both.
 */
module Utils {
  import opened PyStr
  import opened PyInt

  /** A string of at least three digits loses its last three to "xxx";
      anything else (empty, "unknown" for a withheld number, letters) is
      returned as it is. */
  function AnonymizeNumber(number: string): (r: string)
    ensures |r| == |number|
    ensures IsDigits(number) && |number| >= 3 ==>
              r[..|r| - 3] == number[..|number| - 3] && r[|r| - 3..] == "xxx"
    ensures !(IsDigits(number) && |number| >= 3) ==> r == number
  {
    if IsDigits(number) && |number| >= 3 then number[..|number| - 3] + "xxx" else number
  }

  /** Masking a masked number changes nothing more. */
  lemma AnonymizeNumberIdempotent(number: string)
    ensures AnonymizeNumber(AnonymizeNumber(number)) == AnonymizeNumber(number)
  {
    var r := AnonymizeNumber(number);
    if r != number {
      assert r[|r| - 1] == 'x';
      assert !IsDigit(r[|r| - 1]);
    }
  }

  /** The result is the number itself or ends in 'x', and it holds a
      non-digit character other than 'x' only where the number did. */
  lemma AnonymizeNumberShape(number: string, sep: char)
    requires !IsDigit(sep) && sep != 'x'
    ensures var r := AnonymizeNumber(number);
            (r == number || r[|r| - 1] == 'x') && (sep in r ==> sep in number)
  {
  }
}
