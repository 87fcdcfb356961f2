/**
 * The character classifier `is_base64` of the web server, and the base64
 * alphabet it recognises (table 1 of section 4 of RFC 4648).
 */
module Base64Chars {

  /** An `unsigned char`. */
  type Byte = x: int | 0 <= x < 256

  /** `isalnum` in the "C" locale: an ASCII letter or decimal digit. */
  predicate IsAlnum(c: Byte)
  {
    ('A' as int <= c <= 'Z' as int) || ('a' as int <= c <= 'z' as int) || ('0' as int <= c <= '9' as int)
  }

  /** Digit `i` of the base64 alphabet: A-Z, a-z, 0-9, '+', '/'. */
  function Base64Digit(i: nat): (c: Byte)
    requires i < 64
  {
    if i < 26 then 'A' as int + i
    else if i < 52 then 'a' as int + (i - 26)
    else if i < 62 then '0' as int + (i - 52)
    else if i == 62 then '+' as int
    else '/' as int
  }

  /** The position of an alphabet character in the alphabet: the inverse of Base64Digit. */
  function Base64Index(c: Byte): (i: nat)
    requires IsBase64(c)
    ensures i < 64 && Base64Digit(i) == c
  {
    if 'A' as int <= c <= 'Z' as int then c - 'A' as int
    else if 'a' as int <= c <= 'z' as int then c - 'a' as int + 26
    else if '0' as int <= c <= '9' as int then c - '0' as int + 52
    else if c == '+' as int then 62
    else 63
  }

  /** `is_base64`: a letter, a digit, '+' or '/'; the '=' padding is not a digit. */
  predicate IsBase64(c: Byte)
    ensures IsBase64(c) ==> c < 128 && c != '=' as int
  {
    IsAlnum(c) || c == '+' as int || c == '/' as int
  }

  /** IsBase64 accepts exactly the 64 characters of the base64 alphabet. */
  lemma IsBase64IsAlphabet(c: Byte)
    ensures IsBase64(c) <==> exists i :: 0 <= i < 64 && Base64Digit(i) == c
  {
    if IsBase64(c) {
      var i := Base64Index(c);
      assert 0 <= i < 64 && Base64Digit(i) == c;
    } else {
      forall i | 0 <= i < 64 ensures Base64Digit(i) != c {
        DigitIsBase64(i);
      }
    }
  }

  /** Every digit of the alphabet is accepted by IsBase64, and its index recovers it. */
  lemma DigitIsBase64(i: nat)
    requires i < 64
    ensures IsBase64(Base64Digit(i)) && Base64Index(Base64Digit(i)) == i
  {
  }

  /** The 64 digits of the alphabet are distinct. */
  lemma DigitsDistinct(i: nat, j: nat)
    requires i < 64 && j < 64 && i != j
    ensures Base64Digit(i) != Base64Digit(j)
  {
    DigitIsBase64(i);
    DigitIsBase64(j);
  }

  /** The padding character and the "C" locale white space are not base64 digits. */
  lemma PaddingAndSpaceRejected(c: Byte)
    requires c == '=' as int || c == ' ' as int || 9 <= c <= 13
    ensures !IsBase64(c)
  {
  }

  /** IsBase64 accepts no byte outside 7-bit ASCII. */
  lemma IsBase64IsAscii(c: Byte)
    requires IsBase64(c)
    ensures c < 128
  {
  }
}
