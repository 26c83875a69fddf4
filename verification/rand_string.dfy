/**
 * myrand/string.go: random strings over fixed ASCII alphabets.
 *
 * The source draws `rand.Int()` once per generated byte. Here the draws are
 * a parameter `rnd`: `rnd(i)` is the non-negative value of the i-th draw of
 * one buildString call, so every property below holds whatever the random
 * source yields.
 */
module RandString {

  const AlphabetLowercase := "abcdefghijklmnopqrstuvwxyz"
  const AlphabetUppercase := "ABCDEFGHIJKLMNOPQRSTUVWXYZ"
  const AlphabetNumbers := "0123456789"
  const AlphabetAlphaNumeric := AlphabetLowercase + AlphabetUppercase + AlphabetNumbers

  /** An ASCII letter. */
  predicate IsLetter(c: char)
  {
    'a' <= c <= 'z' || 'A' <= c <= 'Z'
  }

  /** An ASCII decimal digit. */
  predicate IsDigit(c: char)
  {
    '0' <= c <= '9'
  }

  /** The three alphabets have 26, 26 and 10 characters, 62 together. */
  lemma AlphabetSizes()
    ensures |AlphabetLowercase| == 26 && |AlphabetUppercase| == 26 && |AlphabetNumbers| == 10
    ensures |AlphabetAlphaNumeric| == 62
  {
  }

  /** The letters Indentifier draws its first byte from: both letter alphabets. */
  const AlphabetLetters := AlphabetLowercase + AlphabetUppercase

  /** The lowercase alphabet holds only letters. */
  lemma LowercaseClass()
    ensures forall c :: c in AlphabetLowercase ==> IsLetter(c)
  {
  }

  /** The uppercase alphabet holds only letters. */
  lemma UppercaseClass()
    ensures forall c :: c in AlphabetUppercase ==> IsLetter(c)
  {
  }

  /** Both letter alphabets together: 52 letters. */
  lemma LettersClass()
    ensures |AlphabetLetters| == 52
    ensures forall c :: c in AlphabetLetters ==> IsLetter(c)
  {
    LowercaseClass();
    UppercaseClass();
    forall c | c in AlphabetLetters
      ensures IsLetter(c)
    {
      assert c in AlphabetLowercase || c in AlphabetUppercase;
    }
  }

  /** The number alphabet holds only digits. */
  lemma NumbersClass()
    ensures forall c :: c in AlphabetNumbers ==> IsDigit(c)
  {
  }

  /** The alphanumeric alphabet holds only letters and digits. */
  lemma AlphaNumericClasses()
    ensures |AlphabetAlphaNumeric| == 62
    ensures forall c :: c in AlphabetAlphaNumeric ==> IsLetter(c) || IsDigit(c)
  {
    LettersClass();
    NumbersClass();
    assert AlphabetAlphaNumeric == AlphabetLetters + AlphabetNumbers;
    forall c | c in AlphabetAlphaNumeric
      ensures IsLetter(c) || IsDigit(c)
    {
      assert c in AlphabetLetters || c in AlphabetNumbers;
    }
  }

  /**
   * buildString: the empty string for `length <= 0`; otherwise `length`
   * bytes, the i-th picked from the alphabet by the i-th draw modulo the
   * alphabet's size. A draw is non-negative and a non-empty alphabet is only
   * needed when a byte is drawn.
   */
  method BuildString(alphabet: string, length: int, rnd: nat -> nat) returns (s: string)
    requires length > 0 ==> alphabet != []
    ensures |s| == if length <= 0 then 0 else length
    ensures forall i :: 0 <= i < |s| ==> s[i] == alphabet[rnd(i) % |alphabet|]
    ensures forall i :: 0 <= i < |s| ==> s[i] in alphabet
  {
    if length <= 0 {
      return "";
    }
    s := "";
    var k := 0;
    while k < length
      invariant 0 <= k <= length && |s| == k
      invariant forall i :: 0 <= i < k ==> s[i] == alphabet[rnd(i) % |alphabet|]
    {
      s := s + [alphabet[rnd(k) % |alphabet|]];
      k := k + 1;
    }
  }

  /** AlphaNumeric: `max(length, 0)` letters and digits. */
  method AlphaNumeric(length: int, rnd: nat -> nat) returns (s: string)
    ensures |s| == if length <= 0 then 0 else length
    ensures forall i :: 0 <= i < |s| ==> s[i] == AlphabetAlphaNumeric[rnd(i) % 62]
    ensures forall i :: 0 <= i < |s| ==> IsLetter(s[i]) || IsDigit(s[i])
  {
    AlphaNumericClasses();
    s := BuildString(AlphabetAlphaNumeric, length, rnd);
  }

  /**
   * Indentifier: one letter (from the first draw) followed by `length - 1`
   * letters and digits (from the later draws), so never empty, even for
   * `length <= 0`.
   */
  method Indentifier(length: int, rnd: nat -> nat) returns (s: string)
    ensures |s| == 1 + (if length - 1 <= 0 then 0 else length - 1)
    ensures IsLetter(s[0])
    ensures forall i :: 0 <= i < |s| ==> IsLetter(s[i]) || IsDigit(s[i])
  {
    LettersClass();
    AlphaNumericClasses();
    var head := BuildString(AlphabetLetters, 1, rnd);
    var tail := BuildString(AlphabetAlphaNumeric, length - 1, (k: nat) => rnd(k + 1));
    s := head + tail;
    assert IsLetter(head[0]);
    JoinLettersAndDigits(head, tail);
  }

  /** A string of letters followed by a string of letters and digits holds only letters and digits. */
  lemma JoinLettersAndDigits(head: string, tail: string)
    requires forall i :: 0 <= i < |head| ==> IsLetter(head[i])
    requires forall i :: 0 <= i < |tail| ==> IsLetter(tail[i]) || IsDigit(tail[i])
    ensures forall i :: 0 <= i < |head + tail| ==> IsLetter((head + tail)[i]) || IsDigit((head + tail)[i])
  {
  }
}
