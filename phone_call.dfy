/**
 * The phone-number rule of the PhoneCall component: a number is accepted when
 * it contains at least seven ASCII digits, and the "Call Me" click forwards the
 * raw input, unchanged, only when the rule holds.
 */
module PhoneCall {
  import opened Wrappers

  /** The minimum number of digits an accepted number must contain. */
  const MinDigits: nat := 7

  /** `\D` of a regular expression without the `u` flag is every character outside `0`-`9`. */
  predicate IsDigit(c: char) {
    '0' <= c <= '9'
  }

  /** `replace(/\D/g, '')`: the digits of `s`, in their original order. */
  function StripNonDigits(s: string): (r: string)
    ensures |r| <= |s|
    ensures forall i :: 0 <= i < |r| ==> IsDigit(r[i])
  {
    if s == [] then []
    else (if IsDigit(s[0]) then [s[0]] else []) + StripNonDigits(s[1..])
  }

  /** The positions of `s` that hold a digit: a counting-free reference for how many digits it has. */
  function DigitPositions(s: string): set<nat>
  {
    set i: nat | i < |s| && IsDigit(s[i])
  }

  /**
   * The `isValid` flag of the component: the stripped string is at least
   * `MinDigits` long, that is, `s` has at least that many digit positions.
   */
  predicate IsValid(s: string): (valid: bool)
    ensures valid <==> |DigitPositions(s)| >= MinDigits
  {
    StripCountsDigits(s);
    |StripNonDigits(s)| >= MinDigits
  }

  /** Stripping distributes over concatenation. */
  lemma {:induction false} StripAppend(a: string, b: string)
    ensures StripNonDigits(a + b) == StripNonDigits(a) + StripNonDigits(b)
  {
    if a == [] {
      assert a + b == b;
    } else {
      assert (a + b)[1..] == a[1..] + b;
      StripAppend(a[1..], b);
    }
  }

  /** Stripping is a projection onto digit strings: it keeps a digit string as it is and is idempotent. */
  lemma {:induction false} StripIsProjection(s: string)
    ensures (forall i :: 0 <= i < |s| ==> IsDigit(s[i])) <==> StripNonDigits(s) == s
    ensures StripNonDigits(StripNonDigits(s)) == StripNonDigits(s)
  {
    if s != [] {
      StripIsProjection(s[1..]);
      if StripNonDigits(s) == s {
        assert IsDigit(StripNonDigits(s)[0]);
      }
      StripAppend(if IsDigit(s[0]) then [s[0]] else [], StripNonDigits(s[1..]));
    }
  }

  /** The stripped string is exactly as long as `s` has digit positions. */
  lemma {:induction false} StripCountsDigits(s: string)
    ensures |StripNonDigits(s)| == |DigitPositions(s)|
  {
    if s != [] {
      var n := |s| - 1;
      var init := s[..n];
      assert s == init + [s[n]];
      StripCountsDigits(init);
      StripAppend(init, [s[n]]);
      assert [s[n]][1..] == [];
      assert n !in DigitPositions(init);
      if IsDigit(s[n]) {
        assert DigitPositions(s) == DigitPositions(init) + {n};
      } else {
        assert DigitPositions(s) == DigitPositions(init);
      }
    }
  }

  /** Any number with six digits or fewer is rejected. */
  lemma FewDigitsInvalid(s: string)
    requires |DigitPositions(s)| < MinDigits
    ensures !IsValid(s)
  {
  }

  /** The empty input is rejected. */
  lemma EmptyInvalid()
    ensures !IsValid("")
  {
  }

  /** Inserting (or, read right to left, removing) non-digit characters never changes validity. */
  lemma NonDigitsIrrelevant(a: string, junk: string, b: string)
    requires forall i :: 0 <= i < |junk| ==> !IsDigit(junk[i])
    ensures StripNonDigits(a + junk + b) == StripNonDigits(a + b)
    ensures IsValid(a + junk + b) <==> IsValid(a + b)
  {
    StripNonDigitsOfJunk(junk);
    StripAppend(a + junk, b);
    StripAppend(a, junk);
    StripAppend(a, b);
  }

  lemma {:induction false} StripNonDigitsOfJunk(junk: string)
    requires forall i :: 0 <= i < |junk| ==> !IsDigit(junk[i])
    ensures StripNonDigits(junk) == []
  {
    if junk != [] {
      StripNonDigitsOfJunk(junk[1..]);
    }
  }

  /** Appending a digit adds exactly one digit, so a valid number stays valid. */
  lemma AppendDigit(s: string, d: char)
    requires IsDigit(d)
    ensures |StripNonDigits(s + [d])| == |StripNonDigits(s)| + 1
    ensures IsValid(s) ==> IsValid(s + [d])
  {
    StripAppend(s, [d]);
    assert [d][1..] == [];
  }

  /** More generally, inserting any text anywhere keeps a valid number valid. */
  lemma InsertionKeepsValid(a: string, t: string, b: string)
    ensures |StripNonDigits(a + b)| <= |StripNonDigits(a + t + b)|
    ensures IsValid(a + b) ==> IsValid(a + t + b)
  {
    StripAppend(a + t, b);
    StripAppend(a, t);
    StripAppend(a, b);
  }

  /**
   * The button's click handler (`isValid && onCall(phoneNumber)`, on a button
   * that is also disabled when the number is invalid): the number handed to
   * `onCall`, if any.
   */
  function OnClick(phoneNumber: string): (call: Option<string>)
    ensures call.Some? <==> |DigitPositions(phoneNumber)| >= MinDigits
    ensures call.Some? ==> call.value == phoneNumber
  {
    if IsValid(phoneNumber) then Some(phoneNumber) else None
  }

  /**
   * A click forwards the number as typed: whenever it holds any non-digit
   * (the placeholder's `+`, spaces, brackets or dashes) what `onCall` receives
   * differs from the stripped digits that were counted.
   */
  lemma ForwardsRawInput(phoneNumber: string, k: nat)
    requires IsValid(phoneNumber)
    requires k < |phoneNumber| && !IsDigit(phoneNumber[k])
    ensures OnClick(phoneNumber) == Some(phoneNumber)
    ensures OnClick(phoneNumber).value != StripNonDigits(phoneNumber)
  {
  }
}
