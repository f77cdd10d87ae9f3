/**
 * `ForgotPasswordPage.ts`: the request flag, the six-place `verificationCode` array written by
 * typing and pasting, and the check of the code read back from the six input boxes.
 */
module ForgotPasswordPage {
  import opened Wrappers
  import opened Text

  const CodeLength := 6
  const DemoCode := "123456"
  const EnterEmail := "Please enter your email"
  const EnterAllDigits := "Please enter all 6 digits"
  const WrongCode := "Wrong code"

  /**
   * `value.replace(/[^0-9]/g, '').slice(-1)`: the last digit of the text as a one-character
   * string, or `''` when the text holds no digit.
   */
  function LastDigit(s: string): (d: string)
    ensures d == "" <==> forall i :: 0 <= i < |s| ==> !IsDigit(s[i])
    ensures d != "" ==> |d| == 1 && exists i :: 0 <= i < |s| && s[i] == d[0] && IsDigit(s[i]) &&
                                              forall j :: i < j < |s| ==> !IsDigit(s[j])
  {
    if s == [] then ""
    else if IsDigit(s[|s| - 1]) then [s[|s| - 1]]
    else
      var d := LastDigit(s[..|s| - 1]);
      assert forall i :: 0 <= i < |s| - 1 ==> s[..|s| - 1][i] == s[i];
      d
  }

  lemma {:induction false} DigitsAppend(s: string, c: char)
    ensures Digits(s + [c]) == Digits(s) + (if IsDigit(c) then [c] else [])
    decreases |s|
  {
    var last: string := if IsDigit(c) then [c] else [];
    if s == [] {
      assert [c][1..] == [];
      assert Digits([c]) == last + Digits([]);
      assert s + [c] == [c];
    } else {
      var t := s + [c];
      assert t[0] == s[0] && t[1..] == s[1..] + [c];
      var head: string := if IsDigit(s[0]) then [s[0]] else [];
      DigitsAppend(s[1..], c);
      assert Digits(t) == head + (Digits(s[1..]) + last);
      assert Digits(s) == head + Digits(s[1..]);
    }
  }

  /** The last-digit rule is the regular-expression pipeline: the final character of `Digits(s)`. */
  lemma {:induction false} LastDigitIsSliceOfDigits(s: string)
    ensures var ds := Digits(s); LastDigit(s) == ds[(if |ds| == 0 then 0 else |ds| - 1)..]
    decreases |s|
  {
    if s != [] {
      var init := s[..|s| - 1];
      assert s == init + [s[|s| - 1]];
      DigitsAppend(init, s[|s| - 1]);
      if !IsDigit(s[|s| - 1]) {
        LastDigitIsSliceOfDigits(init);
      }
    }
  }

  /** `(clipboardData?.getData('text') || '').replace(/[^0-9]/g, '').split('').slice(0, 6)` */
  function PastedDigits(pastedText: Option<string>): (numbers: string)
    ensures |numbers| <= CodeLength
    ensures |numbers| <= |Digits(pastedText.GetOr(""))| && numbers == Digits(pastedText.GetOr(""))[..|numbers|]
    ensures |numbers| == CodeLength || numbers == Digits(pastedText.GetOr(""))
  {
    var ds := Digits(pastedText.GetOr(""));
    if |ds| <= CodeLength then ds else ds[..CodeLength]
  }

  /** The `code` of `confirmCode`: the box values joined with `''`. */
  function Concat(values: seq<string>): string {
    if values == [] then "" else values[0] + Concat(values[1..])
  }

  /** Each character in a box of its own, as `onPaste` leaves the boxes. */
  function Singles(cs: string): (boxes: seq<string>)
    ensures |boxes| == |cs| && forall i :: 0 <= i < |cs| ==> boxes[i] == [cs[i]]
  {
    seq(|cs|, i requires 0 <= i < |cs| => [cs[i]])
  }

  lemma {:induction false} ConcatSingles(cs: string)
    ensures Concat(Singles(cs)) == cs
    decreases |cs|
  {
    if cs != [] {
      assert Singles(cs)[1..] == Singles(cs[1..]);
      ConcatSingles(cs[1..]);
    }
  }

  /**
   * `confirmCode`: a code whose length is not 6 is refused first, then anything but the demo
   * code; only the demo code goes on to `/reset-password`.
   */
  function ConfirmCode(values: seq<string>): (r: Feedback)
    ensures r.nav == Navigate(["/reset-password"]) <==> Concat(values) == DemoCode
    ensures r.nav == NoNav <==> Concat(values) != DemoCode
    ensures |Concat(values)| != CodeLength ==> r.alert == Some(EnterAllDigits)
    ensures |Concat(values)| == CodeLength && Concat(values) != DemoCode ==> r.alert == Some(WrongCode)
    ensures r.nav.Navigate? ==> r.alert == None
  {
    var code := Concat(values);
    if |code| != CodeLength then Feedback(Some(EnterAllDigits), NoNav)
    else if code != DemoCode then Feedback(Some(WrongCode), NoNav)
    else Feedback(None, Navigate(["/reset-password"]))
  }

  /** Pasting text whose first six digits are the demo code into the six boxes passes `confirmCode`. */
  lemma PastedDemoCodeConfirms(pastedText: string)
    requires |Digits(pastedText)| >= CodeLength && Digits(pastedText)[..CodeLength] == DemoCode
    ensures ConfirmCode(Singles(PastedDigits(Some(pastedText)))) == Feedback(None, Navigate(["/reset-password"]))
  {
    ConcatSingles(PastedDigits(Some(pastedText)));
  }

  class ForgotPasswordPageComponent {
    var isCodeSent: bool
    const verificationCode: array<string>

    predicate Valid()
      reads this
    {
      verificationCode.Length == CodeLength
    }

    constructor()
      ensures Valid() && fresh(verificationCode)
      ensures !isCodeSent && forall i :: 0 <= i < CodeLength ==> verificationCode[i] == ""
    {
      isCodeSent := false;
      verificationCode := new string[CodeLength](_ => "");
    }

    /** `sendRequestCode`: an empty email is refused; otherwise the code counts as sent. */
    method SendRequestCode(email: string) returns (alert: Option<string>)
      modifies this
      ensures email == "" ==> alert == Some(EnterEmail) && isCodeSent == old(isCodeSent)
      ensures email != "" ==> alert == None && isCodeSent
    {
      if email == "" {
        return Some(EnterEmail);
      }
      isCodeSent := true;
      alert := None;
    }

    /**
     * `onCodeInput` on box `index` of `inputs`: `verificationCode` keeps only the last digit typed,
     * or becomes empty, while the box itself is left empty.
     */
    method OnCodeInput(inputs: array<string>, index: int)
      requires 0 <= index < verificationCode.Length && index < inputs.Length && inputs != verificationCode
      modifies verificationCode, inputs
      ensures verificationCode[..] == old(verificationCode[..])[index := LastDigit(old(inputs[index]))]
      ensures inputs[..] == old(inputs[..])[index := ""]
    {
      var currentValue := inputs[index];
      inputs[index] := "";
      verificationCode[index] := "";
      if currentValue != "" {
        var digit := LastDigit(currentValue);
        if digit != "" {
          inputs[index] := digit;
          verificationCode[index] := digit;
          inputs[index] := "";
        }
      }
    }

    /**
     * `onPaste`: the first (at most six) pasted digits go, one per position, into the input boxes
     * that exist and into `verificationCode`; later positions keep what they held.
     */
    method OnPaste(pastedText: Option<string>, inputs: array<string>)
      requires Valid() && inputs != verificationCode
      modifies verificationCode, inputs
      ensures var numbers := PastedDigits(pastedText);
              var k := if |numbers| < inputs.Length then |numbers| else inputs.Length;
              (forall i :: 0 <= i < k ==> verificationCode[i] == [numbers[i]] && inputs[i] == [numbers[i]]) &&
              (forall i :: k <= i < verificationCode.Length ==> verificationCode[i] == old(verificationCode[i])) &&
              (forall i :: k <= i < inputs.Length ==> inputs[i] == old(inputs[i]))
    {
      var numbers := PastedDigits(pastedText);
      var k := if |numbers| < inputs.Length then |numbers| else inputs.Length;
      for index := 0 to |numbers|
        invariant forall i :: 0 <= i < index && i < k ==> verificationCode[i] == [numbers[i]] && inputs[i] == [numbers[i]]
        invariant forall i :: index <= i < verificationCode.Length || k <= i < verificationCode.Length ==>
                    verificationCode[i] == old(verificationCode[i])
        invariant forall i :: index <= i < inputs.Length || k <= i < inputs.Length ==> inputs[i] == old(inputs[i])
      {
        if index < inputs.Length {
          inputs[index] := [numbers[index]];
          verificationCode[index] := [numbers[index]];
        }
      }
    }
  }
}
