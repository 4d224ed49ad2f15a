/** The amount field (src/components/TokenInput.tsx): which edits reach the parent, and what MAX does. */
module TokenInput {
  import opened Types

  predicate IsDigit(c: char)
  {
    '0' <= c <= '9'
  }

  predicate IsSeparator(c: char)
  {
    c == '.' || c == ','
  }

  predicate AllDigits(s: string)
  {
    forall i :: 0 <= i < |s| ==> IsDigit(s[i])
  }

  /** `s` reads as the pattern `^[0-9]*[.,]?[0-9]*$` with the optional separator slot at index `k`. */
  predicate SplitsAt(s: string, k: int)
  {
    && 0 <= k <= |s|
    && AllDigits(s[..k])
    && (AllDigits(s[k..]) || (k < |s| && IsSeparator(s[k]) && AllDigits(s[k + 1..])))
  }

  /** The language of the regular expression `^[0-9]*[.,]?[0-9]*$`. */
  ghost predicate MatchesPattern(s: string)
  {
    exists k :: SplitsAt(s, k)
  }

  /** Every character is a digit, `.` or `,`. */
  predicate AmountChars(s: string)
  {
    forall i :: 0 <= i < |s| ==> IsDigit(s[i]) || IsSeparator(s[i])
  }

  /** How many `.` and `,` characters `s` holds. */
  function SeparatorCount(s: string): nat
  {
    if s == [] then 0
    else (if IsSeparator(s[0]) then 1 else 0) + SeparatorCount(s[1..])
  }

  /** The pattern run left to right as its two-state automaton: before, and after, the one separator it allows. */
  function AcceptsFrom(s: string, afterSeparator: bool): bool
  {
    if s == [] then true
    else if IsDigit(s[0]) then AcceptsFrom(s[1..], afterSeparator)
    else if IsSeparator(s[0]) && !afterSeparator then AcceptsFrom(s[1..], true)
    else false
  }

  /** `/^[0-9]*[.,]?[0-9]*$/.test(s)` */
  function IsAmountText(s: string): (matches: bool)
    ensures matches <==> AmountChars(s) && SeparatorCount(s) <= 1
  {
    AcceptedCharacters(s, false);
    AcceptsFrom(s, false)
  }

  lemma {:induction false} AfterSeparatorOnlyDigits(s: string)
    ensures AcceptsFrom(s, true) <==> AllDigits(s)
  {
    if s != [] {
      AfterSeparatorOnlyDigits(s[1..]);
      assert forall i :: 1 <= i < |s| ==> s[1..][i - 1] == s[i];
    }
  }

  /** The automaton accepts exactly the language of the pattern. */
  lemma {:induction false} AmountTextMatchesPattern(s: string)
    ensures IsAmountText(s) <==> MatchesPattern(s)
  {
    if s == [] {
      assert SplitsAt(s, 0);
    } else if IsDigit(s[0]) {
      AmountTextMatchesPattern(s[1..]);
      if MatchesPattern(s[1..]) {
        var k :| SplitsAt(s[1..], k);
        assert s[..k + 1] == [s[0]] + s[1..][..k];
        assert s[k + 1..] == s[1..][k..];
        assert SplitsAt(s, k + 1);
      }
      if MatchesPattern(s) {
        var k :| SplitsAt(s, k);
        if k == 0 {
          assert AllDigits(s);
          assert SplitsAt(s[1..], 0);
        } else {
          assert s[1..][..k - 1] == s[1..k];
          assert s[1..][k - 1..] == s[k..];
          assert SplitsAt(s[1..], k - 1);
        }
      }
    } else if IsSeparator(s[0]) {
      AfterSeparatorOnlyDigits(s[1..]);
      assert forall k :: 0 < k <= |s| ==> s[..k][0] == s[0];
      if AllDigits(s[1..]) {
        assert SplitsAt(s, 0);
      }
    } else {
      assert forall k :: 0 < k <= |s| ==> s[..k][0] == s[0];
    }
  }

  /** The automaton accepts exactly the texts made of digits, `.` and `,` with at most one separator. */
  lemma {:induction false} AcceptedCharacters(s: string, afterSeparator: bool)
    ensures AcceptsFrom(s, afterSeparator) <==>
              AmountChars(s) && SeparatorCount(s) <= (if afterSeparator then 0 else 1)
  {
    if s != [] {
      AcceptedCharacters(s[1..], afterSeparator);
      AcceptedCharacters(s[1..], true);
      assert forall i :: 1 <= i < |s| ==> s[1..][i - 1] == s[i];
    }
  }

  /** Deleting trailing characters from accepted text leaves accepted text. */
  lemma {:induction false} AcceptedPrefix(s: string, n: nat, afterSeparator: bool)
    requires n <= |s|
    requires AcceptsFrom(s, afterSeparator)
    ensures AcceptsFrom(s[..n], afterSeparator)
  {
    if n > 0 {
      assert s[..n][1..] == s[1..][..n - 1];
      AcceptedPrefix(s[1..], n - 1, afterSeparator || !IsDigit(s[0]));
    }
  }

  /** `handleChange`: the edited text reaches `onChange` only when it matches the pattern, and then unaltered. */
  function HandleChange(value: string): (forwarded: Option<string>)
    ensures forwarded.Some? <==> MatchesPattern(value)
    ensures forwarded.Some? ==> forwarded.value == value
  {
    AmountTextMatchesPattern(value);
    if IsAmountText(value) then Some(value) else None
  }

  /** Forwarded text holds only digits, `.` and `,`, with at most one separator; and every such text is forwarded. */
  lemma ForwardedCharacters(value: string)
    ensures HandleChange(value).Some? <==> AmountChars(value) && SeparatorCount(value) <= 1
  {
    AmountTextMatchesPattern(value);
    AcceptedCharacters(value, false);
  }

  /** Clearing the field is always forwarded. */
  lemma ClearingForwarded()
    ensures HandleChange("") == Some("")
  {
  }

  /** Deleting from the end of forwarded text gives text that is forwarded too. */
  lemma ForwardedPrefix(value: string, n: nat)
    requires n <= |value|
    requires HandleChange(value).Some?
    ensures HandleChange(value[..n]) == Some(value[..n])
  {
    AmountTextMatchesPattern(value);
    AmountTextMatchesPattern(value[..n]);
    AcceptedPrefix(value, n, false);
  }

  /** `handleMaxClick`: the balance text is forwarded as it is when truthy; nothing happens otherwise. */
  function HandleMaxClick(balance: Option<string>): (forwarded: Option<string>)
    ensures forwarded.Some? <==> Truthy(balance)
    ensures forwarded.Some? ==> forwarded == balance
  {
    if Truthy(balance) then balance else None
  }

  /** The MAX button is rendered beside a truthy balance, on an editable field only. */
  function ShowsMaxButton(balance: Option<string>, readonly: bool): (shown: bool)
    ensures shown ==> HandleMaxClick(balance) == balance
    ensures shown <==> HandleMaxClick(balance).Some? && !readonly
  {
    Truthy(balance) && !readonly
  }
}
