/** The two patterns masked in every shown string: email addresses and phone numbers. */
module Masking {
  import opened Market

  predicate IsLetter(c: char) {
    'A' <= c <= 'Z' || 'a' <= c <= 'z'
  }

  predicate IsDigit(c: char) {
    '0' <= c <= '9'
  }

  /** The characters of a host name. */
  predicate IsHostChar(c: char) {
    IsLetter(c) || IsDigit(c) || c == '.' || c == '-'
  }

  /** The characters in front of the @ of an address. */
  predicate IsUserChar(c: char) {
    IsHostChar(c) || c == '_' || c == '%' || c == '+'
  }

  /** The classes of characters by their codes in ASCII. */
  lemma ClassesAreExact(c: char)
    ensures IsDigit(c) <==> 48 <= c as int <= 57
    ensures IsLetter(c) <==> 65 <= c as int <= 90 || 97 <= c as int <= 122
    ensures IsHostChar(c) <==> IsLetter(c) || 48 <= c as int <= 57 || c in {'.', '-'}
    ensures IsUserChar(c) <==> IsLetter(c) || 48 <= c as int <= 57 || c in {'.', '_', '%', '+', '-'}
  {
  }

  // ---------------------------------------------------------------- what is to be masked

  /** A plus sign with eight digits behind it. */
  ghost predicate PhoneAt(s: string, i: int) {
    0 <= i && i + 9 <= |s| && s[i] == '+' && forall k :: i < k < i + 9 ==> IsDigit(s[k])
  }

  /** An @ behind a user character and in front of a host name, which goes on with a dot and two letters. */
  ghost predicate EmailAt(s: string, at: int, dot: int) {
    && 0 < at && at + 1 < dot && dot + 2 < |s|
    && s[at] == '@' && IsUserChar(s[at - 1]) && (forall k :: at < k < dot ==> IsHostChar(s[k]))
    && s[dot] == '.' && IsLetter(s[dot + 1]) && IsLetter(s[dot + 2])
  }

  ghost predicate HasPhone(s: string) {
    exists i :: PhoneAt(s, i)
  }

  ghost predicate HasEmail(s: string) {
    exists at, dot :: EmailAt(s, at, dot)
  }

  // ---------------------------------------------------------------- masking

  /** How many digits follow from position i on. */
  function DigitsFrom(s: string, i: nat): (n: nat)
    requires i <= |s|
    ensures i + n <= |s| && (forall k :: i <= k < i + n ==> IsDigit(s[k])) && (i + n < |s| ==> !IsDigit(s[i + n]))
    decreases |s| - i
  {
    if i < |s| && IsDigit(s[i]) then 1 + DigitsFrom(s, i + 1) else 0
  }

  const PHONE := "[redacted-phone]"
  const EMAIL := "[redacted-email]"

  /** Where the number that starts at position i ends: a plus sign and eight to fifteen digits. Without one, i. */
  function PhoneEnd(s: string, i: nat): (end: nat)
    requires i < |s|
    ensures i <= end <= |s|
  {
    var n := if s[i] == '+' then DigitsFrom(s, i + 1) else 0;
    if n < 8 then i else i + 1 + if n < 15 then n else 15
  }

  /** The text from position i on, with each number replaced. */
  function MaskPhones(s: string, i: nat): string
    requires i <= |s|
    decreases |s| - i
  {
    if i == |s| then ""
    else if PhoneEnd(s, i) == i then [s[i]] + MaskPhones(s, i + 1)
    else PHONE + MaskPhones(s, PhoneEnd(s, i))
  }

  /** Where the run of user characters from position i on ends. */
  function UserEnd(s: string, i: nat): (j: nat)
    requires i <= |s|
    ensures i <= j <= |s| && (forall k :: i <= k < j ==> IsUserChar(s[k])) && (j < |s| ==> !IsUserChar(s[j]))
    decreases |s| - i
  {
    if i < |s| && IsUserChar(s[i]) then UserEnd(s, i + 1) else i
  }

  /** Where the run of letters from position i on ends. */
  function LettersEnd(s: string, i: nat): (j: nat)
    requires i <= |s|
    ensures i <= j <= |s| && (forall k :: i <= k < j ==> IsLetter(s[k])) && (j < |s| ==> !IsLetter(s[j]))
    decreases |s| - i
  {
    if i < |s| && IsLetter(s[i]) then LettersEnd(s, i + 1) else i
  }

  /** A host name starts at position i and has its last dot at position dot. */
  predicate HostDot(s: string, i: nat, dot: nat) {
    && i < dot && dot + 2 < |s| && (forall k :: i <= k < dot ==> IsHostChar(s[k]))
    && s[dot] == '.' && IsLetter(s[dot + 1]) && IsLetter(s[dot + 2])
  }

  /** The greatest such dot before position n, as a greedy match finds it. */
  function LastHostDot(s: string, i: nat, n: nat): (dot: Option<nat>)
    ensures dot.Some? ==> HostDot(s, i, dot.value)
    ensures forall k: nat :: k < n && (dot.None? || k > dot.value) ==> !HostDot(s, i, k)
  {
    if n == 0 then None else if HostDot(s, i, n - 1) then Some(n - 1) else LastHostDot(s, i, n - 1)
  }

  /** Where the address that starts at position i ends: its last two letters or more. Without one, i. */
  function AddressEnd(s: string, i: nat): (end: nat)
    requires i < |s|
    ensures i <= end <= |s|
  {
    var at := UserEnd(s, i);
    if at == i || at == |s| || s[at] != '@' then i
    else
      var dot := LastHostDot(s, at + 1, |s|);
      if dot.None? then i else LettersEnd(s, dot.value + 1)
  }

  /** The text from position i on, with each address replaced. */
  function MaskEmails(s: string, i: nat): string
    requires i <= |s|
    decreases |s| - i
  {
    if i == |s| then ""
    else if AddressEnd(s, i) == i then [s[i]] + MaskEmails(s, i + 1)
    else EMAIL + MaskEmails(s, AddressEnd(s, i))
  }

  /** Addresses are masked first, then phone numbers. */
  function Mask(s: string): string {
    MaskPhones(MaskEmails(s, 0), 0)
  }

  // ---------------------------------------------------------------- nothing is left

  lemma PhoneNotIn(front: string, rest: string, i: int)
    requires i >= |front| && !PhoneAt(rest, i - |front|)
    ensures !PhoneAt(front + rest, i)
  {
    assert forall k :: 0 <= k < |rest| ==> rest[k] == (front + rest)[|front| + k];
  }

  lemma EmailNotIn(front: string, rest: string, at: int, dot: int)
    requires at > |front| && !EmailAt(rest, at - |front|, dot - |front|)
    ensures !EmailAt(front + rest, at, dot)
  {
    assert forall k :: 0 <= k < |rest| ==> rest[k] == (front + rest)[|front| + k];
  }

  /** The masked text has no more digits in front than the text. */
  lemma {:induction false} DigitsStop(s: string, i: nat)
    requires i <= |s|
    ensures var masked, n := MaskPhones(s, i), DigitsFrom(s, i); n < |masked| ==> !IsDigit(masked[n])
    decreases |s| - i
  {
    if i < |s| && IsDigit(s[i]) {
      DigitsStop(s, i + 1);
    }
  }

  /** What is not masked at position i is no number. */
  lemma NoPhoneHere(s: string, i: nat, p: int)
    requires i < |s| && PhoneEnd(s, i) == i && p <= 0
    ensures !PhoneAt([s[i]] + MaskPhones(s, i + 1), p)
  {
    var rest, n := MaskPhones(s, i + 1), DigitsFrom(s, i + 1);
    DigitsStop(s, i + 1);
    assert n + 1 < |[s[i]] + rest| ==> ([s[i]] + rest)[n + 1] == rest[n];
  }

  lemma NoPhoneInText(rest: string, p: int)
    requires p < 16
    ensures !PhoneAt(PHONE + rest, p)
  {
    assert 0 <= p ==> (PHONE + rest)[p] == PHONE[p];
  }

  lemma {:induction false} NoPhoneLeft(s: string, i: nat, p: int)
    requires i <= |s|
    ensures !PhoneAt(MaskPhones(s, i), p)
    decreases |s| - i
  {
    if i < |s| {
      var masked, end := MaskPhones(s, i), PhoneEnd(s, i);
      if end == i {
        var rest := MaskPhones(s, i + 1);
        assert masked == [s[i]] + rest;
        hide MaskPhones, PhoneEnd, PhoneAt;
        if p <= 0 {
          NoPhoneHere(s, i, p);
        } else {
          NoPhoneLeft(s, i + 1, p - 1);
          PhoneNotIn([s[i]], rest, p);
        }
      } else {
        var rest := MaskPhones(s, end);
        assert masked == PHONE + rest && |PHONE| == 16;
        hide MaskPhones, PhoneEnd, PhoneAt, PHONE;
        if p < 16 {
          NoPhoneInText(rest, p);
        } else {
          NoPhoneLeft(s, end, p - 16);
          PhoneNotIn(PHONE, rest, p);
        }
      }
    }
  }

  /** The first n characters of b are those of a from position i on. */
  predicate SameFrom(a: string, i: nat, b: string, n: nat) {
    i + n <= |a| && n <= |b| && forall k :: i <= k < i + n ==> a[k] == b[k - i]
  }

  /** No bracket opens among the first n characters. */
  predicate Bare(s: string, n: nat) {
    n <= |s| && forall k :: 0 <= k < n ==> s[k] != '['
  }

  lemma BareTail(c: char, rest: string, n: nat)
    requires Bare([c] + rest, n) && n > 0
    ensures Bare(rest, n - 1)
  {
    assert forall k :: 0 <= k < n - 1 ==> rest[k] == ([c] + rest)[k + 1];
  }

  lemma SameTail(s: string, i: nat, rest: string, n: nat)
    requires i < |s| && n > 0 && SameFrom(s, i + 1, rest, n - 1)
    ensures SameFrom(s, i, [s[i]] + rest, n)
  {
  }

  /** Up to the first bracket the masked text is the text. */
  lemma {:induction false} PhonesFollow(s: string, i: nat, n: nat)
    requires i <= |s| && Bare(MaskPhones(s, i), n)
    ensures SameFrom(s, i, MaskPhones(s, i), n)
    decreases |s| - i
  {
    if n > 0 && PhoneEnd(s, i) == i {
      BareTail(s[i], MaskPhones(s, i + 1), n);
      PhonesFollow(s, i + 1, n - 1);
      SameTail(s, i, MaskPhones(s, i + 1), n);
    } else if n > 0 {
      assert MaskPhones(s, i)[0] == PHONE[0];
    }
  }

  lemma {:induction false} EmailsFollow(s: string, i: nat, n: nat)
    requires i <= |s| && Bare(MaskEmails(s, i), n)
    ensures SameFrom(s, i, MaskEmails(s, i), n)
    decreases |s| - i
  {
    if n > 0 && AddressEnd(s, i) == i {
      BareTail(s[i], MaskEmails(s, i + 1), n);
      EmailsFollow(s, i + 1, n - 1);
      SameTail(s, i, MaskEmails(s, i + 1), n);
    } else if n > 0 {
      assert MaskEmails(s, i)[0] == EMAIL[0];
    }
  }

  /** An address is bare up to the letters behind its dot. */
  lemma AddressIsBare(text: string, dot: nat)
    requires EmailAt(text, 1, dot)
    ensures Bare(text, dot + 3)
  {
  }

  /** An address whose user part ends at position i is found at position i. */
  lemma AddressFound(s: string, i: nat, text: string, dot: nat)
    requires EmailAt(text, 1, dot) && SameFrom(s, i, text, dot + 3)
    ensures AddressEnd(s, i) > i
  {
    assert s[i + 1] == text[1] && s[i] == text[0];
    assert UserEnd(s, i + 1) == i + 1;
    assert HostDot(s, i + 2, i + dot) by {
      assert s[i + dot] == text[dot] && s[i + dot + 1] == text[dot + 1] && s[i + dot + 2] == text[dot + 2];
    }
  }

  lemma AddressSeen(s: string, i: nat, dot: nat)
    requires i < |s| && EmailAt([s[i]] + MaskEmails(s, i + 1), 1, dot)
    ensures AddressEnd(s, i) > i
  {
    var rest := MaskEmails(s, i + 1);
    AddressIsBare([s[i]] + rest, dot);
    BareTail(s[i], rest, dot + 3);
    EmailsFollow(s, i + 1, dot + 2);
    SameTail(s, i, rest, dot + 3);
    hide MaskEmails, AddressEnd;
    AddressFound(s, i, [s[i]] + rest, dot);
  }

  /** What is not masked at position i is no end of a user part. */
  lemma NoEmailHere(s: string, i: nat, at: int, dot: int)
    requires i < |s| && AddressEnd(s, i) == i && at <= 1
    ensures !EmailAt([s[i]] + MaskEmails(s, i + 1), at, dot)
  {
    if EmailAt([s[i]] + MaskEmails(s, i + 1), at, dot) {
      AddressSeen(s, i, dot);
    }
  }

  lemma NoEmailStep(s: string, i: nat, at: int, dot: int)
    requires i < |s| && AddressEnd(s, i) == i
    requires at > 1 ==> !EmailAt(MaskEmails(s, i + 1), at - 1, dot - 1)
    ensures !EmailAt(MaskEmails(s, i), at, dot)
  {
    var rest := MaskEmails(s, i + 1);
    assert MaskEmails(s, i) == [s[i]] + rest;
    hide MaskEmails, AddressEnd, EmailAt;
    if at <= 1 {
      NoEmailHere(s, i, at, dot);
    } else {
      EmailNotIn([s[i]], rest, at, dot);
    }
  }

  lemma NoEmailJump(s: string, i: nat, at: int, dot: int)
    requires i < |s| && AddressEnd(s, i) > i
    requires at > 16 ==> !EmailAt(MaskEmails(s, AddressEnd(s, i)), at - 16, dot - 16)
    ensures !EmailAt(MaskEmails(s, i), at, dot)
  {
    TextsAreBoxed();
    hide EMAIL, PHONE, EmailAt;
    var rest := MaskEmails(s, AddressEnd(s, i));
    assert MaskEmails(s, i) == EMAIL + rest;
    if at > 16 {
      EmailNotIn(EMAIL, rest, at, dot);
    } else {
      BracketsAround(EMAIL, rest, at, dot);
    }
  }

  lemma {:induction false} NoEmailLeft(s: string, i: nat, at: int, dot: int)
    requires i <= |s|
    ensures !EmailAt(MaskEmails(s, i), at, dot)
    decreases |s| - i
  {
    if i == |s| {
      assert MaskEmails(s, i) == "";
    } else {
      hide MaskEmails, EmailAt;
      var end := AddressEnd(s, i);
      hide AddressEnd;
      if end == i {
        NoEmailLeft(s, i + 1, at - 1, dot - 1);
        NoEmailStep(s, i, at, dot);
      } else {
        NoEmailLeft(s, end, at - 16, dot - 16);
        NoEmailJump(s, i, at, dot);
      }
    }
  }

  /** Sixteen characters without an @, and a bracket at the end. */
  predicate Boxed(front: string) {
    |front| == 16 && front[15] == ']' && forall k :: 0 <= k < 16 ==> front[k] != '@'
  }

  lemma TextsAreBoxed()
    ensures Boxed(PHONE) && Boxed(EMAIL)
  {
  }

  /** The replacement texts are no user parts. */
  lemma BracketsAround(front: string, rest: string, at: int, dot: int)
    requires Boxed(front) && at <= 16
    ensures !EmailAt(front + rest, at, dot)
  {
    assert 0 <= at < 16 ==> (front + rest)[at] == front[at];
    assert at == 16 ==> (front + rest)[15] == front[15];
  }

  /** Masking phone numbers makes no new address. */
  lemma {:induction false} NoEmailMade(s: string, i: nat, at: int, dot: int)
    requires i <= |s| && forall a, d :: !EmailAt(s, a, d)
    ensures !EmailAt(MaskPhones(s, i), at, dot)
    decreases |s| - i
  {
    if i < |s| {
      var masked, end := MaskPhones(s, i), PhoneEnd(s, i);
      if end == i {
        assert masked == [s[i]] + MaskPhones(s, i + 1);
        if at > 1 {
          NoEmailMade(s, i + 1, at - 1, dot - 1);
          EmailNotIn([s[i]], MaskPhones(s, i + 1), at, dot);
        } else if EmailAt(masked, at, dot) {
          AddressIsBare(masked, dot);
          PhonesFollow(s, i, dot + 3);
          SameAddress(s, i, masked, dot);
        }
      } else {
        TextsAreBoxed();
        if at > 16 {
          NoEmailMade(s, end, at - 16, dot - 16);
          EmailNotIn(PHONE, MaskPhones(s, end), at, dot);
        } else {
          BracketsAround(PHONE, MaskPhones(s, end), at, dot);
        }
      }
    }
  }

  lemma SameAddress(s: string, i: nat, text: string, dot: nat)
    requires EmailAt(text, 1, dot) && SameFrom(s, i, text, dot + 3)
    ensures EmailAt(s, i + 1, i + dot)
  {
    assert s[i + 1] == text[1] && s[i] == text[0];
    assert s[i + dot] == text[dot] && s[i + dot + 1] == text[dot + 1] && s[i + dot + 2] == text[dot + 2];
  }

  /** A masked text shows no email address and no phone number. */
  lemma NothingLeft(s: string)
    ensures !HasEmail(Mask(s)) && !HasPhone(Mask(s))
  {
    var text := MaskEmails(s, 0);
    forall at, dot ensures !EmailAt(text, at, dot) {
      NoEmailLeft(s, 0, at, dot);
    }
    forall at, dot ensures !EmailAt(Mask(s), at, dot) {
      NoEmailMade(text, 0, at, dot);
    }
    forall i ensures !PhoneAt(Mask(s), i) {
      NoPhoneLeft(text, 0, i);
    }
  }

  /** A plus sign and its digits, all of them or fifteen. */
  ghost predicate IsWholeNumber(s: string, i: nat, end: nat) {
    && i + 9 <= end <= i + 16 && end <= |s| && s[i] == '+' && (forall k :: i < k < end ==> IsDigit(s[k]))
    && (end == i + 16 || end == |s| || !IsDigit(s[end]))
  }

  /** An address with user part, @ and host name, up to the last dot that has two letters behind it, and all of these
      letters. */
  ghost predicate IsWholeAddress(s: string, i: nat, at: nat, dot: nat, end: nat) {
    && i < at < dot < end <= |s| && (forall k :: i <= k < at ==> IsUserChar(s[k])) && EmailAt(s, at, dot)
    && (forall k, host: nat :: dot < k < |s| && host == at + 1 ==> !HostDot(s, host, k))
    && (forall k :: dot < k < end ==> IsLetter(s[k])) && (end == |s| || !IsLetter(s[end]))
  }

  /** What is replaced is a whole number or a whole address. */
  lemma WholeIsMasked(s: string, i: nat)
    requires i < |s|
    ensures PhoneEnd(s, i) > i ==> IsWholeNumber(s, i, PhoneEnd(s, i))
    ensures AddressEnd(s, i) > i ==> exists at, dot :: IsWholeAddress(s, i, at, dot, AddressEnd(s, i))
  {
    if AddressEnd(s, i) > i {
      var at := UserEnd(s, i);
      var dot := LastHostDot(s, at + 1, |s|).value;
      assert EmailAt(s, at, dot);
      assert IsWholeAddress(s, i, at, dot, AddressEnd(s, i));
    }
  }

  // ---------------------------------------------------------------- nothing else is touched

  lemma {:induction false} PhonesUntouched(s: string, i: nat)
    requires i <= |s| && !HasPhone(s)
    ensures MaskPhones(s, i) == s[i..]
    decreases |s| - i
  {
    if i < |s| {
      assert !PhoneAt(s, i);
      assert PhoneEnd(s, i) == i;
      PhonesUntouched(s, i + 1);
    }
  }

  lemma {:induction false} EmailsUntouched(s: string, i: nat)
    requires i <= |s| && !HasEmail(s)
    ensures MaskEmails(s, i) == s[i..]
    decreases |s| - i
  {
    if i < |s| {
      if AddressEnd(s, i) > i {
        AddressIsEmail(s, i);
      }
      EmailsUntouched(s, i + 1);
    }
  }

  lemma AddressIsEmail(s: string, i: nat)
    requires i < |s| && AddressEnd(s, i) > i
    ensures HasEmail(s)
  {
    var at := UserEnd(s, i);
    var dot := LastHostDot(s, at + 1, |s|).value;
    assert EmailAt(s, at, dot);
  }

  /** A text is shown as it is exactly if it has neither. */
  lemma MaskKeepsOthers(s: string)
    ensures Mask(s) == s <==> !HasEmail(s) && !HasPhone(s)
  {
    if !HasEmail(s) && !HasPhone(s) {
      EmailsUntouched(s, 0);
      assert s[0..] == s;
      PhonesUntouched(s, 0);
    }
    NothingLeft(s);
  }
}
