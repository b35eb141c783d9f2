/** The login form's two checks, each a JavaScript regular expression tested
    against the whole input. A string is a sequence of Unicode scalar values;
    where the regular expressions count UTF-16 code units (they carry no `u`
    flag), the count is written out. */
module Login {

  /** `\s` in a JavaScript regular expression: the ECMAScript white space and
      line terminator characters. */
  predicate IsJsWhitespace(c: char)
  {
    var n := c as int;
    (9 <= n <= 13) || n == 32 || n == 0xA0 || n == 0x1680 || (0x2000 <= n <= 0x200A)
    || n == 0x2028 || n == 0x2029 || n == 0x202F || n == 0x205F || n == 0x3000 || n == 0xFEFF
  }

  /** `[^\s@]`. */
  predicate IsAddressChar(c: char)
  {
    !IsJsWhitespace(c) && c != '@'
  }

  /** `[^\s@]+`: a non-empty run of address characters. */
  predicate AddressRun(s: string)
  {
    |s| > 0 && forall k :: 0 <= k < |s| ==> IsAddressChar(s[k])
  }

  /** `validateEmail`: the whole input matches `^[^\s@]+@[^\s@]+\.[^\s@]+$`,
      that is, it splits as run `@` run `.` run at some `@` and some later `.`. */
  predicate ValidateEmail(email: string)
  {
    exists at, dot :: 0 < at < dot < |email| - 1 && email[at] == '@' && email[dot] == '.'
      && AddressRun(email[..at]) && AddressRun(email[at + 1..dot]) && AddressRun(email[dot + 1..])
  }

  /** The address shape spelled out position by position: no white space, a
      single `@` that is not the first character, and a `.` after it with at
      least one character on each side. */
  predicate EmailShape(email: string)
  {
    && (forall k :: 0 <= k < |email| ==> !IsJsWhitespace(email[k]))
    && exists at :: 0 < at < |email| && email[at] == '@'
         && (forall k :: 0 <= k < |email| && email[k] == '@' ==> k == at)
         && exists dot :: at + 1 < dot < |email| - 1 && email[dot] == '.'
  }

  /** A match has that shape. */
  lemma {:induction false} EmailMatchHasShape(email: string)
    requires ValidateEmail(email)
    ensures EmailShape(email)
  {
    var at, dot :| 0 < at < dot < |email| - 1 && email[at] == '@' && email[dot] == '.'
      && AddressRun(email[..at]) && AddressRun(email[at + 1..dot]) && AddressRun(email[dot + 1..]);
    forall k | 0 <= k < |email| && k != at && k != dot
      ensures IsAddressChar(email[k])
    {
      if k < at {
        assert email[..at][k] == email[k];
      } else if k < dot {
        assert email[at + 1..dot][k - at - 1] == email[k];
      } else {
        assert email[dot + 1..][k - dot - 1] == email[k];
      }
    }
    assert at + 1 < dot < |email| - 1 && email[dot] == '.';
  }

  /** A string of that shape matches. */
  lemma {:induction false} EmailShapeMatches(email: string)
    requires EmailShape(email)
    ensures ValidateEmail(email)
  {
    var at :| 0 < at < |email| && email[at] == '@'
       && (forall k :: 0 <= k < |email| && email[k] == '@' ==> k == at)
       && exists dot :: at + 1 < dot < |email| - 1 && email[dot] == '.';
    var dot :| at + 1 < dot < |email| - 1 && email[dot] == '.';
    assert AddressRun(email[..at]);
    assert AddressRun(email[at + 1..dot]);
    assert AddressRun(email[dot + 1..]);
  }

  /** The pattern accepts exactly the strings of that shape. */
  lemma ValidateEmailIff(email: string)
    ensures ValidateEmail(email) <==> EmailShape(email)
  {
    if ValidateEmail(email) {
      EmailMatchHasShape(email);
    }
    if EmailShape(email) {
      EmailShapeMatches(email);
    }
  }

  /** The domain may hold several dots, even side by side or at its end, as
      long as one dot has a character on each side. */
  lemma DomainDotsAreLoose()
    ensures ValidateEmail("a@b..c")
    ensures ValidateEmail("a@b.c.")
    ensures ValidateEmail("a.b@c.d.e")
  {
    var e1, e2, e3 := "a@b..c", "a@b.c.", "a.b@c.d.e";
    assert e3[3] == '@' && e3[5] == '.';
    assert e3[..3] == "a.b" && e3[4..5] == "c" && e3[6..] == "d.e";
    assert AddressRun(e3[..3]) && AddressRun(e3[4..5]) && AddressRun(e3[6..]);
    assert e1[1] == '@' && e1[3] == '.' && e2[1] == '@' && e2[3] == '.';
    assert e1[..1] == "a" && e1[2..3] == "b" && e1[4..] == ".c";
    assert e2[..1] == "a" && e2[2..3] == "b" && e2[4..] == "c.";
    assert AddressRun(e1[..1]) && AddressRun(e1[2..3]) && AddressRun(e1[4..]);
    assert AddressRun(e2[..1]) && AddressRun(e2[2..3]) && AddressRun(e2[4..]);
  }

  /** Inputs the pattern refuses: no dot after the `@`, a second `@`, a space,
      an empty name, a dot right after the `@`, a dot with nothing after it,
      the empty input. */
  lemma MalformedEmailsRejected()
    ensures !ValidateEmail("a@b")
    ensures !ValidateEmail("a@b@c.d")
    ensures !ValidateEmail("a b@c.d")
    ensures !ValidateEmail("@b.c")
    ensures !ValidateEmail("a@.c")
    ensures !ValidateEmail("a@b.")
    ensures !ValidateEmail("")
  {
    ValidateEmailIff("a@b.");
    ValidateEmailIff("a@b");
    ValidateEmailIff("a@b@c.d");
    ValidateEmailIff("a b@c.d");
    ValidateEmailIff("@b.c");
    ValidateEmailIff("a@.c");
    assert "a@b@c.d"[1] == '@' && "a@b@c.d"[3] == '@';
    assert "a b@c.d"[1] == ' ';
  }

  /** `\d`, `[a-z]` and `[A-Z]`: ASCII only. */
  datatype CharClass = Digit | Lower | Upper

  predicate InClass(c: char, cls: CharClass)
  {
    match cls
    case Digit => '0' <= c <= '9'
    case Lower => 'a' <= c <= 'z'
    case Upper => 'A' <= c <= 'Z'
  }

  /** The characters `.` does not match without the `s` flag. */
  predicate IsLineTerminator(c: char)
  {
    c == '\n' || c == '\r' || c as int == 0x2028 || c as int == 0x2029
  }

  /** The length in UTF-16 code units: a character beyond the Basic
      Multilingual Plane is a surrogate pair. */
  function Utf16Length(s: string): (n: nat)
    ensures |s| <= n <= 2 * |s|
  {
    if |s| == 0 then 0
    else (if s[|s| - 1] as int >= 0x10000 then 2 else 1) + Utf16Length(s[..|s| - 1])
  }

  /** `(?=.*X)` at the start of the input: some character of class X is
      reached through characters that `.` matches. */
  predicate Lookahead(s: string, cls: CharClass)
  {
    exists k :: 0 <= k < |s| && InClass(s[k], cls)
      && forall m :: 0 <= m < k ==> !IsLineTerminator(s[m])
  }

  /** `validatePassword`: the whole input matches
      `^(?=.*\d)(?=.*[a-z])(?=.*[A-Z]).{8,}$`. */
  predicate ValidatePassword(password: string)
  {
    && Lookahead(password, Digit) && Lookahead(password, Lower) && Lookahead(password, Upper)
    && (forall k :: 0 <= k < |password| ==> !IsLineTerminator(password[k]))
    && Utf16Length(password) >= 8
  }

  predicate Contains(s: string, cls: CharClass)
  {
    exists k :: 0 <= k < |s| && InClass(s[k], cls)
  }

  /** The pattern accepts exactly the single-line inputs of at least eight
      code units holding an ASCII digit, a lower-case and an upper-case letter,
      anywhere and in any order. */
  lemma ValidatePasswordIff(password: string)
    ensures ValidatePassword(password) <==>
      && Contains(password, Digit) && Contains(password, Lower) && Contains(password, Upper)
      && (forall k :: 0 <= k < |password| ==> !IsLineTerminator(password[k]))
      && Utf16Length(password) >= 8
  {
  }

  /** The length bound counts code units, so six characters can be enough. */
  lemma AstralCharactersCountTwice()
    ensures ValidatePassword("aA1" + "\U{1F600}\U{1F600}\U{1F600}")
  {
    var p := "aA1" + "\U{1F600}\U{1F600}\U{1F600}";
    assert |p| == 6;
    assert InClass(p[0], Lower) && InClass(p[1], Upper) && InClass(p[2], Digit);
    assert p[..5][..4][..3] == "aA1";
    assert Utf16Length("aA1") == 3;
  }

  /** Eight characters with one of the three classes missing are refused. */
  lemma PasswordNeedsEveryClass()
    ensures !ValidatePassword("abcdefg1")
    ensures !ValidatePassword("ABCDEFG1")
    ensures !ValidatePassword("Abcdefgh")
  {
    NoneOfClass("abcdefg1", Upper);
    NoneOfClass("ABCDEFG1", Lower);
    NoneOfClass("Abcdefgh", Digit);
  }

  /** A class none of whose characters occurs leaves its lookahead unmet. */
  lemma NoneOfClass(s: string, cls: CharClass)
    requires forall k :: 0 <= k < |s| ==> !InClass(s[k], cls)
    ensures !ValidatePassword(s)
  {
  }
}
