/**
  The form validators shared by the account screens: the e-mail pattern of Register.jsx and
  Login.jsx, and the password pattern and ordered password rules of Register.jsx and
  ChangePassword.jsx. The screens carry identical copies; each is modelled once here.
*/
module Validators {
  import opened Text

  // ---------------------------------------------------------------------------------------
  // E-mail: /^[^\s@]+@[^\s@]+\.[^\s@]+$/

  /** A character of the class `[^\s@]`. */
  predicate Plain(c: char) {
    !IsSpace(c) && c != '@'
  }

  /** Every character of `s[a..b]` is plain. */
  predicate PlainRange(s: string, a: int, b: int) {
    forall k :: a <= k < b && 0 <= k < |s| ==> Plain(s[k])
  }

  /** The language of the pattern, read off it: a non-empty run of plain characters, an '@',
      a non-empty run, a '.', and a non-empty run to the end. */
  predicate EmailPattern(s: string) {
    exists i, j | 0 < i && i + 1 < j && j + 1 < |s| ::
      s[i] == '@' && s[j] == '.' && PlainRange(s, 0, i) && PlainRange(s, i + 1, j) && PlainRange(s, j + 1, |s|)
  }

  /** The position of the first `c` in `s`, or -1. */
  function IndexOf(s: string, c: char): (k: int)
    ensures -1 <= k < |s|
    ensures 0 <= k ==> s[k] == c
    ensures forall j :: 0 <= j < |s| && (k < 0 || j < k) ==> s[j] != c
  {
    if s == [] then -1
    else if s[0] == c then 0
    else
      var k := IndexOf(s[1..], c);
      if k < 0 then -1 else k + 1
  }

  /** A '.' somewhere in `s[a..b]`. */
  predicate DotIn(s: string, a: int, b: int) {
    exists j | a <= j < b && 0 <= j < |s| :: s[j] == '.'
  }

  /** `validateEmail(email)`, decided from the first '@': it must not be the first character,
      nothing after it may be white space or another '@', and a '.' must lie strictly inside the
      part after it. */
  function ValidateEmail(s: string): (r: bool)
    ensures r <==> EmailPattern(s)
  {
    var i := IndexOf(s, '@');
    EmailCharacterisation(s, i);
    0 < i && PlainRange(s, 0, i) && PlainRange(s, i + 1, |s|) && DotIn(s, i + 2, |s| - 1)
  }

  /** The decision from the first '@' and the pattern accept the same strings. */
  lemma EmailCharacterisation(s: string, i: int)
    requires i == IndexOf(s, '@')
    ensures (0 < i && PlainRange(s, 0, i) && PlainRange(s, i + 1, |s|) && DotIn(s, i + 2, |s| - 1))
            <==> EmailPattern(s)
  {
    if 0 < i && PlainRange(s, 0, i) && PlainRange(s, i + 1, |s|) && DotIn(s, i + 2, |s| - 1) {
      DecisionGivesPattern(s, i);
    }
    if EmailPattern(s) {
      var a, j :| 0 < a && a + 1 < j && j + 1 < |s| && s[a] == '@' && s[j] == '.'
                  && PlainRange(s, 0, a) && PlainRange(s, a + 1, j) && PlainRange(s, j + 1, |s|);
      PatternGivesDecision(s, i, a, j);
    }
  }

  lemma DecisionGivesPattern(s: string, i: int)
    requires 0 < i < |s| && s[i] == '@' && PlainRange(s, 0, i) && PlainRange(s, i + 1, |s|)
    requires DotIn(s, i + 2, |s| - 1)
    ensures EmailPattern(s)
  {
    var j :| i + 2 <= j < |s| - 1 && 0 <= j < |s| && s[j] == '.';
    assert PlainRange(s, i + 1, j);
    assert PlainRange(s, j + 1, |s|);
  }

  lemma PatternGivesDecision(s: string, i: int, a: int, j: int)
    requires i == IndexOf(s, '@')
    requires 0 < a && a + 1 < j && j + 1 < |s| && s[a] == '@' && s[j] == '.'
    requires PlainRange(s, 0, a) && PlainRange(s, a + 1, j) && PlainRange(s, j + 1, |s|)
    ensures 0 < i && PlainRange(s, 0, i) && PlainRange(s, i + 1, |s|) && DotIn(s, i + 2, |s| - 1)
  {
    assert i == a;
    assert Plain(s[j]);
    forall k | i + 1 <= k < |s| ensures Plain(s[k]) {
      if k < j {
        assert PlainRange(s, a + 1, j);
      } else if k > j {
        assert PlainRange(s, j + 1, |s|);
      }
    }
  }

  /** Two sample addresses: one accepted and one without a dot in its domain. */
  lemma EmailExamples()
    ensures ValidateEmail("ana@mail.com")
    ensures !ValidateEmail("ana@mail")
  {
    var s := "ana@mail.com";
    assert s[3] == '@' && s[8] == '.';
    assert PlainRange(s, 0, 3) && PlainRange(s, 4, 8) && PlainRange(s, 9, |s|);
    assert '.' !in "ana@mail";
  }

  // ---------------------------------------------------------------------------------------
  // Password

  predicate IsUpper(c: char) { 'A' <= c <= 'Z' }
  predicate IsLower(c: char) { 'a' <= c <= 'z' }

  /** The symbol class `[@$!%*?&]`. */
  predicate IsSymbol(c: char) {
    c == '@' || c == '$' || c == '!' || c == '%' || c == '*' || c == '?' || c == '&'
  }

  /** The characters the strict pattern admits, `[A-Za-z\d@$!%*?&]`. */
  predicate IsAllowed(c: char) {
    IsUpper(c) || IsLower(c) || IsDigit(c) || IsSymbol(c)
  }

  predicate HasUpper(p: string) { exists k | 0 <= k < |p| :: IsUpper(p[k]) }
  predicate HasLower(p: string) { exists k | 0 <= k < |p| :: IsLower(p[k]) }
  predicate HasDigit(p: string) { exists k | 0 <= k < |p| :: IsDigit(p[k]) }
  predicate HasSymbol(p: string) { exists k | 0 <= k < |p| :: IsSymbol(p[k]) }

  /** The rules of `getPasswordError`, in the order it checks them. */
  datatype PasswordRule = Required | MinLength | Uppercase | Lowercase | Digit | Symbol

  const PasswordRules: seq<PasswordRule> := [Required, MinLength, Uppercase, Lowercase, Digit, Symbol]

  predicate Holds(rule: PasswordRule, p: string) {
    match rule
    case Required => p != ""
    case MinLength => |p| >= 8
    case Uppercase => HasUpper(p)
    case Lowercase => HasLower(p)
    case Digit => HasDigit(p)
    case Symbol => HasSymbol(p)
  }

  /** The word the registration screen looks for when deciding whether a message is about the
      password. */
  const PasswordWord := "contraseña"

  function Message(rule: PasswordRule): (m: string)
    ensures m != ""
  {
    match rule
    case Required => "La " + PasswordWord + " es requerida"
    case MinLength => "La " + PasswordWord + " debe tener al menos 8 caracteres"
    case Uppercase => "Debe contener al menos una letra mayúscula"
    case Lowercase => "Debe contener al menos una letra minúscula"
    case Digit => "Debe contener al menos un número"
    case Symbol => "Debe contener al menos un carácter especial (@$!%*?&)"
  }

  /** The position of the first rule from the `i`-th on that `p` breaks, or 6 when it keeps
      them all. */
  function FirstBroken(p: string, i: nat): (k: nat)
    requires i <= |PasswordRules|
    ensures i <= k <= |PasswordRules|
    ensures forall j :: i <= j < k ==> Holds(PasswordRules[j], p)
    ensures k < |PasswordRules| ==> !Holds(PasswordRules[k], p)
    decreases |PasswordRules| - i
  {
    if i == |PasswordRules| then i
    else if !Holds(PasswordRules[i], p) then i
    else FirstBroken(p, i + 1)
  }

  /** `getPasswordError(password)` */
  function GetPasswordError(p: string): (r: string)
    ensures r == "" <==> forall rule :: Holds(rule, p)
  {
    if p == "" then assert !Holds(Required, p); Message(Required)
    else if |p| < 8 then assert !Holds(MinLength, p); Message(MinLength)
    else if !HasUpper(p) then assert !Holds(Uppercase, p); Message(Uppercase)
    else if !HasLower(p) then assert !Holds(Lowercase, p); Message(Lowercase)
    else if !HasDigit(p) then assert !Holds(Digit, p); Message(Digit)
    else if !HasSymbol(p) then assert !Holds(Symbol, p); Message(Symbol)
    else ""
  }

  /** The chain of checks reports the message of the first rule, in the listed order, that the
      password breaks, and '' when it keeps them all. */
  lemma PasswordErrorIsFirstBroken(p: string)
    ensures var k := FirstBroken(p, 0);
            GetPasswordError(p) == if k < |PasswordRules| then Message(PasswordRules[k]) else ""
  {
    assert FirstBroken(p, 6) == 6;
    assert FirstBroken(p, 5) == if !Holds(Symbol, p) then 5 else 6;
    assert FirstBroken(p, 4) == if !Holds(Digit, p) then 4 else FirstBroken(p, 5);
    assert FirstBroken(p, 3) == if !Holds(Lowercase, p) then 3 else FirstBroken(p, 4);
    assert FirstBroken(p, 2) == if !Holds(Uppercase, p) then 2 else FirstBroken(p, 3);
    assert FirstBroken(p, 1) == if !Holds(MinLength, p) then 1 else FirstBroken(p, 2);
    assert FirstBroken(p, 0) == if !Holds(Required, p) then 0 else FirstBroken(p, 1);
  }

  /** `validatePassword(password)`: the four look-aheads, then at least eight admitted characters. */
  function ValidatePassword(p: string): (r: bool)
    ensures r <==> GetPasswordError(p) == "" && forall k :: 0 <= k < |p| ==> IsAllowed(p[k])
  {
    && HasLower(p) && HasUpper(p) && HasDigit(p) && HasSymbol(p)
    && |p| >= 8 && forall k :: 0 <= k < |p| ==> IsAllowed(p[k])
  }

  /** A password the strict pattern accepts passes every rule. */
  lemma ValidHasNoError(p: string)
    requires ValidatePassword(p)
    ensures GetPasswordError(p) == ""
  {
  }

  /** The converse fails: a character outside the admitted class passes the rules but not the
      pattern. */
  lemma NoErrorButInvalid()
    ensures GetPasswordError("Abcdefg1!#") == "" && !ValidatePassword("Abcdefg1!#")
  {
    var p := "Abcdefg1!#";
    assert IsUpper(p[0]) && IsLower(p[1]) && IsDigit(p[7]) && IsSymbol(p[8]);
    assert !IsAllowed(p[9]);
  }

  /** Rule order on three samples: too short, then the missing capital, then accepted. */
  lemma ShortPassword()
    ensures GetPasswordError("abc") == Message(MinLength)
  {
  }

  lemma PasswordWithoutCapital()
    ensures GetPasswordError("abcdefgh") == Message(Uppercase)
  {
    var p := "abcdefgh";
    assert !HasUpper(p) by {
      forall k | 0 <= k < |p| ensures !IsUpper(p[k]) {
        assert 'a' <= p[k] <= 'h';
      }
    }
  }

  lemma StrongPassword()
    ensures GetPasswordError("Abcdef1!") == "" && ValidatePassword("Abcdef1!")
  {
    var p := "Abcdef1!";
    assert IsUpper(p[0]) && IsLower(p[1]) && IsDigit(p[6]) && IsSymbol(p[7]);
  }
}
