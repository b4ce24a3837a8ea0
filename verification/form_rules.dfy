/** The schema rules the sign-in and sign-up forms are built from, for
    string fields that the form always holds (never undefined). Lengths are
    counted in characters. */
module FormRules {

  /** `string().required()`: the empty string counts as missing. */
  predicate Required(s: string) {
    s != ""
  }

  /** `string().min(n)` and `string().max(n)`, both inclusive. */
  predicate MinLength(s: string, n: nat) {
    |s| >= n
  }

  predicate MaxLength(s: string, n: nat) {
    |s| <= n
  }

  /** `string().email()`: the format test itself is a parameter; the empty
      string is exempt from it and left to `required`. */
  predicate EmailFormat(s: string, isEmail: string -> bool) {
    s == "" || isEmail(s)
  }

  predicate IsLower(c: char) { 'a' <= c <= 'z' }
  predicate IsUpper(c: char) { 'A' <= c <= 'Z' }
  predicate IsDigit(c: char) { '0' <= c <= '9' }

  /** The characters a regular-expression `.` does not match. */
  predicate IsLineTerminator(c: char) {
    c == '\n' || c == '\r' || c == '\U{2028}' || c == '\U{2029}'
  }

  /** The text before the first line terminator. */
  function FirstLine(s: string): (r: string)
    ensures r <= s
    ensures forall i :: 0 <= i < |r| ==> !IsLineTerminator(r[i])
    ensures |r| == |s| || IsLineTerminator(s[|r|])
  {
    if |s| == 0 || IsLineTerminator(s[0]) then [] else [s[0]] + FirstLine(s[1..])
  }

  predicate HasLower(s: string) { exists i :: 0 <= i < |s| && IsLower(s[i]) }
  predicate HasUpper(s: string) { exists i :: 0 <= i < |s| && IsUpper(s[i]) }
  predicate HasDigit(s: string) { exists i :: 0 <= i < |s| && IsDigit(s[i]) }

  /** `matches(/^(?=.*[a-z])(?=.*[A-Z])(?=.*\d)/)`: each lookahead scans with
      `.*` from the start, so it only sees the first line. */
  predicate MixedClasses(s: string) {
    var line := FirstLine(s);
    HasLower(line) && HasUpper(line) && HasDigit(line)
  }

  /** On a single line the lookaheads see the whole string. */
  lemma SingleLineMixedClasses(s: string)
    requires forall i :: 0 <= i < |s| ==> !IsLineTerminator(s[i])
    ensures MixedClasses(s) <==> HasLower(s) && HasUpper(s) && HasDigit(s)
  {
    FirstLineWhole(s);
  }

  lemma {:induction false} FirstLineWhole(s: string)
    requires forall i :: 0 <= i < |s| ==> !IsLineTerminator(s[i])
    ensures FirstLine(s) == s
  {
    if |s| != 0 {
      assert !IsLineTerminator(s[0]);
      FirstLineWhole(s[1..]);
    }
  }

  /** The first line of a line, a terminator and any text is that line. */
  lemma {:induction false} FirstLineStops(a: string, t: char, b: string)
    requires forall i :: 0 <= i < |a| ==> !IsLineTerminator(a[i])
    requires IsLineTerminator(t)
    ensures FirstLine(a + [t] + b) == a
  {
    if |a| == 0 {
      assert (a + [t] + b)[0] == t;
    } else {
      assert (a + [t] + b)[1..] == a[1..] + [t] + b;
      FirstLineStops(a[1..], t, b);
    }
  }

  /** Whatever follows the first line terminator has no say: the password
      rule holds exactly when the first line has all three classes. */
  lemma LaterLinesIgnored(a: string, t: char, b: string)
    requires forall i :: 0 <= i < |a| ==> !IsLineTerminator(a[i])
    requires IsLineTerminator(t)
    ensures MixedClasses(a + [t] + b) <==> HasLower(a) && HasUpper(a) && HasDigit(a)
  {
    FirstLineStops(a, t, b);
  }

  /** A character class met past the first line does not count. */
  lemma SecondLineIgnored()
    ensures !MixedClasses("a\nA1")
    ensures HasLower("a\nA1") && HasUpper("a\nA1") && HasDigit("a\nA1")
  {
    var s := "a\nA1";
    assert IsLineTerminator(s[1]);
    assert FirstLine(s[1..]) == [];
    assert FirstLine(s) == "a";
    assert IsLower(s[0]) && IsUpper(s[2]) && IsDigit(s[3]);
  }
}
