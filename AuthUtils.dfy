/**
 * Static helpers of src/utils/auth-utils.ts: the e-mail shape test and the
 * "is somebody logged in" coercion.
 */
module AuthUtils {
  import opened Web

  /**
   * ECMAScript's `\s`: the WhiteSpace code points (tab, vertical tab, form
   * feed, space, no-break space, byte order mark and the Zs category) and the
   * LineTerminator code points.
   */
  predicate IsWhitespace(c: char) {
    || c == '\t' || c == '\n' || c == '\U{000B}' || c == '\U{000C}' || c == '\r'
    || c == ' ' || c == '\U{00A0}' || c == '\U{1680}'
    || ('\U{2000}' <= c <= '\U{200A}')
    || c == '\U{2028}' || c == '\U{2029}' || c == '\U{202F}' || c == '\U{205F}'
    || c == '\U{3000}' || c == '\U{FEFF}'
  }

  /** The character class `[^\s@]`. */
  predicate IsAddressChar(c: char) {
    !IsWhitespace(c) && c != '@'
  }

  /** The pattern `[^\s@]+`: one or more address characters. */
  predicate IsRun(s: string) {
    |s| > 0 && forall k | 0 <= k < |s| :: IsAddressChar(s[k])
  }

  /**
   * `/^[^\s@]+@[^\s@]+\.[^\s@]+$/.test(email)`: the whole string is a run,
   * an '@', a run, a '.', and a run. Total: it is defined for every string,
   * and the shortest strings it accepts have five characters.
   */
  predicate ValidateEmail(email: string)
    ensures ValidateEmail(email) ==> 5 <= |email|
  {
    exists at, dot | 0 <= at < dot < |email| ::
      && email[at] == '@'
      && email[dot] == '.'
      && IsRun(email[..at])
      && IsRun(email[at + 1..dot])
      && IsRun(email[dot + 1..])
  }

  /** `!!user` on a `string | null`. */
  function IsUserLoggedIn(user: Option<string>): (loggedIn: bool)
    ensures loggedIn <==> user.Some? && |user.value| > 0
  {
    Truthy(user)
  }

  // ---------------------------------------------------------------------
  // An independent description of the accepted language, and its proof.
  // ---------------------------------------------------------------------

  /** Number of occurrences of `c` in `s`. */
  function Count(s: string, c: char): nat {
    if s == [] then 0 else (if s[0] == c then 1 else 0) + Count(s[1..], c)
  }

  predicate NoWhitespace(s: string) {
    forall k | 0 <= k < |s| :: !IsWhitespace(s[k])
  }

  /** `d` holds a '.' with at least one character on each side. */
  predicate HasInnerDot(d: string) {
    exists k | 0 < k < |d| - 1 :: d[k] == '.'
  }

  lemma {:induction false} CountAppend(s: string, t: string, c: char)
    ensures Count(s + t, c) == Count(s, c) + Count(t, c)
  {
    if s == [] {
      assert s + t == t;
    } else {
      assert (s + t)[1..] == s[1..] + t;
      CountAppend(s[1..], t, c);
    }
  }

  lemma {:induction false} CountZero(s: string, c: char)
    ensures Count(s, c) == 0 <==> forall k | 0 <= k < |s| :: s[k] != c
  {
    if s != [] {
      CountZero(s[1..], c);
      assert forall k | 1 <= k < |s| :: s[k] == s[1..][k - 1];
    }
  }

  /** Splitting `s` around position `i` and counting the pieces. */
  lemma CountAround(s: string, i: nat, c: char)
    requires i < |s|
    ensures Count(s, c) == Count(s[..i], c) + (if s[i] == c then 1 else 0) + Count(s[i + 1..], c)
  {
    assert s == s[..i] + [s[i]] + s[i + 1..];
    CountAppend(s[..i] + [s[i]], s[i + 1..], c);
    CountAppend(s[..i], [s[i]], c);
  }

  /** A string whose only '@' sits at `at` has no other '@'. */
  lemma OnlyAt(s: string, at: nat)
    requires at < |s| && s[at] == '@' && Count(s, '@') == 1
    ensures forall k | 0 <= k < |s| && k != at :: s[k] != '@'
  {
    CountAround(s, at, '@');
    CountZero(s[..at], '@');
    CountZero(s[at + 1..], '@');
    forall k | 0 <= k < |s| && k != at ensures s[k] != '@' {
      if k < at {
        assert s[k] == s[..at][k];
      } else {
        assert s[k] == s[at + 1..][k - at - 1];
      }
    }
  }

  /** A string in which every position but `at` is an address character. */
  predicate AddressCharsExcept(s: string, at: nat) {
    forall k | 0 <= k < |s| && k != at :: IsAddressChar(s[k])
  }

  lemma AcceptedPointwise(email: string, at: nat, dot: nat)
    requires 0 <= at < dot < |email| && email[at] == '@' && email[dot] == '.'
    requires IsRun(email[..at]) && IsRun(email[at + 1..dot]) && IsRun(email[dot + 1..])
    ensures AddressCharsExcept(email, at)
  {
    forall k | 0 <= k < |email| && k != at ensures IsAddressChar(email[k]) {
      if k < at {
        assert email[k] == email[..at][k];
      } else if k < dot {
        assert email[k] == email[at + 1..dot][k - at - 1];
      } else if k > dot {
        assert email[k] == email[dot + 1..][k - dot - 1];
      }
    }
  }

  lemma SingleAt(s: string, at: nat)
    requires at < |s| && s[at] == '@' && AddressCharsExcept(s, at)
    ensures Count(s, '@') == 1 && NoWhitespace(s)
  {
    CountAround(s, at, '@');
    CountZero(s[..at], '@');
    CountZero(s[at + 1..], '@');
    assert forall k | 0 <= k < at :: s[..at][k] == s[k];
    assert forall k | at + 1 <= k < |s| :: s[at + 1..][k - at - 1] == s[k];
  }

  /**
   * Every accepted address holds exactly one '@' and no whitespace.
   */
  lemma ValidateEmailShape(email: string)
    requires ValidateEmail(email)
    ensures Count(email, '@') == 1 && NoWhitespace(email)
    ensures exists at | 0 < at < |email| :: email[at] == '@'
  {
    var at, dot :| 0 <= at < dot < |email| && email[at] == '@' && email[dot] == '.'
      && IsRun(email[..at]) && IsRun(email[at + 1..dot]) && IsRun(email[dot + 1..]);
    AcceptedPointwise(email, at, dot);
    SingleAt(email, at);
  }

  lemma ValidateEmailSound(email: string, at: nat)
    requires at < |email| && email[at] == '@' && ValidateEmail(email)
    ensures Count(email, '@') == 1 && NoWhitespace(email) && at > 0 && HasInnerDot(email[at + 1..])
  {
    var at', dot :| 0 <= at' < dot < |email| && email[at'] == '@' && email[dot] == '.'
      && IsRun(email[..at']) && IsRun(email[at' + 1..dot]) && IsRun(email[dot + 1..]);
    AcceptedPointwise(email, at', dot);
    assert at == at';
    SingleAt(email, at);
    var domain := email[at + 1..];
    assert domain[dot - at - 1] == email[dot];
  }

  lemma ValidateEmailComplete(email: string, at: nat)
    requires at < |email| && email[at] == '@'
    requires Count(email, '@') == 1 && NoWhitespace(email) && at > 0 && HasInnerDot(email[at + 1..])
    ensures ValidateEmail(email)
  {
    var domain := email[at + 1..];
    var k :| 0 < k < |domain| - 1 && domain[k] == '.';
    var dot := at + 1 + k;
    assert email[dot] == domain[k];
    OnlyAt(email, at);
    assert forall i | 0 <= i < at :: email[..at][i] == email[i];
    assert forall i | at + 1 <= i < dot :: email[at + 1..dot][i - at - 1] == email[i];
    assert forall i | dot + 1 <= i < |email| :: email[dot + 1..][i - dot - 1] == email[i];
    assert IsRun(email[..at]) && IsRun(email[at + 1..dot]) && IsRun(email[dot + 1..]);
  }

  /**
   * The language the regular expression accepts, described by the '@' it
   * holds: an address is accepted exactly when it has one '@' and no
   * whitespace, the part before the '@' is non-empty, and the part after it
   * has a '.' with a character on each side.
   */
  lemma ValidateEmailIff(email: string, at: nat)
    requires at < |email| && email[at] == '@'
    ensures ValidateEmail(email) <==>
      Count(email, '@') == 1 && NoWhitespace(email) && at > 0 && HasInnerDot(email[at + 1..])
  {
    if ValidateEmail(email) {
      ValidateEmailSound(email, at);
    }
    if Count(email, '@') == 1 && NoWhitespace(email) && at > 0 && HasInnerDot(email[at + 1..]) {
      ValidateEmailComplete(email, at);
    }
  }

  /** Addresses the pattern accepts. */
  lemma ValidateEmailAcceptsExamples()
    ensures ValidateEmail("a@b.c") && ValidateEmail("a@b.c.d")
  {
    var e1, e2 := "a@b.c", "a@b.c.d";
    SingleAt(e1, 1);
    assert e1[2..][1] == '.';
    ValidateEmailComplete(e1, 1);
    SingleAt(e2, 1);
    assert e2[2..][1] == '.';
    ValidateEmailComplete(e2, 1);
  }

  /** Addresses the pattern rejects for the part after the '@': no '.' with a character on each side. */
  lemma ValidateEmailRejectsDomains()
    ensures !ValidateEmail("a@b") && !ValidateEmail("a@.c") && !ValidateEmail("a@b.")
  {
    ValidateEmailIff("a@b", 1);
    ValidateEmailIff("a@.c", 1);
    ValidateEmailIff("a@b.", 1);
  }

  /** Addresses the pattern rejects: nothing before the '@', whitespace, two '@'. */
  lemma ValidateEmailRejectsShapes()
    ensures !ValidateEmail("@b.c") && !ValidateEmail("a b@c.d") && !ValidateEmail("a@b@c.d")
  {
    ValidateEmailIff("@b.c", 0);
    var spaced := "a b@c.d";
    ValidateEmailIff(spaced, 3);
    assert IsWhitespace(spaced[1]);
    var twice := "a@b@c.d";
    ValidateEmailIff(twice, 1);
    CountAround(twice, 1, '@');
    CountAround(twice[2..], 1, '@');
  }
}
