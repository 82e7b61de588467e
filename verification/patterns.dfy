/**
 * The two regular expressions of the registration forms, written as explicit
 * string predicates:
 *   email  /^[^\s@]+@[^\s@]+\.[^\s@]+$/   (Register.jsx, DoctorRegister.jsx)
 *   phone  /^[0-9]{10}$/                  (DoctorRegister.jsx)
 */
module Patterns {
  import opened Base
  import opened Text

  datatype Pattern = EmailPattern | PhonePattern

  /** `pattern.test(s)`. */
  predicate Matches(p: Pattern, s: string) {
    match p
    case EmailPattern => IsEmail(s)
    case PhonePattern => IsPhone(s)
  }

  /** A run of the class `[^\s@]+`: non-empty, no white space, no '@'. */
  predicate IsWordPart(p: string) {
    |p| > 0 && NoSpaceOrAt(p)
  }

  predicate NoSpaceOrAt(p: string) {
    forall k :: 0 <= k < |p| ==> !IsSpace(p[k]) && p[k] != '@'
  }

  /** The index of the first occurrence of `c` in `s` (`s.indexOf(c)`, with -1 as `None`). */
  function IndexOf(s: string, c: char): (r: Option<nat>)
    ensures r.None? <==> c !in s
    ensures r.Some? ==> r.value < |s| && s[r.value] == c && c !in s[..r.value]
  {
    if |s| == 0 then None
    else if s[0] == c then Some(0)
    else
      var rest := IndexOf(s[1..], c);
      assert s == [s[0]] + s[1..];
      match rest
      case None => None
      case Some(k) =>
        assert s[..k + 1] == [s[0]] + s[1..][..k];
        Some(k + 1)
  }

  /** The domain contains a '.' that is neither its first nor its last character. */
  predicate HasInnerDot(d: string) {
    exists k :: 0 < k < |d| - 1 && d[k] == '.'
  }

  /** The email check, read directly: exactly one '@'; the part before it is
      non-empty and has no white space; the part after it has no white space
      and contains an inner '.'. */
  predicate IsEmail(s: string) {
    match IndexOf(s, '@')
    case None => false
    case Some(at) =>
      var local, domain := s[..at], s[at + 1..];
      IsWordPart(local) && NoSpaceOrAt(domain) && HasInnerDot(domain)
  }

  /** What the regular expression means: `s` splits at an '@' (index `i`) and
      a '.' (index `j`) into three non-empty runs of `[^\s@]`. */
  ghost predicate EmailSplitAt(s: string, i: int, j: int) {
    && 0 < i < j < |s|
    && s[i] == '@' && s[j] == '.'
    && IsWordPart(s[..i]) && IsWordPart(s[i + 1..j]) && IsWordPart(s[j + 1..])
  }

  ghost predicate RegexEmail(s: string) {
    exists i, j :: EmailSplitAt(s, i, j)
  }

  /** The explicit email predicate accepts exactly the strings the regular
      expression accepts. */
  lemma EmailMatchesRegex(s: string)
    ensures IsEmail(s) <==> RegexEmail(s)
  {
    if IsEmail(s) {
      var at := IndexOf(s, '@').value;
      var domain := s[at + 1..];
      var k :| 0 < k < |domain| - 1 && domain[k] == '.';
      var j := at + 1 + k;
      assert s[at + 1..j] == domain[..k];
      assert s[j + 1..] == domain[k + 1..];
      assert EmailSplitAt(s, at, j);
    }
    if RegexEmail(s) {
      var i, j :| EmailSplitAt(s, i, j);
      assert '@' !in s[..i];
      var at := IndexOf(s, '@').value;
      assert at == i;
      var domain := s[i + 1..];
      forall k | 0 <= k < |domain| ensures !IsSpace(domain[k]) && domain[k] != '@' {
        if k < j - i - 1 {
          assert domain[k] == s[i + 1..j][k];
        } else if k > j - i - 1 {
          assert domain[k] == s[j + 1..][k - (j - i)];
        }
      }
      assert domain[j - i - 1] == '.';
    }
  }

  /** The phone check: exactly ten ASCII digits. */
  predicate IsPhone(s: string) {
    |s| == 10 && AllDigits(s)
  }
}
