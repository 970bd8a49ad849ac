/**
 * The e-mail check shared by the contact form and the contact endpoint:
 * the regular expression `^[^\s@]+@[^\s@]+\.[^\s@]+$`. It is an ad-hoc
 * shape test, not the address grammar of any standard.
 */
module EmailPattern {
  import opened JsStrings

  /** A character the class `[^\s@]` admits. */
  predicate IsAddressChar(c: char) {
    !IsSpace(c) && c != '@'
  }

  /** `s` is a run of characters of the class `[^\s@]`, possibly empty. */
  predicate AllAddressChars(s: string) {
    forall k | 0 <= k < |s| :: IsAddressChar(s[k])
  }

  /** The regular expression read literally: `s` splits as
      local "@" host "." tld, each of the three parts a non-empty run of
      `[^\s@]`. The `@` sits at index `i` and the chosen `.` at index `j`. */
  ghost predicate MatchesPattern(s: string) {
    exists i, j | 0 < i && i + 1 < j < |s| - 1 ::
      s[i] == '@' && s[j] == '.' &&
      AllAddressChars(s[..i]) && AllAddressChars(s[i + 1..j]) && AllAddressChars(s[j + 1..])
  }

  /** Index of the first `c` in `s`, or `|s|` when there is none. */
  function IndexOf(s: string, c: char): (r: nat)
    ensures r <= |s|
    ensures r < |s| ==> s[r] == c
    ensures c !in s[..r]
  {
    if s == [] then 0
    else if s[0] == c then 0
    else 1 + IndexOf(s[1..], c)
  }

  /** The test `emailRegex.test(s)`, stated as what the pattern demands of
      the whole string: no white space, exactly one `@` with something
      before it, and after it a `.` that is neither its first nor its last
      character. */
  predicate IsValidEmail(s: string)
    ensures IsValidEmail(s) ==> NoSpace(s) && |s| >= 5
  {
    var at := IndexOf(s, '@');
    if at == |s| then false
    else
      var domain := s[at + 1..];
      0 < at && NoSpace(s) && '@' !in domain &&
      |domain| >= 3 && '.' in domain[1..|domain| - 1]
  }

  /** The linear reading of the pattern agrees with the literal one on
      every string. */
  lemma ValidEmailMatchesPattern(s: string)
    ensures IsValidEmail(s) <==> MatchesPattern(s)
  {
    if IsValidEmail(s) {
      ValidEmailIsMatch(s);
    }
    if MatchesPattern(s) {
      var i, j :| 0 < i && i + 1 < j < |s| - 1 &&
        s[i] == '@' && s[j] == '.' &&
        AllAddressChars(s[..i]) && AllAddressChars(s[i + 1..j]) && AllAddressChars(s[j + 1..]);
      MatchIsValidEmail(s, i, j);
    }
  }

  /** Soundness of the linear reading: a string it accepts splits as the
      pattern requires, at its one `@` and at the inner `.` of the domain. */
  lemma ValidEmailIsMatch(s: string)
    requires IsValidEmail(s)
    ensures MatchesPattern(s)
  {
    var at := IndexOf(s, '@');
    var domain := s[at + 1..];
    var k :| 1 <= k < |domain| - 1 && domain[k] == '.';
    var j := at + 1 + k;
    assert s[j] == '.';
    var local, host, tld := s[..at], s[at + 1..j], s[j + 1..];
    forall m | 0 <= m < |local| ensures IsAddressChar(local[m]) {
      assert local[m] == s[m];
    }
    forall m | 0 <= m < |host| ensures IsAddressChar(host[m]) {
      assert host[m] == domain[m];
    }
    forall m | 0 <= m < |tld| ensures IsAddressChar(tld[m]) {
      assert tld[m] == domain[k + 1 + m];
    }
  }

  /** Completeness of the linear reading: any split the pattern admits
      makes the linear test succeed. */
  lemma MatchIsValidEmail(s: string, i: nat, j: nat)
    requires 0 < i && i + 1 < j < |s| - 1
    requires s[i] == '@' && s[j] == '.'
    requires AllAddressChars(s[..i]) && AllAddressChars(s[i + 1..j]) && AllAddressChars(s[j + 1..])
    ensures IsValidEmail(s)
  {
    var local, host, tld := s[..i], s[i + 1..j], s[j + 1..];
    // Every character other than the `@` and the `.` lies in one of the
    // three parts.
    forall m | 0 <= m < |s| && m != i && m != j ensures IsAddressChar(s[m]) {
      if m < i {
        assert s[m] == local[m];
      } else if m < j {
        assert s[m] == host[m - (i + 1)];
      } else {
        assert s[m] == tld[m - (j + 1)];
      }
    }
    FirstIndex(s, '@', i);
    var domain := s[i + 1..];
    assert domain[1..|domain| - 1][j - (i + 2)] == '.';
    forall m | 0 <= m < |domain| ensures domain[m] != '@' {
      assert domain[m] == s[i + 1 + m];
    }
  }

  /** When `s[i]` is the only `c` up to and including index `i`,
      `IndexOf` finds it there. */
  lemma FirstIndex(s: string, c: char, i: nat)
    requires i < |s| && s[i] == c
    requires forall m | 0 <= m < i :: s[m] != c
    ensures IndexOf(s, c) == i
  {
  }

  /** A valid address contains no white space, so an address typed with a
      leading or trailing blank fails the test. */
  lemma ValidEmailHasNoSpace(s: string)
    requires IsValidEmail(s)
    ensures NoSpace(s)
    ensures s != [] && !IsSpace(s[0]) && !IsSpace(s[|s| - 1])
  {
  }

  /** A valid address holds exactly one `@`. */
  lemma ValidEmailHasOneAt(s: string)
    requires IsValidEmail(s)
    ensures multiset(s)['@'] == 1
  {
    var at := IndexOf(s, '@');
    assert s == s[..at] + [s[at]] + s[at + 1..];
    assert multiset(s) == multiset(s[..at]) + multiset{s[at]} + multiset(s[at + 1..]);
  }
}
