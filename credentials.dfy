/**
 * The entries of the Basic-auth credential list: `addLoginPass` stores
 * `login + ":" + pass`. SplitCredential, the split at the first ':', is a
 * reference definition against which the stored form is judged.
 */
module Credentials {
  import opened Wrappers

  /** The entry `addLoginPass(login, pass)` stores. */
  function LoginEntry(login: string, pass: string): (e: string)
    ensures |e| == |login| + 1 + |pass| && e[|login|] == ':'
    ensures e[..|login|] == login && e[|login| + 1..] == pass
  {
    login + ":" + pass
  }

  /** The position of the first ':' of `s`, if any. */
  function FirstColon(s: string): (r: Option<nat>)
    ensures r.None? <==> ':' !in s
    ensures r.Some? ==> r.value < |s| && s[r.value] == ':' && ':' !in s[..r.value]
  {
    if s == [] then None
    else if s[0] == ':' then Some(0)
    else
      match FirstColon(s[1..])
      case None => None
      case Some(k) =>
        assert s[..k + 1] == [s[0]] + s[1..][..k];
        Some(k + 1)
  }

  /** Splits `s` at its first ':' into the part before and the part after it. */
  function SplitCredential(s: string): (r: Option<(string, string)>)
    ensures r.None? <==> ':' !in s
    ensures r.Some? ==> ':' !in r.value.0 && s == r.value.0 + ":" + r.value.1
  {
    match FirstColon(s)
    case None => None
    case Some(k) =>
      assert s == s[..k] + ":" + s[k + 1..];
      Some((s[..k], s[k + 1..]))
  }

  /**
   * Splitting a stored entry at its first ':' gives back the login and the
   * password exactly when the login contains no ':'.
   */
  lemma LoginEntryRoundTrip(login: string, pass: string)
    ensures SplitCredential(LoginEntry(login, pass)) == Some((login, pass)) <==> ':' !in login
  {
    var e := LoginEntry(login, pass);
    assert ':' in e by { assert e[|login|] == ':'; }
    var r := SplitCredential(e);
    var k := FirstColon(e).value;
    if ':' !in login {
      assert e[..|login|] == login;
      assert k == |login|;
    } else {
      var j :| 0 <= j < |login| && login[j] == ':';
      assert e[j] == ':';
      assert k <= j;
    }
  }

  /** Distinct colon-free logins give distinct entries, whatever the passwords. */
  lemma LoginsDistinguishEntries(login1: string, pass1: string, login2: string, pass2: string)
    requires ':' !in login1 && ':' !in login2 && login1 != login2
    ensures LoginEntry(login1, pass1) != LoginEntry(login2, pass2)
  {
    LoginEntryRoundTrip(login1, pass1);
    LoginEntryRoundTrip(login2, pass2);
  }
}
