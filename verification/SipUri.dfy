/** SIP addresses in accounts/account_management.c: built with sprintf, taken apart with strtok. Strings hold no NUL. */
module SipUri {
  import opened Options

  /** How many characters at the front of `s` are outside (or, with `inside`, within) the delimiters. */
  function Span(s: string, delims: set<char>, inside: bool): (n: nat)
    ensures n <= |s|
    ensures forall i :: 0 <= i < n ==> (s[i] in delims) == inside
    ensures n < |s| ==> (s[n] in delims) != inside
  {
    if s == "" || (s[0] in delims) != inside then 0 else 1 + Span(s[1..], delims, inside)
  }

  /** One call of strtok: the token, if there is one, and the string the next call goes on with. */
  function Strtok(s: string, delims: set<char>): (Option<string>, string) {
    var t := s[Span(s, delims, true)..];
    if t == "" then (None, "")
    else
      var n := Span(t, delims, false);
      (Some(t[..n]), if n < |t| then t[n + 1..] else "")
  }

  /** The user and domain that am_get_account_by_callee_uri reads out of an address. */
  function Parse(uri: string): Option<(string, string)> {
    var (protocol, afterProtocol) := Strtok(uri, {':'});
    if protocol != Some("sip") then None else ParseRest(afterProtocol)
  }

  /** What follows the scheme. */
  function ParseRest(s: string): Option<(string, string)> {
    var (user, afterUser) := Strtok(s, {'@'});
    var (domain, rest) := Strtok(afterUser, {});
    if user.None? || domain.None? then None else Some((user.value, domain.value))
  }

  function Address(user: string, domain: string): string {
    "sip:" + (user + "@" + domain)
  }

  /** am_build_from_and_to: the From and To addresses of a call, or nothing. */
  function FromAndTo(account: Option<(string, string)>, callee: Option<string>): Option<(string, string)> {
    if account.None? || callee.None? || callee.value == "" then None
    else
      var (user, domain) := account.value;
      Some((Address(user, domain),
            if '@' in callee.value then "sip:" + callee.value else Address(callee.value, domain)))
  }

  lemma {:induction false} SpanIs(s: string, delims: set<char>, inside: bool, n: nat)
    requires n <= |s| && forall i :: 0 <= i < n ==> (s[i] in delims) == inside
    requires n < |s| ==> (s[n] in delims) != inside
    ensures Span(s, delims, inside) == n
  {
  }

  /** The scheme goes first: after any number of colons, what is left of "sip:" + rest is rest. */
  lemma SchemeFirst(uri: string, colons: nat, rest: string)
    requires colons <= |uri| && (forall i :: 0 <= i < colons ==> uri[i] == ':') && uri[colons..] == "sip:" + rest
    ensures Strtok(uri, {':'}) == (Some("sip"), rest)
  {
    var s := uri[colons..];
    assert s[0] == 's' && s[1] == 'i' && s[2] == 'p' && s[3] == ':';
    assert uri[colons] == s[0];
    SpanIs(uri, {':'}, true, colons);
    SpanIs(s, {':'}, false, 3);
    assert s[..3] == "sip" && s[4..] == rest;
  }

  /** strtok with no delimiters takes all that is left. */
  lemma TakesTheRest(s: string)
    ensures Strtok(s, {}) == (if s == "" then None else Some(s), "")
  {
    SpanIs(s, {}, true, 0);
    assert s[0..] == s;
    SpanIs(s, {}, false, |s|);
    assert s[..|s|] == s;
  }

  /** Leading '@' are skipped; the user is what stands before the next '@'. */
  lemma UserIs(skipped: nat, s: string, user: string, domain: string)
    requires user != "" && '@' !in user && skipped <= |s|
    requires forall i :: 0 <= i < skipped ==> s[i] == '@'
    requires s[skipped..] == user + "@" + domain
    ensures Strtok(s, {'@'}) == (Some(user), domain)
  {
    var t := s[skipped..];
    assert t[0] == user[0];
    assert skipped < |s| && s[skipped] == t[0];
    SpanIs(s, {'@'}, true, skipped);
    assert forall i :: 0 <= i < |user| ==> t[i] == user[i];
    SpanIs(t, {'@'}, false, |user|);
    assert t[..|user|] == user && t[|user| + 1..] == domain;
  }

  /** What the user token can be: not empty, and free of '@'. */
  lemma UserShape(s: string)
    ensures var r := Strtok(s, {'@'}).0; r.Some? ==> r.value != "" && '@' !in r.value
  {
  }

  lemma ParseRestIff(user: string, domain: string)
    ensures ParseRest(user + "@" + domain) == Some((user, domain)) <==> user != "" && '@' !in user && domain != ""
  {
    var rest := user + "@" + domain;
    UserShape(rest);
    TakesTheRest(Strtok(rest, {'@'}).1);
    if user != "" && '@' !in user {
      assert rest[0..] == rest;
      UserIs(0, rest, user, domain);
    }
  }

  /** An address with a non-empty '@'-free user and a non-empty domain is read back exactly; any other is not. */
  lemma ParseAddressIff(user: string, domain: string)
    ensures Parse(Address(user, domain)) == Some((user, domain)) <==> user != "" && '@' !in user && domain != ""
  {
    var uri := Address(user, domain);
    assert uri[0..] == uri;
    SchemeFirst(uri, 0, user + "@" + domain);
    ParseRestIff(user, domain);
  }

  function Repeat(c: char, n: nat): (s: string)
    ensures |s| == n && forall i :: 0 <= i < n ==> s[i] == c
  {
    seq(n, i => c)
  }

  /** An address with its separators repeated at the places where strtok skips them. */
  function Padded(colons: nat, ats: nat, user: string, domain: string): string {
    Repeat(':', colons) + ("sip:" + (Repeat('@', ats) + (user + "@" + domain)))
  }

  /** The texts read as this user and this domain are all of these. */
  lemma ParsePadded(colons: nat, ats: nat, user: string, domain: string)
    requires user != "" && '@' !in user && domain != ""
    ensures Parse(Padded(colons, ats, user, domain)) == Some((user, domain))
  {
    var uri := Padded(colons, ats, user, domain);
    var rest := Repeat('@', ats) + (user + "@" + domain);
    assert uri[colons..] == "sip:" + rest;
    SchemeFirst(uri, colons, rest);
    assert rest[ats..] == user + "@" + domain;
    UserIs(ats, rest, user, domain);
    TakesTheRest(domain);
  }

  /** A token and what follows its delimiter, put back together. */
  lemma TokenSplits(s: string, d: char) returns (skipped: nat)
    requires Strtok(s, {d}).0.Some? && Strtok(s, {d}).1 != ""
    ensures s == Repeat(d, skipped) + (Strtok(s, {d}).0.value + ([d] + Strtok(s, {d}).1))
  {
    skipped := Span(s, {d}, true);
    var t := s[skipped..];
    var n := Span(t, {d}, false);
    assert t == t[..n] + ([t[n]] + t[n + 1..]);
    assert s == s[..skipped] + t && s[..skipped] == Repeat(d, skipped);
  }

  /** And they are the only ones that are read at all. */
  lemma ParseOnlyPadded(uri: string) returns (colons: nat, ats: nat)
    requires Parse(uri).Some?
    ensures var (user, domain) := Parse(uri).value;
            user != "" && '@' !in user && domain != "" && uri == Padded(colons, ats, user, domain)
  {
    var rest := Strtok(uri, {':'}).1;
    var (user, domain) := Parse(uri).value;
    UserShape(rest);
    TakesTheRest(Strtok(rest, {'@'}).1);
    TakesTheRest(rest);
    colons := TokenSplits(uri, ':');
    ats := TokenSplits(rest, '@');
    PaddedIs(colons, ats, user, domain, uri, rest);
  }

  lemma PaddedIs(colons: nat, ats: nat, user: string, domain: string, uri: string, rest: string)
    requires uri == Repeat(':', colons) + ("sip" + ([':'] + rest))
    requires rest == Repeat('@', ats) + (user + (['@'] + domain))
    ensures uri == Padded(colons, ats, user, domain)
  {
    assert user + (['@'] + domain) == user + "@" + domain;
    assert "sip" + ([':'] + rest) == "sip:" + rest;
  }

  /** A callee given without a domain is called in the account's own domain, and read back so. */
  lemma PlainCalleeReadBackIff(account: (string, string), callee: string)
    requires callee != "" && '@' !in callee
    ensures Parse(FromAndTo(Some(account), Some(callee)).value.1) == Some((callee, account.1)) <==> account.1 != ""
  {
    ParseAddressIff(callee, account.1);
  }

  /** A callee given in full is read back as its parts at the first '@' exactly if both are non-empty. */
  lemma FullCalleeReadBackIff(account: (string, string), user: string, domain: string)
    requires '@' !in user
    ensures Parse(FromAndTo(Some(account), Some(user + "@" + domain)).value.1) == Some((user, domain))
            <==> user != "" && domain != ""
  {
    var callee := user + "@" + domain;
    assert callee[|user|] == '@';
    ParseAddressIff(user, domain);
  }
}
