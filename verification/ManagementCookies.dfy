/** The session cookie of the management console: what is set is what is read back (managementAuth.ts, serializeCookie and readCookie). */
module ManagementCookies {
  import opened Splitting
  import opened Wrappers

  const SECURE_COOKIE_NAME: string := "__Host-typr_management"
  const LOCAL_COOKIE_NAME: string := "typr_management"
  const MAX_HEADER_LENGTH: nat := 8_192
  const TOKEN_LENGTH: nat := 43

  function CookieName(secureCookies: bool): string {
    if secureCookies then SECURE_COOKIE_NAME else LOCAL_COOKIE_NAME
  }

  /** What String.prototype.trim takes away. */
  predicate IsSpace(c: char) {
    '\t' <= c <= '\r' || c == ' ' || c == '\U{a0}' || c == '\U{1680}' || '\U{2000}' <= c <= '\U{200a}' || c == '\U{2028}' || c == '\U{2029}'
    || c == '\U{202f}' || c == '\U{205f}' || c == '\U{3000}' || c == '\U{feff}'
  }

  function TrimStart(s: string): string {
    if s != "" && IsSpace(s[0]) then TrimStart(s[1..]) else s
  }

  function TrimEnd(s: string): string {
    if s != "" && IsSpace(s[|s| - 1]) then TrimEnd(s[..|s| - 1]) else s
  }

  function Trim(s: string): string {
    TrimEnd(TrimStart(s))
  }

  predicate TokenChar(c: char) {
    'A' <= c <= 'Z' || 'a' <= c <= 'z' || '0' <= c <= '9' || c == '_' || c == '-'
  }

  /** 32 random octets in base64url. */
  predicate IsToken(s: string) {
    |s| == TOKEN_LENGTH && forall i | 0 <= i < |s| :: TokenChar(s[i])
  }

  function IndexOf(s: string, c: char): (r: int)
    ensures -1 <= r < |s|
    ensures r >= 0 ==> s[r] == c && c !in s[..r]
    ensures r < 0 ==> c !in s
  {
    if s == "" then -1
    else if s[0] == c then 0
    else
      var r := IndexOf(s[1..], c);
      if r < 0 then -1
      else
        assert s[..r + 1] == [s[0]] + s[1..][..r];
        r + 1
  }

  predicate Named(field: string, name: string) {
    var separator := IndexOf(field, '=');
    separator >= 0 && Trim(field[..separator]) == name
  }

  function ValueOf(field: string): string
    requires IndexOf(field, '=') >= 0
  {
    Trim(field[IndexOf(field, '=') + 1..])
  }

  /** The first field of that name. */
  function FirstNamed(fields: seq<string>, name: string): (r: int)
    ensures -1 <= r < |fields|
    ensures r >= 0 ==> Named(fields[r], name) && forall i | 0 <= i < r :: !Named(fields[i], name)
    ensures r < 0 ==> forall i | 0 <= i < |fields| :: !Named(fields[i], name)
  {
    if fields == [] then -1
    else if Named(fields[0], name) then 0
    else
      var r := FirstNamed(fields[1..], name);
      if r < 0 then -1 else r + 1
  }

  /** The first field of the name decides, even when it holds no token and a later one does. */
  function CookieOf(header: Option<string>, name: string): Option<string> {
    if header.None? || header.value == "" || |header.value| > MAX_HEADER_LENGTH then None
    else
      var fields := SplitOn(header.value, ';');
      var i := FirstNamed(fields, name);
      if i >= 0 && IsToken(ValueOf(fields[i])) then Some(ValueOf(fields[i])) else None
  }

  method ReadCookie(header: Option<string>, name: string) returns (r: Option<string>)
    ensures r == CookieOf(header, name)
  {
    hide IsToken, Trim, FirstNamed;
    if header.None? || header.value == "" || |header.value| > MAX_HEADER_LENGTH { return None; }
    var fields := SplitOn(header.value, ';');
    for n := 0 to |fields|
      invariant forall j | 0 <= j < n :: !Named(fields[j], name)
    {
      var separator := IndexOf(fields[n], '=');
      if separator < 0 || Trim(fields[n][..separator]) != name { continue; }
      var value := Trim(fields[n][separator + 1..]);
      assert Named(fields[n], name) && value == ValueOf(fields[n]);
      return if IsToken(value) then Some(value) else None;
    }
    return None;
  }

  function SerializeCookie(secureCookies: bool, token: string, maxAge: string): string {
    CookieName(secureCookies) + "=" + token + "; Path=/; Max-Age=" + maxAge + "; HttpOnly; SameSite=Strict" + (if secureCookies then "; Secure" else "")
  }

  /** The pair a browser keeps of a Set-Cookie header: everything before the first semicolon. */
  function PairOf(setCookie: string): string {
    SplitOn(setCookie, ';')[0]
  }

  lemma CookieNames(secureCookies: bool)
    ensures var name := CookieName(secureCookies); ';' !in name && '=' !in name && name != "" && !IsSpace(name[0]) && !IsSpace(name[|name| - 1])
  {
  }

  lemma TokenHasNoSeparator(token: string)
    requires IsToken(token)
    ensures ';' !in token && '=' !in token && !IsSpace(token[0]) && !IsSpace(token[|token| - 1])
  {
  }

  lemma PairOfSerialized(secureCookies: bool, token: string, maxAge: string)
    requires IsToken(token)
    ensures PairOf(SerializeCookie(secureCookies, token, maxAge)) == CookieName(secureCookies) + "=" + token
  {
    hide IsSpace, CookieName, IsToken;
    var pair := CookieName(secureCookies) + "=" + token;
    var rest := " Path=/; Max-Age=" + maxAge + "; HttpOnly; SameSite=Strict" + (if secureCookies then "; Secure" else "");
    CookieNames(secureCookies);
    TokenHasNoSeparator(token);
    assert SerializeCookie(secureCookies, token, maxAge) == pair + [';'] + rest;
    SplitOfPrefixed(pair, rest, ';');
  }

  lemma TrimKeeps(s: string)
    requires s == "" || (!IsSpace(s[0]) && !IsSpace(s[|s| - 1]))
    ensures Trim(s) == s && Trim(" " + s) == s
  {
    assert (" " + s)[1..] == s;
    assert IsSpace(' ');
  }

  lemma IndexOfIs(s: string, c: char, k: nat)
    requires k < |s| && s[k] == c && forall i | 0 <= i < k :: s[i] != c
    ensures IndexOf(s, c) == k
  {
    hide IndexOf;
    var r := IndexOf(s, c);
    assert c in s;
    forall j | 0 <= j < r ensures s[j] != c {
      assert s[..r][j] in s[..r];
    }
  }

  lemma PairIsNamed(name: string, token: string, space: bool)
    requires '=' !in name && name != "" && !IsSpace(name[0]) && !IsSpace(name[|name| - 1]) && IsToken(token)
    ensures var field := (if space then " " else "") + name + "=" + token;
            Named(field, name) && ValueOf(field) == token
  {
    hide IsSpace, IsToken, Trim;
    var start := (if space then " " else "") + name;
    var field := start + "=" + token;
    TokenHasNoSeparator(token);
    TrimKeeps(name);
    TrimKeeps(token);
    var i := |start|;
    assert '=' !in start && field[i] == '=';
    IndexOfIs(field, '=', i);
    assert field[..i] == start && field[i + 1..] == token;
    assert start == name || start == " " + name;
  }

  /**
   * A cookie that was set is read back as its token, among any other cookies,
   * as long as none before it has the same name and the header is not too long.
   */
  lemma ReadsBack(secureCookies: bool, token: string, maxAge: string, before: seq<string>, after: seq<string>)
    requires IsToken(token)
    requires forall f | f in before + after :: ';' !in f
    requires forall f | f in before :: !Named(f, CookieName(secureCookies))
    ensures var pair := PairOf(SerializeCookie(secureCookies, token, maxAge));
            var header := JoinOn(before + [(if before == [] then "" else " ") + pair] + after, ';');
            |header| <= MAX_HEADER_LENGTH ==> CookieOf(Some(header), CookieName(secureCookies)) == Some(token)
  {
    hide IsSpace, IsToken, Named, ValueOf, PairOf, CookieName, SerializeCookie, FirstNamed;
    var name := CookieName(secureCookies);
    var pair := PairOf(SerializeCookie(secureCookies, token, maxAge));
    var field := (if before == [] then "" else " ") + pair;
    var fields := before + [field] + after;
    var header := JoinOn(fields, ';');
    CookieNames(secureCookies);
    TokenHasNoSeparator(token);
    PairOfSerialized(secureCookies, token, maxAge);
    PairIsNamed(name, token, before != []);
    assert pair == name + "=" + token && field == (if before != [] then " " else "") + name + "=" + token;
    forall i | 0 <= i < |fields| ensures ';' !in fields[i] {
      if i != |before| { assert fields[i] in before + after; }
    }
    SplitOfJoin(fields, ';');
    JoinedNotEmpty(fields, |before|, '=');
    assert fields[|before|] == field && forall j | 0 <= j < |before| :: fields[j] == before[j];
    assert FirstNamed(fields, name) == |before|;
  }

  lemma JoinedNotEmpty(fields: seq<string>, i: nat, c: char)
    requires i < |fields| && c in fields[i] && c != ';'
    ensures JoinOn(fields, ';') != ""
  {
    JoinMembers(fields, ';', c);
  }
}
