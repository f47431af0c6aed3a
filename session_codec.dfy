/**
 * The text stored under the `pi_user` key: `JSON.stringify` of the user
 * triple, and the reading back of that text.
 */
module SessionCodec {
  import opened Wrappers

  /** The signed-in user as the session hook keeps it. */
  datatype PiUser = PiUser(uid: string, username: string, accessToken: string)

  // ---------------------------------------------------------------------------
  // JSON string literals
  // ---------------------------------------------------------------------------

  /** The lower-case hexadecimal digit `JSON.stringify` writes in a `\u` escape. */
  function HexDigit(d: nat): (c: char)
    requires d < 16
  {
    if d < 10 then (48 + d) as char else (87 + d) as char
  }

  function HexValue(c: char): (v: Option<nat>)
    ensures v.Some? ==> v.value < 16
  {
    if '0' <= c <= '9' then Some(c as int - 48)
    else if 'a' <= c <= 'f' then Some(c as int - 87)
    else if 'A' <= c <= 'F' then Some(c as int - 55)
    else None
  }

  lemma HexValueOfDigit(d: nat)
    requires d < 16
    ensures HexValue(HexDigit(d)) == Some(d)
  {
  }

  /** How `JSON.stringify` writes one character inside a string literal. */
  function EscapeChar(c: char): (e: string)
    ensures |e| >= 1
  {
    var k := c as int;
    if c == '"' then ['\\', '"']
    else if c == '\\' then ['\\', '\\']
    else if k == 8 then ['\\', 'b']
    else if k == 9 then ['\\', 't']
    else if k == 10 then ['\\', 'n']
    else if k == 12 then ['\\', 'f']
    else if k == 13 then ['\\', 'r']
    else if k < 0x20 then ['\\', 'u', '0', '0', HexDigit(k / 16), HexDigit(k % 16)]
    else [c]
  }

  function EscapeAll(s: string): string
    decreases |s|
  {
    if s == [] then [] else EscapeChar(s[0]) + EscapeAll(s[1..])
  }

  /** `JSON.stringify(s)` for a string `s`. */
  function Quote(s: string): string {
    ['"'] + EscapeAll(s) + ['"']
  }

  /**
   * The character an escape sequence stands for, given the text after its
   * backslash, and how many characters of that text the escape uses.
   */
  function Unescape(s: string): (r: Option<(char, nat)>)
    ensures r.Some? ==> 1 <= r.value.1 <= |s|
  {
    if s == [] then None
    else if s[0] == '"' then Some(('"', 1))
    else if s[0] == '\\' then Some(('\\', 1))
    else if s[0] == '/' then Some(('/', 1))
    else if s[0] == 'b' then Some((8 as char, 1))
    else if s[0] == 't' then Some((9 as char, 1))
    else if s[0] == 'n' then Some((10 as char, 1))
    else if s[0] == 'f' then Some((12 as char, 1))
    else if s[0] == 'r' then Some((13 as char, 1))
    else if s[0] == 'u' && |s| >= 5 then
      var a :- HexValue(s[1]);
      var b :- HexValue(s[2]);
      var c :- HexValue(s[3]);
      var d :- HexValue(s[4]);
      var v := ((a * 16 + b) * 16 + c) * 16 + d;
      // a lone surrogate half is not a character here
      if 0xD800 <= v <= 0xDFFF then None else Some((v as char, 5))
    else None
  }

  /**
   * Reads a string literal whose opening quote has been consumed: the text it
   * denotes and what follows its closing quote. Raw control characters are refused.
   */
  function ReadStringBody(s: string): (r: Option<(string, string)>)
    ensures r.Some? ==> |r.value.1| < |s|
    decreases |s|
  {
    if s == [] then None
    else if s[0] == '"' then Some(([], s[1..]))
    else if s[0] == '\\' then
      var e :- Unescape(s[1..]);
      var tail :- ReadStringBody(s[1 + e.1..]);
      Some(([e.0] + tail.0, tail.1))
    else if (s[0] as int) < 0x20 then None
    else
      var tail :- ReadStringBody(s[1..]);
      Some(([s[0]] + tail.0, tail.1))
  }

  function ReadString(s: string): Option<(string, string)> {
    if s != [] && s[0] == '"' then ReadStringBody(s[1..]) else None
  }

  /** `s` with the prefix `p` removed, if `s` starts with `p`. */
  function ExpectPrefix(p: string, s: string): (r: Option<string>)
    ensures r.Some? <==> (|p| <= |s| && s[..|p|] == p)
    ensures r.Some? ==> s == p + r.value
  {
    if |p| <= |s| && s[..|p|] == p then Some(s[|p|..]) else None
  }

  // ---------------------------------------------------------------------------
  // The stored user
  // ---------------------------------------------------------------------------

  const UidKey: string := "{\"uid\":"
  const UsernameKey: string := ",\"username\":"
  const AccessTokenKey: string := ",\"accessToken\":"

  /** `JSON.stringify({ uid, username, accessToken })`, members in that order. */
  function EncodeUser(u: PiUser): string {
    UidKey + (Quote(u.uid) + (UsernameKey + (Quote(u.username) + (AccessTokenKey + (Quote(u.accessToken) + "}")))))
  }

  /** A member key (with its punctuation) followed by a string literal: the string, and what follows. */
  function ReadMember(key: string, t: string): Option<(string, string)> {
    var afterKey :- ExpectPrefix(key, t);
    ReadString(afterKey)
  }

  /** Reads back a text of the shape `EncodeUser` writes; anything else is refused. */
  function DecodeUser(t: string): Option<PiUser> {
    var uid :- ReadMember(UidKey, t);
    var username :- ReadMember(UsernameKey, uid.1);
    var token :- ReadMember(AccessTokenKey, username.1);
    if token.1 == "}" then Some(PiUser(uid.0, username.0, token.0)) else None
  }

  /** Reading one escaped character consumes exactly its escape. */
  lemma ReadEscapedChar(c: char, t: string)
    ensures ReadStringBody(EscapeChar(c) + t)
            == (match ReadStringBody(t) case None => None case Some(p) => Some(([c] + p.0, p.1)))
  {
    var s := EscapeChar(c) + t;
    var k := c as int;
    if c != '"' && c != '\\' && k != 8 && k != 9 && k != 10 && k != 12 && k != 13 && k < 0x20 {
      HexValueOfDigit(k / 16);
      HexValueOfDigit(k % 16);
      assert s[1..][1] == '0' && s[1..][2] == '0';
      assert s[1..][3] == HexDigit(k / 16) && s[1..][4] == HexDigit(k % 16);
      assert Unescape(s[1..]) == Some((c, 5));
      assert s[6..] == t;
    } else if EscapeChar(c) == [c] {
      assert s[1..] == t;
    } else {
      assert s[2..] == t;
    }
  }

  lemma {:induction false} ReadEscaped(s: string, rest: string)
    ensures ReadStringBody(EscapeAll(s) + ['"'] + rest) == Some((s, rest))
    decreases |s|
  {
    if s == [] {
      assert EscapeAll(s) + ['"'] + rest == ['"'] + rest;
    } else {
      ReadEscaped(s[1..], rest);
      assert EscapeAll(s) + ['"'] + rest == EscapeChar(s[0]) + (EscapeAll(s[1..]) + ['"'] + rest);
      ReadEscapedChar(s[0], EscapeAll(s[1..]) + ['"'] + rest);
      assert [s[0]] + s[1..] == s;
    }
  }

  /** A quoted string is read back as itself, leaving what follows it. */
  lemma ReadQuoted(s: string, rest: string)
    ensures ReadString(Quote(s) + rest) == Some((s, rest))
  {
    ReadEscaped(s, rest);
    assert (Quote(s) + rest)[1..] == EscapeAll(s) + ['"'] + rest;
  }

  lemma ExpectPrefixOf(p: string, s: string)
    ensures ExpectPrefix(p, p + s) == Some(s)
  {
    assert (p + s)[..|p|] == p;
  }

  lemma ReadMemberOf(key: string, s: string, rest: string)
    ensures ReadMember(key, key + (Quote(s) + rest)) == Some((s, rest))
  {
    ExpectPrefixOf(key, Quote(s) + rest);
    ReadQuoted(s, rest);
  }

  /** What is stored after signing in is read back as the same user. */
  lemma DecodeEncodeUser(u: PiUser)
    ensures DecodeUser(EncodeUser(u)) == Some(u)
  {
    var tail2 := AccessTokenKey + (Quote(u.accessToken) + "}");
    var tail1 := UsernameKey + (Quote(u.username) + tail2);
    ReadMemberOf(UidKey, u.uid, tail1);
    ReadMemberOf(UsernameKey, u.username, tail2);
    ReadMemberOf(AccessTokenKey, u.accessToken, "}");
  }

  /** Different users are stored as different texts. */
  lemma EncodeUserInjective(u: PiUser, v: PiUser)
    requires EncodeUser(u) == EncodeUser(v)
    ensures u == v
  {
    DecodeEncodeUser(u);
    DecodeEncodeUser(v);
  }
}
