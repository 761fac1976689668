/** The part of Go's `net/url` request-URI parsing that resource identifiers rely on: a URL
    as an already split (scheme, host, path) triple. Control characters are refused, "*" is
    a path on its own, and the path is percent-decoded; host validation, host decoding,
    user information and ports are not modelled. Go works on bytes; here a decoded escape
    is the character with that code. */
module Urls {
  import opened Wrappers
  import opened Text

  datatype Url = Url(scheme: string, host: string, path: string)

  predicate IsAsciiLetter(c: char)
  {
    'a' <= c <= 'z' || 'A' <= c <= 'Z'
  }

  predicate IsSchemeChar(c: char)
  {
    IsAsciiLetter(c) || '0' <= c <= '9' || c == '+' || c == '-' || c == '.'
  }

  /** A URL scheme: a letter followed by letters, digits, '+', '-' or '.'. */
  predicate IsScheme(s: string)
  {
    |s| > 0 && IsAsciiLetter(s[0]) && forall i :: 0 <= i < |s| ==> IsSchemeChar(s[i])
  }

  /** An ASCII control character: below ' ', or DEL. */
  predicate IsControl(c: char)
  {
    c < ' ' || c == '\U{7F}'
  }

  predicate NoControl(s: string)
  {
    forall c :: c in s ==> !IsControl(c)
  }

  /** A character the request-URI parser keeps as it is inside a path: not the query mark,
      not the escape character, not a control character. */
  predicate VerbatimChar(c: char)
  {
    c != '?' && c != '%' && !IsControl(c)
  }

  /** Text the request-URI parser keeps as it is inside a path. */
  predicate Verbatim(s: string)
  {
    forall c :: c in s ==> VerbatimChar(c)
  }

  /** A character of a host name: an ASCII letter, a digit, '-' or '.'. */
  predicate IsHostNameChar(c: char)
  {
    IsAsciiLetter(c) || '0' <= c <= '9' || c == '-' || c == '.'
  }

  predicate IsDigit(c: char)
  {
    '0' <= c <= '9'
  }

  /** A host that Go's request-URI parser keeps unchanged as the URL's host: a name of
      letters, digits, '-' and '.', optionally followed by ':' and a decimal port. It has
      no user information ('@'), no bracketed address and nothing Go refuses in a host. */
  predicate PlainHost(h: string)
  {
    var i := IndexOf(h, ':');
    if i == -1 then forall c :: c in h ==> IsHostNameChar(c)
    else (forall c :: c in h[..i] ==> IsHostNameChar(c)) && (forall c :: c in h[i + 1..] ==> IsDigit(c))
  }

  predicate IsHex(c: char)
  {
    '0' <= c <= '9' || 'a' <= c <= 'f' || 'A' <= c <= 'F'
  }

  function HexValue(c: char): (v: nat)
    requires IsHex(c)
    ensures v < 16
  {
    if c <= '9' then c as int - '0' as int
    else if c <= 'F' then c as int - 'A' as int + 10
    else c as int - 'a' as int + 10
  }

  /** Percent-decoding of a path: every '%' must start an escape of two hex digits, which
      stands for the character with that code; any other '%' makes the text invalid. */
  function Unescape(s: string): (r: Option<string>)
    ensures '%' !in s ==> r == Some(s)
    ensures r.Some? ==> |r.value| <= |s|
    decreases |s|
  {
    if s == [] then Some([])
    else if s[0] != '%' then
      assert '%' !in s ==> '%' !in s[1..] && s == [s[0]] + s[1..];
      match Unescape(s[1..])
      case None => None
      case Some(t) => Some([s[0]] + t)
    else if |s| >= 3 && IsHex(s[1]) && IsHex(s[2]) then
      match Unescape(s[3..])
      case None => None
      case Some(t) => Some([(16 * HexValue(s[1]) + HexValue(s[2])) as char] + t)
    else None
  }

  /** The text before the first '?': the query string is split off and not kept. */
  function CutQuery(s: string): (r: string)
    ensures '?' !in r && r <= s
    ensures '?' !in s ==> r == s
  {
    var i := IndexOf(s, '?');
    if i == -1 then s else s[..i]
  }

  /** A URL whose path is the decoding of `rawPath`, or None when that has a bad escape. */
  function WithPath(scheme: string, host: string, rawPath: string): Option<Url>
  {
    match Unescape(rawPath)
    case None => None
    case Some(p) => Some(Url(scheme, host, p))
  }

  /** url.ParseRequestURI: a text with a control character and the empty text are refused;
      "*" is a path on its own; otherwise the input must be an absolute path or an absolute
      URL. The scheme is lower-cased, the authority after "//" up to the next '/' is the
      host, and the rest (without query) is the path, percent-decoded. A scheme followed by
      anything but '/' is an opaque URL, accepted with an empty path. */
  function ParseRequestUri(raw: string): (r: Option<Url>)
    ensures raw == "" || !NoControl(raw) ==> r.None?
    ensures r.Some? && r.value.scheme == "" ==> r.value.host == "" && (raw == "*" || raw[0] == '/')
  {
    if raw == "" || !NoControl(raw) then None
    else if raw == "*" then Some(Url("", "", "*"))
    else
      var s := CutQuery(raw);
      if s != [] && s[0] == '/' then WithPath("", "", s)
      else
        var colon := IndexOf(s, ':');
        if colon <= 0 || !IsScheme(s[..colon]) then None
        else
          var scheme := Lower(s[..colon]);
          var rest := s[colon + 1..];
          if |rest| >= 2 && rest[..2] == "//" then
            var authority := rest[2..];
            var slash := IndexOf(authority, '/');
            if slash == -1 then Some(Url(scheme, authority, ""))
            else WithPath(scheme, authority[..slash], authority[slash..])
          else if rest != [] && rest[0] == '/' then WithPath(scheme, "", rest)
          else Some(Url(scheme, "", ""))
  }

  /** An absolute path that needs no decoding is taken as it is. */
  lemma ParseAbsolutePath(p: string)
    requires p != [] && p[0] == '/' && Verbatim(p)
    ensures ParseRequestUri(p) == Some(Url("", "", p))
  {
    assert p != "*" by {
      assert p[0] != '*';
    }
  }

  /** "*" is accepted as the path "*". */
  lemma StarIsPath()
    ensures ParseRequestUri("*") == Some(Url("", "", "*"))
  {
  }

  /** An escape is decoded in the path: "/%41" is the path "/A". */
  lemma EscapeDecoded()
    ensures ParseRequestUri("/%41") == Some(Url("", "", "/A"))
  {
    var raw := "/%41";
    SlashEscapeDecoded();
    assert raw != "*" && raw[0] == '/';
    assert NoControl(raw) && '?' !in raw;
    assert CutQuery(raw) == raw;
  }

  lemma SlashEscapeDecoded()
    ensures Unescape("/%41") == Some("/A")
  {
    var p := "/%41";
    EscapeOfA();
    assert p[0] == '/' && p[1..] == "%41";
    assert [p[0]] + "A" == "/A";
  }

  lemma EscapeOfA()
    ensures Unescape("%41") == Some("A")
  {
    var esc := "%41";
    assert esc[0] == '%' && esc[1] == '4' && esc[2] == '1' && esc[3..] == [];
    assert HexValue('4') == 4 && HexValue('1') == 1;
    assert Unescape(esc[3..]) == Some([]);
    assert [(16 * HexValue(esc[1]) + HexValue(esc[2])) as char] + [] == "A";
  }

  /** A '%' that does not start two hex digits makes the whole text invalid. */
  lemma {:induction false} BadEscapeRefused(s: string, i: nat)
    requires i < |s| && s[i] == '%'
    requires !(i + 2 < |s| && IsHex(s[i + 1]) && IsHex(s[i + 2]))
    ensures Unescape(s) == None
    decreases |s|
  {
    if s[0] != '%' {
      BadEscapeRefused(s[1..], i - 1);
    } else if i > 0 && |s| >= 3 && IsHex(s[1]) && IsHex(s[2]) {
      assert i >= 3 by {
        assert s[1] != '%' && s[2] != '%';
      }
      BadEscapeRefused(s[3..], i - 3);
    }
  }

  /** A path that ends in '%' is refused. */
  lemma TrailingPercentRefused(p: string)
    requires p != [] && p[0] == '/' && '?' !in p && NoControl(p)
    ensures ParseRequestUri(p + "%") == None
  {
    var raw := p + "%";
    assert raw != "*" by {
      assert raw[0] != '*';
    }
    assert '?' !in raw;
    assert CutQuery(raw) == raw;
    BadEscapeRefused(raw, |raw| - 1);
  }

  /** Verbatim text has no query mark, no escape and no control character. */
  lemma VerbatimParts(s: string)
    requires Verbatim(s)
    ensures '?' !in s && '%' !in s && NoControl(s)
  {
  }

  /** A control character anywhere is refused, whatever surrounds it. */
  lemma ControlRefused(a: string, c: char, b: string)
    requires IsControl(c)
    ensures ParseRequestUri(a + [c] + b) == None
  {
    assert c in a + [c] + b;
  }

  /** A plain host has no '/', no '@' and nothing the request-URI parser would not keep. */
  lemma PlainHostParts(h: string)
    requires PlainHost(h)
    ensures '/' !in h && '@' !in h && Verbatim(h)
  {
    var i := IndexOf(h, ':');
    if i != -1 {
      assert h == h[..i] + [h[i]] + h[i + 1..];
      forall c | c in h ensures c != '/' && c != '@' && VerbatimChar(c) {
        if c in h[..i] {
          assert IsHostNameChar(c);
        } else if c in h[i + 1..] {
          assert IsDigit(c);
        }
      }
    }
  }

  /** Joining verbatim parts with a verbatim separator gives verbatim text. */
  lemma {:induction false} JoinVerbatim(parts: seq<string>, sep: string)
    requires Verbatim(sep)
    requires forall i :: 0 <= i < |parts| ==> Verbatim(parts[i])
    ensures Verbatim(Join(parts, sep))
  {
    if |parts| > 1 {
      JoinVerbatim(parts[1..], sep);
      assert Verbatim(parts[0]);
    } else if |parts| == 1 {
      assert Verbatim(parts[0]);
    }
  }

  /** A scheme has neither ':' nor '/' nor '?', and no control character. */
  lemma SchemeChars(scheme: string)
    requires IsScheme(scheme)
    ensures ':' !in scheme && '/' !in scheme && '?' !in scheme && NoControl(scheme)
  {
    forall i | 0 <= i < |scheme| ensures scheme[i] != ':' && scheme[i] != '/' && scheme[i] != '?' {
      assert IsSchemeChar(scheme[i]);
    }
    forall c | c in scheme ensures !IsControl(c) {
      var i :| 0 <= i < |scheme| && scheme[i] == c;
      assert IsSchemeChar(scheme[i]);
    }
  }

  /** The first ':' of scheme + ":" + rest ends the scheme. */
  lemma SchemeSplit(scheme: string, rest: string)
    requires IsScheme(scheme)
    ensures var s := scheme + ":" + rest;
      IndexOf(s, ':') == |scheme| && s[..|scheme|] == scheme && s[|scheme| + 1..] == rest
  {
    SchemeChars(scheme);
    var s := scheme + ":" + rest;
    assert s == scheme + [':'] + rest;
    IndexOfSeam(scheme, ':', rest);
    assert s[..|scheme|] == scheme;
  }

  /** The first '/' of host + path, for a host without '/' and a path that starts with '/',
      ends the host. */
  lemma AuthoritySplit(host: string, path: string)
    requires '/' !in host && path != [] && path[0] == '/'
    ensures var a := host + path;
      IndexOf(a, '/') == |host| && a[..|host|] == host && a[|host|..] == path
  {
    var a := host + path;
    assert path == [path[0]] + path[1..];
    assert a == host + ['/'] + path[1..];
    IndexOfSeam(host, '/', path[1..]);
    assert a[..|host|] == host;
    assert a[|host|..] == path;
  }

  /** A URL written as scheme "://" host path splits back into those three parts, when the
      scheme is already lower-case, the host has no '/', '?' or control character, and the
      path is verbatim. */
  lemma ParseSchemeHostPath(scheme: string, host: string, path: string)
    requires IsScheme(scheme) && Lower(scheme) == scheme
    requires '/' !in host && '?' !in host && NoControl(host)
    requires path != [] && path[0] == '/' && Verbatim(path)
    ensures ParseRequestUri(scheme + "://" + host + path) == Some(Url(scheme, host, path))
  {
    SchemeChars(scheme);
    VerbatimParts(path);
    var rest := "//" + (host + path);
    var raw := scheme + ":" + rest;
    assert scheme + "://" + host + path == raw;
    assert NoControl(raw);
    assert '?' !in raw;
    assert CutQuery(raw) == raw;
    assert raw[0] == scheme[0];
    assert raw != "*" by {
      assert raw[0] != '*';
    }
    SchemeSplit(scheme, rest);
    assert rest[..2] == "//" && rest[2..] == host + path;
    AuthoritySplit(host, path);
  }
}
