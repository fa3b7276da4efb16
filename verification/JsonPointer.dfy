/**
 * Splitting a JSON Pointer into its reference tokens, one token at a time,
 * and undoing the escapes of section 3 of RFC 6901.
 */
module JsonPointer {

  /** The first position of a character, or the length. */
  function IndexOf(s: string, c: char): (i: nat)
    ensures i <= |s| && c !in s[..i] && (i < |s| ==> s[i] == c)
  {
    if |s| == 0 || s[0] == c then 0
    else
      var i := 1 + IndexOf(s[1..], c);
      assert s[..i] == [s[0]] + s[1..][..i - 1];
      i
  }

  /** Every occurrence of `~` followed by `digit`, from the left, becomes `c`. */
  function Replace(s: string, digit: char, c: char): string {
    if |s| == 0 then ""
    else if |s| >= 2 && s[0] == '~' && s[1] == digit then [c] + Replace(s[2..], digit, c)
    else [s[0]] + Replace(s[1..], digit, c)
  }

  function Unescape(s: string): string {
    Replace(Replace(s, '1', '/'), '0', '~')
  }

  /** The first token of a pointer, unescaped, and the rest of the pointer. */
  function GetFirstName(path: string): (r: (string, string))
    ensures |r.1| < |path| || r.1 == ""
  {
    if |path| == 0 then ("", "")
    else
      var newPath := if path[0] == '/' then path[1..] else path;
      var pos := IndexOf(newPath, '/');
      var firstName := newPath[..pos];
      (if '~' in firstName then Unescape(firstName) else firstName, newPath[pos..])
  }

  /** The names met by applying GetFirstName until nothing is left. */
  function Parse(path: string): seq<string>
    decreases |path|
  {
    var (name, rest) := GetFirstName(path);
    if rest == "" then [name] else [name] + Parse(rest)
  }

  /** Section 3 of RFC 6901: `~` is written `~0` and `/` is written `~1`. */
  function Escape(t: string): string {
    if |t| == 0 then ""
    else (if t[0] == '~' then "~0" else if t[0] == '/' then "~1" else [t[0]]) + Escape(t[1..])
  }

  function Render(tokens: seq<string>): string {
    if |tokens| == 0 then "" else "/" + Escape(tokens[0]) + Render(tokens[1..])
  }

  /** Section 4 of RFC 6901 read as one pass from the left. */
  function Decode(s: string): string {
    if |s| == 0 then ""
    else if |s| >= 2 && s[0] == '~' && s[1] == '1' then "/" + Decode(s[2..])
    else if |s| >= 2 && s[0] == '~' && s[1] == '0' then "~" + Decode(s[2..])
    else [s[0]] + Decode(s[1..])
  }

  /** Replacing all `~1` and then all `~0` is the one-pass decoding, on every string, well-formed or not. */
  lemma {:induction false} TwoPassesAreOne(s: string)
    ensures Unescape(s) == Decode(s)
    decreases |s|
  {
    if |s| == 0 {
    } else if |s| >= 2 && s[0] == '~' && s[1] == '1' {
      var rest := Replace(s[2..], '1', '/');
      assert Replace(s, '1', '/') == ['/'] + rest;
      assert (['/'] + rest)[1..] == rest;
      TwoPassesAreOne(s[2..]);
    } else if |s| >= 2 && s[0] == '~' && s[1] == '0' {
      var rest := Replace(s[2..], '1', '/');
      assert s[1..][1..] == s[2..];
      assert Replace(s[1..], '1', '/') == ['0'] + rest;
      assert Replace(s, '1', '/') == ['~'] + (['0'] + rest);
      assert (['~'] + (['0'] + rest))[2..] == rest;
      TwoPassesAreOne(s[2..]);
    } else {
      var rest := Replace(s[1..], '1', '/');
      assert Replace(s, '1', '/') == [s[0]] + rest;
      assert ([s[0]] + rest)[1..] == rest;
      if s[0] == '~' && |s| >= 2 {
        NoNewZero(s[1..]);
      }
      TwoPassesAreOne(s[1..]);
    }
  }

  /** The first pass puts no `0` in front that was not there. */
  lemma NoNewZero(s: string)
    requires |s| > 0 && s[0] != '0'
    ensures |Replace(s, '1', '/')| > 0 && Replace(s, '1', '/')[0] != '0'
  {
  }

  lemma {:induction false} DecodeEscape(t: string)
    ensures Decode(Escape(t)) == t && '/' !in Escape(t)
  {
    if |t| > 0 {
      DecodeEscape(t[1..]);
      var e := Escape(t[1..]);
      if t[0] == '~' {
        assert Escape(t) == "~0" + e && ("~0" + e)[2..] == e;
      } else if t[0] == '/' {
        assert Escape(t) == "~1" + e && ("~1" + e)[2..] == e;
      } else {
        assert Escape(t) == [t[0]] + e && ([t[0]] + e)[1..] == e;
      }
    }
  }

  lemma {:induction false} NoTildeNoChange(s: string)
    requires '~' !in s
    ensures Decode(s) == s
  {
    if |s| > 0 {
      assert s[0] in s;
      NoTildeNoChange(s[1..]);
    }
  }

  lemma {:induction false} IndexIs(a: string, b: string)
    requires '/' !in a && (b == "" || b[0] == '/')
    ensures IndexOf(a + b, '/') == |a|
  {
    if a == "" {
      assert a + b == b;
    } else {
      assert (a + b)[0] == a[0] && a[0] in a && (a + b)[1..] == a[1..] + b;
      IndexIs(a[1..], b);
    }
  }

  /** On every path: the first name is the decoded text up to the next slash; a slash in front may be left out. */
  lemma FirstNameIs(text: string, rest: string)
    requires '/' !in text && (rest == "" || rest[0] == '/')
    ensures GetFirstName("/" + text + rest) == (Decode(text), rest)
    ensures text != "" ==> GetFirstName(text + rest) == (Decode(text), rest)
  {
    assert ("/" + text + rest)[1..] == text + rest;
    IndexIs(text, rest);
    assert (text + rest)[..|text|] == text && (text + rest)[|text|..] == rest;
    TwoPassesAreOne(text);
    if '~' !in text {
      NoTildeNoChange(text);
    }
    assert text != "" ==> text[0] in text;
  }

  /** Escaping any non-empty list of tokens and taking the names off one by one gives the tokens back. */
  lemma {:induction false} ParseRender(tokens: seq<string>)
    requires |tokens| > 0
    ensures Parse(Render(tokens)) == tokens
  {
    DecodeEscape(tokens[0]);
    FirstNameIs(Escape(tokens[0]), Render(tokens[1..]));
    if |tokens| > 1 {
      ParseRender(tokens[1..]);
    }
  }

  // --- The order of the two replacements ---

  /** Some `~` of the token is followed by `1`. */
  predicate TildeOne(t: string) {
    |t| >= 2 && ((t[0] == '~' && t[1] == '1') || TildeOne(t[1..]))
  }

  /** Only `/` escaped. */
  function EscapeSlash(t: string): string {
    if |t| == 0 then "" else (if t[0] == '/' then "~1" else [t[0]]) + EscapeSlash(t[1..])
  }

  lemma {:induction false} ZeroFirst(t: string)
    ensures Replace(Escape(t), '0', '~') == EscapeSlash(t)
  {
    if |t| > 0 {
      ZeroFirst(t[1..]);
      var e := Escape(t[1..]);
      if t[0] == '~' {
        assert Escape(t) == "~0" + e && ("~0" + e)[2..] == e;
      } else if t[0] == '/' {
        assert Escape(t) == "~1" + e && ("~1" + e)[1..] == "1" + e && ("1" + e)[1..] == e;
        assert Replace("1" + e, '0', '~') == ['1'] + Replace(e, '0', '~');
        assert Replace("~1" + e, '0', '~') == ['~'] + (['1'] + Replace(e, '0', '~'));
      } else {
        assert Escape(t) == [t[0]] + e && ([t[0]] + e)[1..] == e;
      }
    }
  }

  lemma {:induction false} ThenOne(t: string)
    ensures Replace(EscapeSlash(t), '1', '/') == Replace(t, '1', '/')
    decreases |t|
  {
    if |t| > 0 {
      var e := EscapeSlash(t[1..]);
      ThenOne(t[1..]);
      if t[0] == '/' {
        assert EscapeSlash(t) == "~1" + e && ("~1" + e)[2..] == e;
      } else {
        assert EscapeSlash(t) == [t[0]] + e && ([t[0]] + e)[1..] == e;
        if |t| >= 2 && t[0] == '~' && t[1] == '1' {
          ThenOne(t[2..]);
          var e' := EscapeSlash(t[2..]);
          assert t[1..][1..] == t[2..];
          assert e == ['1'] + e' && ([t[0]] + e)[2..] == e';
        }
      }
    }
  }

  lemma {:induction false} OneIsKept(t: string)
    ensures |Replace(t, '1', '/')| <= |t|
    ensures Replace(t, '1', '/') == t <==> !TildeOne(t)
    decreases |t|
  {
    if |t| > 0 {
      if |t| >= 2 && t[0] == '~' && t[1] == '1' {
        OneIsKept(t[2..]);
      } else {
        OneIsKept(t[1..]);
        assert t == [t[0]] + t[1..];
      }
    }
  }

  /** With the replacements the other way round, exactly the tokens that hold `~1` would be read wrongly. */
  lemma OrderMatters(t: string)
    ensures Replace(Replace(Escape(t), '0', '~'), '1', '/') == t <==> !TildeOne(t)
  {
    ZeroFirst(t);
    ThenOne(t);
    OneIsKept(t);
  }
}
