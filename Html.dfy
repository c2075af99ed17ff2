/**
 * `escapeHtml`, defined identically in app.js and admin.js: falsy input gives the empty
 * string; otherwise `String(s)` with each of & < > " ' ` replaced by a fixed character
 * reference. `Unescape` is the decoding a browser applies to those references, and is
 * the partner of the escaper: escaping loses nothing.
 */
module Html {
  import opened Js

  /** The characters the escaper replaces. */
  predicate IsSpecial(c: char)
  {
    c == '&' || c == '<' || c == '>' || c == '"' || c == '\'' || c == '`'
  }

  /** The characters that could open a tag, close an attribute or start a template. */
  predicate IsMarkup(c: char)
  {
    c == '<' || c == '>' || c == '"' || c == '\'' || c == '`'
  }

  /** The replacement for one character. */
  function Entity(c: char): (r: string)
    ensures IsSpecial(c) ==> |r| >= 4 && r[0] == '&' && r[|r| - 1] == ';'
    ensures !IsSpecial(c) ==> r == [c]
    ensures forall i :: 0 <= i < |r| ==> !IsMarkup(r[i])
  {
    match c
    case '&' => "&amp;"
    case '<' => "&lt;"
    case '>' => "&gt;"
    case '"' => "&quot;"
    case '\'' => "&#39;"
    case '`' => "&#96;"
    case _ => [c]
  }

  /** The global regular-expression replacement, one character at a time. */
  function EscapeText(s: string): (r: string)
    ensures |r| >= |s|
    ensures forall i :: 0 <= i < |r| ==> !IsMarkup(r[i])
  {
    if s == [] then [] else Entity(s[0]) + EscapeText(s[1..])
  }

  /** A one-character text escapes to that character's replacement. */
  lemma EscapeTextChar(c: char)
    ensures EscapeText([c]) == Entity(c)
  {
    assert Entity(c) + [] == Entity(c);
  }

  /** The replacement works character by character: escaping distributes over concatenation. */
  lemma {:induction false} EscapeTextConcat(a: string, b: string)
    ensures EscapeText(a + b) == EscapeText(a) + EscapeText(b)
  {
    if a == [] {
      assert a + b == b;
    } else {
      assert (a + b)[0] == a[0] && (a + b)[1..] == a[1..] + b;
      EscapeTextConcat(a[1..], b);
    }
  }

  /** `s[i..]` opens with one of the six references the escaper writes. */
  predicate RefAt(s: string, i: nat)
    requires i <= |s|
  {
    var t := s[i..];
    StartsWith(t, "&amp;") || StartsWith(t, "&lt;") || StartsWith(t, "&gt;")
    || StartsWith(t, "&quot;") || StartsWith(t, "&#39;") || StartsWith(t, "&#96;")
  }

  /** The escaped text holds no bare ampersand: every `&` opens one of the six references. */
  lemma {:induction false} EscapedAmpersands(s: string)
    ensures forall i :: 0 <= i < |EscapeText(s)| && EscapeText(s)[i] == '&' ==> RefAt(EscapeText(s), i)
  {
    if s != [] {
      EscapedAmpersands(s[1..]);
      var e, rest := Entity(s[0]), EscapeText(s[1..]);
      var r := e + rest;
      assert r == EscapeText(s);
      forall i | 0 <= i < |r| && r[i] == '&'
        ensures RefAt(r, i)
      {
        if i < |e| {
          EntityAmpersand(s[0], i, rest);
        } else {
          assert r[i..] == rest[i - |e|..];
          assert rest[i - |e|] == '&';
        }
      }
    }
  }

  /** An `&` inside a replacement is its first character, and there it opens the reference. */
  lemma EntityAmpersand(c: char, i: nat, t: string)
    requires i < |Entity(c)| && Entity(c)[i] == '&'
    ensures RefAt(Entity(c) + t, i)
  {
    var e := Entity(c);
    var u := e + t;
    assert u[..|e|] == e;
    assert i == 0;
    assert u[0..] == u;
  }

  /** `escapeHtml(s)` */
  function EscapeHtml(v: Value): (r: string)
    ensures !Truthy(v) ==> r == ""
    ensures forall i :: 0 <= i < |r| ==> !IsMarkup(r[i])
  {
    if !Truthy(v) then "" else EscapeText(ToString(v))
  }

  predicate StartsWith(s: string, p: string)
  {
    |p| <= |s| && s[..|p|] == p
  }

  /** Decoding of the six character references the escaper writes; every other character is kept. */
  function Unescape(s: string): string
    decreases |s|
  {
    if s == [] then []
    else if StartsWith(s, "&amp;") then "&" + Unescape(s[5..])
    else if StartsWith(s, "&lt;") then "<" + Unescape(s[4..])
    else if StartsWith(s, "&gt;") then ">" + Unescape(s[4..])
    else if StartsWith(s, "&quot;") then "\"" + Unescape(s[6..])
    else if StartsWith(s, "&#39;") then "'" + Unescape(s[5..])
    else if StartsWith(s, "&#96;") then "`" + Unescape(s[5..])
    else [s[0]] + Unescape(s[1..])
  }

  lemma UnescapeEntity(c: char, t: string)
    ensures Unescape(Entity(c) + t) == [c] + Unescape(t)
  {
    var u := Entity(c) + t;
    var e := Entity(c);
    assert u[..|e|] == e && u[|e|..] == t;
    if !IsSpecial(c) {
      assert u[0] == c && u[1..] == t;
      assert !StartsWith(u, "&amp;") && !StartsWith(u, "&lt;") && !StartsWith(u, "&gt;");
      assert !StartsWith(u, "&quot;") && !StartsWith(u, "&#39;") && !StartsWith(u, "&#96;");
    } else if c == '<' {
      assert u[1] == 'l' && !StartsWith(u, "&amp;");
    } else if c == '>' {
      assert u[1] == 'g' && !StartsWith(u, "&amp;") && !StartsWith(u, "&lt;");
    } else if c == '"' {
      assert u[1] == 'q' && !StartsWith(u, "&amp;") && !StartsWith(u, "&lt;") && !StartsWith(u, "&gt;");
    } else if c == '\'' {
      assert u[1] == '#' && u[2] == '3';
      assert !StartsWith(u, "&amp;") && !StartsWith(u, "&lt;") && !StartsWith(u, "&gt;") && !StartsWith(u, "&quot;");
    } else if c == '`' {
      assert u[1] == '#' && u[2] == '9';
      assert !StartsWith(u, "&amp;") && !StartsWith(u, "&lt;") && !StartsWith(u, "&gt;") && !StartsWith(u, "&quot;");
      assert !StartsWith(u, "&#39;");
    }
  }

  /** Escaping is lossless: decoding the references gives back the text. */
  lemma {:induction false} UnescapeEscapeText(s: string)
    ensures Unescape(EscapeText(s)) == s
  {
    if s != [] {
      UnescapeEntity(s[0], EscapeText(s[1..]));
      UnescapeEscapeText(s[1..]);
    }
  }

  /** Two different texts never escape to the same markup. */
  lemma EscapeTextInjective(a: string, b: string)
    requires EscapeText(a) == EscapeText(b)
    ensures a == b
  {
    UnescapeEscapeText(a);
    UnescapeEscapeText(b);
  }

  /** A text is left as is exactly when it holds none of the six special characters. */
  lemma {:induction false} EscapeTextUnchangedIff(s: string)
    ensures EscapeText(s) == s <==> forall i :: 0 <= i < |s| ==> !IsSpecial(s[i])
  {
    if s != [] {
      EscapeTextUnchangedIff(s[1..]);
      var r := EscapeText(s);
      if IsSpecial(s[0]) {
        assert |Entity(s[0])| >= 4;
        assert |r| > |s|;
      } else {
        assert r == [s[0]] + EscapeText(s[1..]);
        assert (forall i :: 0 <= i < |s| ==> !IsSpecial(s[i]))
           <==> (forall i :: 0 <= i < |s[1..]| ==> !IsSpecial(s[1..][i]));
      }
    }
  }

  /** Truthy input is escaped as its string; `String(v)` is recovered by decoding. */
  lemma UnescapeEscapeHtml(v: Value)
    requires Truthy(v)
    ensures Unescape(EscapeHtml(v)) == ToString(v)
  {
    UnescapeEscapeText(ToString(v));
  }
}
