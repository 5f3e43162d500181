/** `escape` (src/puncher/puncher.py): make text safe to place inside SVG markup by
    three successive replacements, `&` first, then `>`, then `<`. */
module Escaping {
  import opened Builtins

  function Escape(text: string): string
  {
    Replace(Replace(Replace(text, '&', "&amp;"), '>', "&gt;"), '<', "&lt;")
  }

  /** What one character becomes in escaped text. */
  function EscapeChar(c: char): string
  {
    if c == '&' then "&amp;" else if c == '>' then "&gt;" else if c == '<' then "&lt;" else [c]
  }

  /** Reference definition: escape every character on its own and concatenate. */
  function EscapeEach(s: string): string
  {
    if s == [] then [] else EscapeChar(s[0]) + EscapeEach(s[1..])
  }

  /** The three passes agree with escaping character by character; in particular the
      `&amp;` introduced for `>` and `<` is never escaped a second time, because `&`
      is replaced first. */
  lemma {:induction false} EscapeIsPerCharacter(s: string)
    ensures Escape(s) == EscapeEach(s)
  {
    if s != [] {
      var c, rest := s[0], s[1..];
      assert s == [c] + rest;
      ReplaceAppend([c], rest, '&', "&amp;");
      var a1, b1 := Replace([c], '&', "&amp;"), Replace(rest, '&', "&amp;");
      ReplaceAppend(a1, b1, '>', "&gt;");
      var a2, b2 := Replace(a1, '>', "&gt;"), Replace(b1, '>', "&gt;");
      ReplaceAppend(a2, b2, '<', "&lt;");
      EscapeOne(c);
      EscapeIsPerCharacter(rest);
    }
  }

  lemma ReplaceOne(c: char, pat: char, rep: string)
    ensures Replace([c], pat, rep) == if c == pat then rep else [c]
  {
    assert [c][1..] == [];
  }

  lemma EscapeOne(c: char)
    ensures Escape([c]) == EscapeChar(c)
  {
    ReplaceOne(c, '&', "&amp;");
    var a1 := Replace([c], '&', "&amp;");
    if c == '&' {
      ReplaceAbsent(a1, '>', "&gt;");
      ReplaceAbsent(a1, '<', "&lt;");
    } else {
      ReplaceOne(c, '>', "&gt;");
      var a2 := Replace(a1, '>', "&gt;");
      if c == '>' {
        ReplaceAbsent(a2, '<', "&lt;");
      } else {
        ReplaceOne(c, '<', "&lt;");
      }
    }
  }

  lemma EscapeCharCounts(c: char)
    ensures |EscapeChar(c)| == 1 + (if c == '&' then 4 else if c == '<' || c == '>' then 3 else 0)
    ensures Count(EscapeChar(c), '&') == if c == '&' || c == '<' || c == '>' then 1 else 0
  {
    if c == '&' {
      CountAppend(['&'], "amp;", '&');
      assert EscapeChar(c) == ['&'] + "amp;";
    } else if c == '<' {
      CountAppend(['&'], "lt;", '&');
      assert EscapeChar(c) == ['&'] + "lt;";
    } else if c == '>' {
      CountAppend(['&'], "gt;", '&');
      assert EscapeChar(c) == ['&'] + "gt;";
    }
  }

  lemma {:induction false} EscapeEachNoAngleBrackets(s: string)
    ensures '<' !in EscapeEach(s) && '>' !in EscapeEach(s)
  {
    if s != [] {
      EscapeEachNoAngleBrackets(s[1..]);
    }
  }

  /** Escaped text never contains `<` or `>`. */
  lemma EscapeNoAngleBrackets(s: string)
    ensures '<' !in Escape(s) && '>' !in Escape(s)
  {
    EscapeIsPerCharacter(s);
    EscapeEachNoAngleBrackets(s);
  }

  /** Text without any of the three special characters is left as it is. */
  lemma EscapeIdentity(s: string)
    requires '&' !in s && '<' !in s && '>' !in s
    ensures Escape(s) == s
  {
    ReplaceAbsent(s, '&', "&amp;");
    ReplaceAbsent(s, '>', "&gt;");
    ReplaceAbsent(s, '<', "&lt;");
  }

  /** Each `&` grows the text by four characters, each `<` and `>` by three. */
  lemma {:induction false} EscapeEachLength(s: string)
    ensures |EscapeEach(s)| == |s| + 4 * Count(s, '&') + 3 * Count(s, '<') + 3 * Count(s, '>')
    ensures Count(EscapeEach(s), '&') == Count(s, '&') + Count(s, '<') + Count(s, '>')
  {
    if s != [] {
      var c, rest := s[0], s[1..];
      EscapeEachLength(rest);
      EscapeCharCounts(c);
      CountAppend(EscapeChar(c), EscapeEach(rest), '&');
    }
  }

  lemma EscapeLength(s: string)
    ensures |Escape(s)| == |s| + 4 * Count(s, '&') + 3 * Count(s, '<') + 3 * Count(s, '>')
  {
    EscapeIsPerCharacter(s);
    EscapeEachLength(s);
  }

  /** Escaping twice gives the same text exactly when there was nothing to escape:
      escape is not idempotent, since every entity it writes starts with `&`. */
  lemma EscapeIdempotentIff(s: string)
    ensures Escape(Escape(s)) == Escape(s) <==> ('&' !in s && '<' !in s && '>' !in s)
  {
    if '&' !in s && '<' !in s && '>' !in s {
      EscapeIdentity(s);
    } else {
      var e := Escape(s);
      EscapeIsPerCharacter(s);
      EscapeEachLength(s);
      assert Count(e, '&') >= 1;
      EscapeLength(e);
      assert |Escape(e)| > |e|;
    }
  }
}
