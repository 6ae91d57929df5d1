/**
 * `escapeHtml` (app.js): the character-entity encoder applied to every
 * user-supplied string before it is placed in markup, and the decoder that
 * undoes it.
 */
module Html {

  /** The replacement of one character: an entity for `&`, `<`, `>`, the character itself otherwise. */
  function Entity(c: char): (r: string)
    ensures |r| >= 1
    ensures '<' !in r && '>' !in r
    ensures c == '&' ==> r == "&amp;"
    ensures c == '<' ==> r == "&lt;"
    ensures c == '>' ==> r == "&gt;"
    ensures c != '&' && c != '<' && c != '>' ==> r == [c]
  {
    match c
    case '&' => "&amp;"
    case '<' => "&lt;"
    case '>' => "&gt;"
    case _ => [c]
  }

  /** `escapeHtml`: each character replaced by its entity, left to right. */
  function EscapeHtml(s: string): (r: string)
    ensures |r| >= |s|
    ensures '<' !in r && '>' !in r
  {
    if s == [] then [] else Entity(s[0]) + EscapeHtml(s[1..])
  }

  /** Decodes the three entities the encoder produces and copies everything else. */
  function UnescapeHtml(t: string): (r: string)
    ensures |r| <= |t|
  {
    if t == [] then []
    else if |t| >= 5 && t[..5] == "&amp;" then "&" + UnescapeHtml(t[5..])
    else if |t| >= 4 && t[..4] == "&lt;" then "<" + UnescapeHtml(t[4..])
    else if |t| >= 4 && t[..4] == "&gt;" then ">" + UnescapeHtml(t[4..])
    else [t[0]] + UnescapeHtml(t[1..])
  }

  /** Decoding one entity followed by anything yields its character followed by the decoded rest. */
  lemma DecodeEntity(c: char, rest: string)
    ensures UnescapeHtml(Entity(c) + rest) == [c] + UnescapeHtml(rest)
  {
    match c
    case '&' => DecodeAmp(rest);
    case '<' => DecodeAngle(c, rest);
    case '>' => DecodeAngle(c, rest);
    case _ => DecodePlain(c, rest);
  }

  lemma DecodeAmp(rest: string)
    ensures UnescapeHtml("&amp;" + rest) == "&" + UnescapeHtml(rest)
  {
    var t := "&amp;" + rest;
    assert t[..5] == "&amp;" && t[5..] == rest;
  }

  lemma DecodePlain(c: char, rest: string)
    requires c != '&'
    ensures UnescapeHtml([c] + rest) == [c] + UnescapeHtml(rest)
  {
    var t := [c] + rest;
    assert t[0] == c && t[1..] == rest;
  }

  lemma DecodeAngle(c: char, rest: string)
    requires c == '<' || c == '>'
    ensures UnescapeHtml(Entity(c) + rest) == [c] + UnescapeHtml(rest)
  {
    var t := Entity(c) + rest;
    assert t[..4] == Entity(c) && t[4..] == rest;
    assert t[1] == (if c == '<' then 'l' else 'g');
  }

  /** Decoding an encoding gives the original string back: the encoder loses nothing. */
  lemma {:induction false} EscapeRoundTrip(s: string)
    ensures UnescapeHtml(EscapeHtml(s)) == s
  {
    if s != [] {
      EscapeRoundTrip(s[1..]);
      DecodeEntity(s[0], EscapeHtml(s[1..]));
      assert s == [s[0]] + s[1..];
    }
  }

  /** Distinct strings stay distinct once escaped. */
  lemma EscapeInjective(a: string, b: string)
    requires EscapeHtml(a) == EscapeHtml(b)
    ensures a == b
  {
    EscapeRoundTrip(a);
    EscapeRoundTrip(b);
  }

  /** A string with no `&`, `<` or `>` is left exactly as it is. */
  lemma {:induction false} EscapeIdentityOnPlainText(s: string)
    requires '&' !in s && '<' !in s && '>' !in s
    ensures EscapeHtml(s) == s
  {
    if s != [] {
      EscapeIdentityOnPlainText(s[1..]);
      assert s == [s[0]] + s[1..];
    }
  }

  /** Escaping distributes over concatenation, as a character-by-character replacement does. */
  lemma {:induction false} EscapeConcat(a: string, b: string)
    ensures EscapeHtml(a + b) == EscapeHtml(a) + EscapeHtml(b)
  {
    if a != [] {
      var ab := a + b;
      assert ab[0] == a[0] && ab[1..] == a[1..] + b;
      EscapeConcat(a[1..], b);
      assert EscapeHtml(ab) == Entity(a[0]) + (EscapeHtml(a[1..]) + EscapeHtml(b));
    } else {
      assert a + b == b;
    }
  }
}
