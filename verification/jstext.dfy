/**
 * The few ECMAScript string primitives the client relies on, stated over
 * Dafny strings (sequences of Unicode scalar values).
 */
module JsText {
  import opened Wrappers

  /** ECMAScript WhiteSpace and LineTerminator code points: what `String.prototype.trim` strips. */
  const JsSpaces: set<char> := {
    '\U{9}', '\U{A}', '\U{B}', '\U{C}', '\U{D}', ' ', '\U{A0}', '\U{1680}',
    '\U{2000}', '\U{2001}', '\U{2002}', '\U{2003}', '\U{2004}', '\U{2005}',
    '\U{2006}', '\U{2007}', '\U{2008}', '\U{2009}', '\U{200A}',
    '\U{2028}', '\U{2029}', '\U{202F}', '\U{205F}', '\U{3000}', '\U{FEFF}'
  }

  /** The first position at or after `i` that does not hold a character of `spaces` (or `|s|`). */
  function SkipForward(s: string, spaces: set<char>, i: nat): (r: nat)
    requires i <= |s|
    ensures i <= r <= |s|
    ensures forall k :: i <= k < r ==> s[k] in spaces
    ensures r < |s| ==> s[r] !in spaces
    decreases |s| - i
  {
    if i == |s| || s[i] !in spaces then i else SkipForward(s, spaces, i + 1)
  }

  /** The end of the last character before `j`, and not before `lo`, that is not in `spaces`. */
  function SkipBackward(s: string, spaces: set<char>, lo: nat, j: nat): (r: nat)
    requires lo <= j <= |s|
    ensures lo <= r <= j
    ensures forall k :: r <= k < j ==> s[k] in spaces
    ensures r > lo ==> s[r - 1] !in spaces
    decreases j
  {
    if j == lo || s[j - 1] !in spaces then j else SkipBackward(s, spaces, lo, j - 1)
  }

  /** Where the kept part of `s` begins once leading `spaces` are cut. */
  function TrimStartIndex(s: string, spaces: set<char>): nat
    ensures TrimStartIndex(s, spaces) <= |s|
  {
    SkipForward(s, spaces, 0)
  }

  /** Where the kept part of `s` ends once trailing `spaces` are cut. */
  function TrimEndIndex(s: string, spaces: set<char>): (j: nat)
    ensures TrimStartIndex(s, spaces) <= j <= |s|
  {
    SkipBackward(s, spaces, TrimStartIndex(s, spaces), |s|)
  }

  /**
   * `s` with the characters of `spaces` cut from both ends: a contiguous piece
   * of `s` with no space at either end, and only spaces outside it.
   */
  function TrimBy(s: string, spaces: set<char>): (r: string)
    ensures var i, j := TrimStartIndex(s, spaces), TrimEndIndex(s, spaces);
      && r == s[i..j]
      && (forall k :: 0 <= k < i ==> s[k] in spaces)
      && (forall k :: j <= k < |s| ==> s[k] in spaces)
    ensures r == [] || (r[0] !in spaces && r[|r| - 1] !in spaces)
  {
    var i, j := TrimStartIndex(s, spaces), TrimEndIndex(s, spaces);
    s[i..j]
  }

  /** `String.prototype.trim`: the input with JavaScript white space cut from both ends. */
  function Trim(s: string): (r: string)
    ensures r == s[TrimStartIndex(s, JsSpaces)..TrimEndIndex(s, JsSpaces)]
    ensures forall k :: 0 <= k < TrimStartIndex(s, JsSpaces) || TrimEndIndex(s, JsSpaces) <= k < |s| ==> s[k] in JsSpaces
    ensures r == [] || (r[0] !in JsSpaces && r[|r| - 1] !in JsSpaces)
  {
    TrimBy(s, JsSpaces)
  }

  /** Trimming twice is trimming once. */
  lemma TrimIdempotent(s: string, spaces: set<char>)
    ensures TrimBy(TrimBy(s, spaces), spaces) == TrimBy(s, spaces)
  {
    var t := TrimBy(s, spaces);
    if t != [] {
      assert TrimStartIndex(t, spaces) == 0;
      assert SkipBackward(t, spaces, 0, |t|) == |t|;
    }
  }

  /** The number of UTF-16 code units of `c`: what a JavaScript string counts it as. */
  function Utf16Units(c: char): nat {
    if c as int > 0xFFFF then 2 else 1
  }

  /** `s.length` as JavaScript reports it: code units, not characters. */
  function Utf16Length(s: string): (n: nat)
    ensures |s| <= n <= 2 * |s|
    ensures (forall i :: 0 <= i < |s| ==> s[i] as int <= 0xFFFF) ==> n == |s|
  {
    if s == [] then 0 else Utf16Units(s[0]) + Utf16Length(s[1..])
  }

  /** A one-character string is as long as that character's code units. */
  lemma Utf16LengthSingle(c: char)
    ensures Utf16Length([c]) == Utf16Units(c)
    ensures Utf16Length([c]) == 2 <==> c as int > 0xFFFF
  {
    assert [c][1..] == [];
  }

  /** JavaScript length adds up over concatenation. */
  lemma {:induction false} Utf16LengthConcat(a: string, b: string)
    ensures Utf16Length(a + b) == Utf16Length(a) + Utf16Length(b)
  {
    if a == [] {
      assert a + b == b;
    } else {
      assert (a + b)[0] == a[0] && (a + b)[1..] == a[1..] + b;
      Utf16LengthConcat(a[1..], b);
    }
  }

  /** Two astral characters (say, two emoji) make a JavaScript string of length 4. */
  lemma TwoAstralCharsLengthFour()
    ensures Utf16Length("😀😀") == 4
  {
    Utf16LengthSingle('😀');
    Utf16LengthConcat("😀", "😀");
  }

  /** Adding one character to a prefix adds that character's code units. */
  lemma Utf16LengthSnoc(t: string, i: nat)
    requires i < |t|
    ensures Utf16Length(t[..i + 1]) == Utf16Length(t[..i]) + Utf16Units(t[i])
  {
    assert t[..i + 1] == t[..i] + [t[i]];
    Utf16LengthConcat(t[..i], [t[i]]);
    Utf16LengthSingle(t[i]);
  }

  /** The JavaScript length of a prefix is at most that of a longer prefix. */
  lemma Utf16LengthPrefix(s: string, k: nat, m: nat)
    requires k <= m <= |s|
    ensures Utf16Length(s[..k]) <= Utf16Length(s[..m])
  {
    assert s[..m] == s[..k] + s[k..m];
    Utf16LengthConcat(s[..k], s[k..m]);
  }

  /**
   * Scans `t` from index `i`, where the prefix before `i` already uses `used`
   * code units, to the end of the longest prefix within `budget` units.
   */
  function Utf16PrefixEnd(t: string, budget: nat, i: nat, used: nat): (k: nat)
    requires i <= |t| && used == Utf16Length(t[..i]) && used <= budget
    ensures i <= k <= |t| && Utf16Length(t[..k]) <= budget
    ensures k == |t| || Utf16Length(t[..k + 1]) > budget
    decreases |t| - i
  {
    if i == |t| then i
    else
      Utf16LengthSnoc(t, i);
      if used + Utf16Units(t[i]) > budget then i
      else Utf16PrefixEnd(t, budget, i + 1, used + Utf16Units(t[i]))
  }

  /**
   * `t.substring(0, budget)` on whole characters: the longest prefix of `t` whose
   * JavaScript length is within `budget`. Where the cut would fall inside a
   * surrogate pair, the whole character is left out.
   */
  function Utf16Prefix(t: string, budget: nat): (r: string)
    ensures |r| <= |t| && r == t[..|r|]
    ensures Utf16Length(r) <= budget
    ensures r == t || Utf16Length(t[..|r| + 1]) > budget
    ensures Utf16Length(t) <= budget ==> r == t
  {
    assert t[..0] == [] && t[..|t|] == t;
    var k := Utf16PrefixEnd(t, budget, 0, 0);
    Utf16LengthPrefix(t, if k < |t| then k + 1 else k, |t|);
    t[..k]
  }

  /** Two prefix ends that both fit the budget and cannot grow by one character are the same. */
  lemma Utf16PrefixEndUnique(t: string, budget: nat, a: nat, b: nat)
    requires a <= |t| && Utf16Length(t[..a]) <= budget && (a == |t| || Utf16Length(t[..a + 1]) > budget)
    requires b <= |t| && Utf16Length(t[..b]) <= budget && (b == |t| || Utf16Length(t[..b + 1]) > budget)
    ensures a == b
  {
    if a < b {
      Utf16LengthPrefix(t, a + 1, b);
    } else if b < a {
      Utf16LengthPrefix(t, b + 1, a);
    }
  }

  /** Those three facts pin the prefix down: any prefix end meeting them is where `Utf16Prefix` cuts. */
  lemma Utf16PrefixUnique(t: string, budget: nat, n: nat)
    requires n <= |t| && Utf16Length(t[..n]) <= budget
    requires n == |t| || Utf16Length(t[..n + 1]) > budget
    ensures Utf16Prefix(t, budget) == t[..n]
  {
    assert t[..0] == [];
    Utf16PrefixEndUnique(t, budget, Utf16PrefixEnd(t, budget, 0, 0), n);
  }

  /** JavaScript truthiness of an optional string: absent and `''` are both falsy. */
  predicate Truthy(s: Option<string>) {
    s.Some? && s.value != ""
  }

  /** `a || b` on optional strings: the first truthy operand, else the last one. */
  function OrElse(a: Option<string>, fallback: string): (r: string)
    ensures Truthy(a) ==> r == a.value
    ensures !Truthy(a) ==> r == fallback
  {
    if Truthy(a) then a.value else fallback
  }
}
