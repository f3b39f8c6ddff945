/** The few JavaScript string operations the core relies on: `trim()`,
    the `\w` character class, `toUpperCase()` on a `\w` character and
    `toLowerCase()` for case-insensitive comparison of names. */
module Text {

  /** ECMAScript WhiteSpace and LineTerminator code points, the set `trim()` strips. */
  predicate IsWhitespace(c: char)
  {
    c == '\t' || c == '\n' || c == '\U{000B}' || c == '\U{000C}' || c == '\r' || c == ' '
    || c == '\U{00A0}' || c == '\U{1680}' || ('\U{2000}' <= c <= '\U{200A}')
    || c == '\U{2028}' || c == '\U{2029}' || c == '\U{202F}' || c == '\U{205F}'
    || c == '\U{3000}' || c == '\U{FEFF}'
  }

  /** The regular-expression class `\w`: ASCII letters, digits and `_` only. */
  predicate IsWordChar(c: char)
  {
    ('a' <= c <= 'z') || ('A' <= c <= 'Z') || ('0' <= c <= '9') || c == '_'
  }

  /** `toUpperCase()` applied to a `\w` character: only `a`..`z` change. */
  function UpperWordChar(c: char): (u: char)
    ensures IsWordChar(u) == IsWordChar(c)
    ensures 'a' <= c <= 'z' ==> 'A' <= u <= 'Z'
    ensures !('a' <= c <= 'z') ==> u == c
  {
    if 'a' <= c <= 'z' then (c as int - 32) as char else c
  }

  /** The capitals `toLowerCase()` maps here: A-Z and the Latin-1 capitals
      U+00C0..U+00DE except the multiplication sign U+00D7. */
  predicate IsCapital(c: char)
  {
    'A' <= c <= 'Z' || ('\U{00C0}' <= c <= '\U{00DE}' && c != '\U{00D7}')
  }

  /** `toLowerCase()` of one character: a capital becomes the letter 32 code points
      above it, anything else is unchanged, and the result is never a capital. */
  function LowerChar(c: char): (l: char)
    ensures IsCapital(c) ==> l as int == c as int + 32
    ensures !IsCapital(c) ==> l == c
    ensures !IsCapital(l)
  {
    if IsCapital(c) then (c as int + 32) as char else c
  }

  /** The case-insensitive key of a name, `name.toLowerCase()`: same length, every
      capital lowered, every other character kept, and no capital left. */
  function Lower(s: string): (r: string)
    ensures |r| == |s|
    ensures forall i :: 0 <= i < |s| ==> r[i] == LowerChar(s[i])
    ensures forall i :: 0 <= i < |s| ==> !IsCapital(r[i])
  {
    seq(|s|, i requires 0 <= i < |s| => LowerChar(s[i]))
  }

  /** Lower-casing a key changes nothing: the key of a key is itself. */
  lemma LowerIdempotent(s: string)
    ensures Lower(Lower(s)) == Lower(s)
  {
    var k := Lower(s);
    forall i | 0 <= i < |k|
      ensures LowerChar(k[i]) == k[i]
    {
      assert !IsCapital(k[i]);
    }
  }

  /** Two names that differ only in the case of their letters have the same key:
      at every position the characters are equal, or one is the other's capital. */
  lemma SameKeyIgnoringCase(s: string, t: string)
    requires |s| == |t|
    requires forall i :: 0 <= i < |s| ==>
      s[i] == t[i] || (IsCapital(s[i]) && t[i] as int == s[i] as int + 32)
                   || (IsCapital(t[i]) && s[i] as int == t[i] as int + 32)
    ensures Lower(s) == Lower(t)
  {
    forall i | 0 <= i < |s|
      ensures LowerChar(s[i]) == LowerChar(t[i])
    {
      if IsCapital(s[i]) && t[i] as int == s[i] as int + 32 {
        assert !IsCapital(t[i]);
      } else if IsCapital(t[i]) && s[i] as int == t[i] as int + 32 {
        assert !IsCapital(s[i]);
      }
    }
  }

  /** Example: "Bomba De Agua" and "BOMBA de agua" clash. */
  lemma SameKeyExample()
    ensures Lower("Bomba De Agua") == Lower("BOMBA de agua")
  {
    SameKeyIgnoringCase("Bomba De Agua", "BOMBA de agua");
  }

  /** `trim()` of the leading part. */
  function TrimStart(s: string): (r: string)
    ensures |r| <= |s| && r == s[|s| - |r|..]
    ensures r == [] || !IsWhitespace(r[0])
    ensures forall i :: 0 <= i < |s| - |r| ==> IsWhitespace(s[i])
  {
    if s != [] && IsWhitespace(s[0]) then TrimStart(s[1..]) else s
  }

  /** `trim()` of the trailing part. */
  function TrimEnd(s: string): (r: string)
    ensures |r| <= |s| && r == s[..|r|]
    ensures r == [] || !IsWhitespace(r[|r| - 1])
    ensures forall i :: |r| <= i < |s| ==> IsWhitespace(s[i])
  {
    if s != [] && IsWhitespace(s[|s| - 1]) then TrimEnd(s[..|s| - 1]) else s
  }

  /** The number of whitespace characters `trim()` removes at the front. */
  function LeadingWhitespace(s: string): (n: nat)
    ensures n <= |s|
    ensures forall i :: 0 <= i < n ==> IsWhitespace(s[i])
    ensures n < |s| ==> !IsWhitespace(s[n])
  {
    |s| - |TrimStart(s)|
  }

  /** Nothing is left exactly when everything is whitespace. */
  lemma TrimEmptyIff(s: string)
    ensures TrimEnd(TrimStart(s)) == [] <==> forall i :: 0 <= i < |s| ==> IsWhitespace(s[i])
  {
    var t := TrimStart(s);
    if t != [] {
      assert !IsWhitespace(t[0]);
      assert s[|s| - |t|] == t[0];
    }
  }

  /** What is left starts and ends with a non-whitespace character. */
  lemma TrimEnds(s: string)
    ensures var r := TrimEnd(TrimStart(s));
      r == [] || (!IsWhitespace(r[0]) && !IsWhitespace(r[|r| - 1]))
  {
    var t := TrimStart(s);
    var r := TrimEnd(t);
    assert r != [] ==> r[0] == t[0];
  }

  /** A string with non-whitespace ends is left as it is. */
  lemma TrimKeepsTrimmed(s: string)
    ensures (s == [] || (!IsWhitespace(s[0]) && !IsWhitespace(s[|s| - 1]))) ==> TrimEnd(TrimStart(s)) == s
  {
    if s != [] && !IsWhitespace(s[0]) {
      assert TrimStart(s) == s;
    }
  }

  /** `s.trim()`: the longest infix of `s` that starts and ends with a non-whitespace
      character; empty exactly when `s` is all whitespace. */
  function Trim(s: string): (r: string)
    ensures |r| <= |s|
    ensures r == [] || (!IsWhitespace(r[0]) && !IsWhitespace(r[|r| - 1]))
    ensures r == [] <==> forall i :: 0 <= i < |s| ==> IsWhitespace(s[i])
    ensures (s == [] || (!IsWhitespace(s[0]) && !IsWhitespace(s[|s| - 1]))) ==> r == s
  {
    TrimEmptyIff(s);
    TrimKeepsTrimmed(s);
    TrimEnds(s);
    TrimEnd(TrimStart(s))
  }

  /** The trimmed text is `s` itself with its leading whitespace and its trailing whitespace cut off. */
  lemma TrimIsInfix(s: string)
    ensures var r := Trim(s); var a := LeadingWhitespace(s);
      && a + |r| <= |s| && r == s[a..a + |r|]
      && forall i :: a + |r| <= i < |s| ==> IsWhitespace(s[i])
  {
  }

  /** The position `i` is matched by `/\b\w/`: a word character with no word character before it. */
  predicate WordStart(s: string, i: int)
    requires 0 <= i < |s|
  {
    IsWordChar(s[i]) && (i == 0 || !IsWordChar(s[i - 1]))
  }

  /** `s.replace(/\b\w/g, l => l.toUpperCase())`. */
  function TitleCase(s: string): (r: string)
    ensures |r| == |s|
    ensures forall i :: 0 <= i < |s| ==> IsWordChar(r[i]) == IsWordChar(s[i])
    ensures forall i :: 0 <= i < |s| && WordStart(s, i) && 'a' <= s[i] <= 'z' ==>
      'A' <= r[i] <= 'Z' && r[i] as int == s[i] as int - 32
    ensures forall i :: 0 <= i < |s| && !(WordStart(s, i) && 'a' <= s[i] <= 'z') ==> r[i] == s[i]
  {
    seq(|s|, i requires 0 <= i < |s| => if WordStart(s, i) then UpperWordChar(s[i]) else s[i])
  }

  /** No `\w` character is whitespace. */
  lemma WordCharNotWhitespace(c: char)
    requires IsWordChar(c)
    ensures !IsWhitespace(c)
  {
  }

  /** Title-casing turns no character into whitespace and no whitespace into something else. */
  lemma TitleCaseCharWhitespace(s: string, i: int)
    requires 0 <= i < |s|
    ensures IsWhitespace(TitleCase(s)[i]) == IsWhitespace(s[i])
  {
    var r := TitleCase(s);
    if WordStart(s, i) {
      WordCharNotWhitespace(s[i]);
      WordCharNotWhitespace(r[i]);
    } else {
      assert r[i] == s[i];
    }
  }

  /** Title-casing keeps a trimmed string trimmed. */
  lemma TitleCaseKeepsTrimmed(s: string)
    requires s == [] || (!IsWhitespace(s[0]) && !IsWhitespace(s[|s| - 1]))
    ensures Trim(TitleCase(s)) == TitleCase(s)
  {
    var r := TitleCase(s);
    if s != [] {
      TitleCaseCharWhitespace(s, 0);
      TitleCaseCharWhitespace(s, |s| - 1);
      assert !IsWhitespace(r[0]) && !IsWhitespace(r[|r| - 1]);
    }
  }

  /** Title-casing leaves the case-insensitive key unchanged, so title-casing never
      changes which catalog names a name clashes with; only the trim does. */
  lemma TitleCaseKeepsKey(s: string)
    ensures Lower(TitleCase(s)) == Lower(s)
  {
    var t := TitleCase(s);
    forall i | 0 <= i < |s|
      ensures LowerChar(t[i]) == LowerChar(s[i])
    {
      if WordStart(s, i) && 'a' <= s[i] <= 'z' {
        assert t[i] == UpperWordChar(s[i]);
      }
    }
  }

  /** Normalising twice is normalising once. */
  lemma TitleCaseIdempotent(s: string)
    ensures TitleCase(TitleCase(s)) == TitleCase(s)
  {
    var t := TitleCase(s);
    var tt := TitleCase(t);
    forall i | 0 <= i < |s|
      ensures tt[i] == t[i]
    {
      if WordStart(t, i) {
        assert WordStart(s, i);
        assert t[i] == UpperWordChar(s[i]);
      }
    }
  }

  /** `\w` is ASCII-only: a letter that follows an accented letter starts a new word. */
  lemma TitleCaseAfterAccent()
    ensures TitleCase("canción") == "CancióN"
  {
    var s := "canción";
    assert WordStart(s, 0) && !WordStart(s, 1) && !WordStart(s, 4) && WordStart(s, 6);
    assert !IsWordChar(s[5]);
  }
}
