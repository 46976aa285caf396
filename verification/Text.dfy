/** Text measured in UTF-16 code units (section 2.1 of RFC 2781). */
module Text {

  /** A character outside the basic plane takes a surrogate pair. */
  function Width(c: char): nat {
    if c as int > 0xFFFF then 2 else 1
  }

  function Utf16Length(s: string): nat {
    if s == "" then 0 else Utf16Length(s[..|s| - 1]) + Width(s[|s| - 1])
  }

  /** One unit for every character, and one more for those beyond U+FFFF. */
  function Astral(s: string): multiset<char> {
    if s == "" then multiset{}
    else Astral(s[..|s| - 1]) + (if s[|s| - 1] > '\U{FFFF}' then multiset{s[|s| - 1]} else multiset{})
  }

  lemma {:induction false} LengthReads(s: string)
    ensures Utf16Length(s) == |s| + |Astral(s)|
    ensures forall c :: Astral(s)[c] == if c > '\U{FFFF}' then multiset(s)[c] else 0
  {
    if s != "" {
      LengthReads(s[..|s| - 1]);
      assert s == s[..|s| - 1] + [s[|s| - 1]];
    }
  }

  lemma {:induction false} LengthOfConcat(a: string, b: string)
    ensures Utf16Length(a + b) == Utf16Length(a) + Utf16Length(b)
  {
    if b == "" {
      assert a + b == a;
    } else {
      assert (a + b)[..|a + b| - 1] == a + b[..|b| - 1];
      LengthOfConcat(a, b[..|b| - 1]);
    }
  }

  lemma LengthOfNext(s: string, n: nat)
    requires n < |s|
    ensures Utf16Length(s[..n + 1]) == Utf16Length(s[..n]) + Width(s[n])
  {
    var next := s[..n + 1];
    assert next[..n] == s[..n] && next[n] == s[n];
  }

  lemma LengthOfPrefix(s: string, n: nat)
    requires n <= |s|
    ensures Utf16Length(s[..n]) + Utf16Length(s[n..]) == Utf16Length(s)
    ensures n < |s| ==> Utf16Length(s[..n + 1]) == Utf16Length(s[..n]) + Width(s[n])
  {
    hide Utf16Length;
    LengthOfConcat(s[..n], s[n..]);
    assert s[..n] + s[n..] == s;
    if n < |s| {
      LengthOfNext(s, n);
    }
  }

  /** str.isspace of Python. */
  predicate PythonSpace(c: char) {
    var n := c as int;
    || 0x09 <= n <= 0x0D || 0x1C <= n <= 0x20 || n == 0x85 || n == 0xA0 || n == 0x1680
    || 0x2000 <= n <= 0x200A || n == 0x2028 || n == 0x2029 || n == 0x202F || n == 0x205F || n == 0x3000
  }

  /** What String.prototype.trim of JavaScript removes. */
  predicate JsSpace(c: char) {
    var n := c as int;
    || 0x09 <= n <= 0x0D || n == 0x20 || n == 0xA0 || n == 0x1680
    || 0x2000 <= n <= 0x200A || n == 0x2028 || n == 0x2029 || n == 0x202F || n == 0x205F || n == 0x3000
    || n == 0xFEFF
  }

  /** Python and JavaScript trim the same characters, but for the separators U+001C to U+001F, NEL and the BOM. */
  lemma SpacesDiffer(c: char)
    ensures PythonSpace(c) != JsSpace(c)
            <==> '\U{1C}' <= c <= '\U{1F}' || c == '\U{85}' || c == '\U{FEFF}'
    ensures JsSpace(c) <==> c in {
              '\t', '\n', '\U{B}', '\U{C}', '\r', ' ', '\U{A0}', '\U{1680}', '\U{2000}', '\U{2001}', '\U{2002}',
              '\U{2003}', '\U{2004}', '\U{2005}', '\U{2006}', '\U{2007}', '\U{2008}', '\U{2009}', '\U{200A}',
              '\U{2028}', '\U{2029}', '\U{202F}', '\U{205F}', '\U{3000}', '\U{FEFF}'}
  {
  }

  /** s.rstrip(): the shortest prefix that leaves only spaces behind. */
  function RStrip(s: string): (r: string)
    ensures |r| <= |s| && r == s[..|r|]
    ensures forall i | |r| <= i < |s| :: PythonSpace(s[i])
    ensures r != "" ==> !PythonSpace(r[|r| - 1])
  {
    if s != "" && PythonSpace(s[|s| - 1]) then RStrip(s[..|s| - 1]) else s
  }

  function LStrip(s: string): (r: string)
    ensures |r| <= |s| && r == s[|s| - |r|..]
    ensures forall i | 0 <= i < |s| - |r| :: PythonSpace(s[i])
    ensures r != "" ==> !PythonSpace(r[0])
  {
    if s != "" && PythonSpace(s[0]) then LStrip(s[1..]) else s
  }

  function Strip(s: string): string {
    LStrip(RStrip(s))
  }

  /** All that is cut off is white space, at both ends, and none is left there. */
  lemma StripReads(s: string) returns (i: nat, j: nat)
    ensures i <= j <= |s| && Strip(s) == s[i..j]
    ensures forall k | 0 <= k < i || j <= k < |s| :: PythonSpace(s[k])
    ensures i < j ==> !PythonSpace(s[i]) && !PythonSpace(s[j - 1])
  {
    hide PythonSpace;
    var r := RStrip(s);
    var l := LStrip(r);
    j := |r|;
    i := |r| - |l|;
    if i == j {
      forall k | 0 <= k < |s| ensures PythonSpace(s[k]) {
        if k < |r| { assert s[k] == r[k]; }
      }
    }
  }
}
