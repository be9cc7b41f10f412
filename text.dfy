/** String helpers that the pages use through JavaScript's string methods:
    `trim`, `toLowerCase`, `includes`, `startsWith`, the last segment of
    `split('.')`, and the decimal rendering of a non-negative integer. */
module Text {

  /** The whitespace characters `String.prototype.trim` removes, restricted to
      the ASCII ones and the two common Unicode spaces. */
  predicate IsSpace(c: char) {
    c == ' ' || c == '\t' || c == '\n' || c == '\r' || c == '\U{B}' || c == '\U{C}'
    || c == '\U{A0}' || c == '\U{FEFF}'
  }

  /** `s.trimStart()`. */
  function TrimStart(s: string): (r: string)
    ensures |r| <= |s|
    ensures r == [] || !IsSpace(r[0])
  {
    if s == [] || !IsSpace(s[0]) then s else TrimStart(s[1..])
  }

  /** `s.trimEnd()`. */
  function TrimEnd(s: string): (r: string)
    ensures |r| <= |s|
    ensures r == [] || !IsSpace(r[|r| - 1])
    ensures r != [] ==> r[0] == s[0]
  {
    if s == [] || !IsSpace(s[|s| - 1]) then s else TrimEnd(s[..|s| - 1])
  }

  /** `s.trim()`: drop the leading and trailing whitespace. */
  function Trim(s: string): (r: string)
    ensures r == [] || (!IsSpace(r[0]) && !IsSpace(r[|r| - 1]))
  {
    TrimEnd(TrimStart(s))
  }

  /** `trimStart` keeps a suffix and drops only whitespace. */
  lemma {:induction false} TrimStartDropsSpaces(s: string)
    ensures TrimStart(s) == s[|s| - |TrimStart(s)|..]
    ensures forall k :: 0 <= k < |s| - |TrimStart(s)| ==> IsSpace(s[k])
    decreases |s|
  {
    if s != [] && IsSpace(s[0]) {
      TrimStartDropsSpaces(s[1..]);
      assert s[1..][|s| - 1 - |TrimStart(s)|..] == s[|s| - |TrimStart(s)|..];
      forall k | 0 < k < |s| - |TrimStart(s)| ensures IsSpace(s[k]) {
        assert s[k] == s[1..][k - 1];
      }
    }
  }

  /** `trimEnd` keeps a prefix and drops only whitespace. */
  lemma {:induction false} TrimEndDropsSpaces(s: string)
    ensures TrimEnd(s) == s[..|TrimEnd(s)|]
    ensures forall k :: |TrimEnd(s)| <= k < |s| ==> IsSpace(s[k])
    decreases |s|
  {
    if s != [] && IsSpace(s[|s| - 1]) {
      var init := s[..|s| - 1];
      TrimEndDropsSpaces(init);
      assert init[..|TrimEnd(s)|] == s[..|TrimEnd(s)|];
      forall k | |TrimEnd(s)| <= k < |s| - 1 ensures IsSpace(s[k]) {
        assert s[k] == init[k];
      }
    }
  }

  /** A string with no whitespace at either end is left as it is. */
  lemma TrimmedIsFixed(s: string)
    requires s == [] || (!IsSpace(s[0]) && !IsSpace(s[|s| - 1]))
    ensures Trim(s) == s
  {
  }

  /** Trimming twice is trimming once. */
  lemma TrimIdempotent(s: string)
    ensures Trim(Trim(s)) == Trim(s)
  {
    TrimmedIsFixed(Trim(s));
  }

  /** The trimmed text is empty exactly when every character of `s` is whitespace. */
  lemma {:induction false} TrimEmptyIff(s: string)
    ensures Trim(s) == [] <==> forall k :: 0 <= k < |s| ==> IsSpace(s[k])
  {
    var t := TrimStart(s);
    TrimStartDropsSpaces(s);
    TrimEndDropsSpaces(t);
    if Trim(s) == [] {
      assert t == [];
    } else {
      assert t != [] && s[|s| - |t|] == t[0];
    }
  }

  /** ASCII upper-case letters to lower case; every other character unchanged. */
  function LowerChar(c: char): (r: char)
    ensures 'A' <= c <= 'Z' ==> 'a' <= r <= 'z'
    ensures !('A' <= c <= 'Z') ==> r == c
  {
    if 'A' <= c <= 'Z' then (c as int - 'A' as int + 'a' as int) as char else c
  }

  /** `s.toLowerCase()` on the ASCII letters. */
  function Lower(s: string): (r: string)
    ensures |r| == |s|
    ensures forall k :: 0 <= k < |s| ==> r[k] == LowerChar(s[k])
  {
    seq(|s|, k requires 0 <= k < |s| => LowerChar(s[k]))
  }

  /** Lower-casing a lower-cased string changes nothing. */
  lemma LowerIdempotent(s: string)
    ensures Lower(Lower(s)) == Lower(s)
  {
  }

  predicate StartsWith(s: string, prefix: string) {
    |prefix| <= |s| && s[..|prefix|] == prefix
  }

  /** `hay.includes(needle)`, scanning from the left. */
  function Includes(hay: string, needle: string): bool
    decreases |hay|
  {
    if |needle| > |hay| then false
    else if hay[..|needle|] == needle then true
    else Includes(hay[1..], needle)
  }

  /** `needle` occurs in `hay` starting at offset `i`. */
  predicate OccursAt(hay: string, needle: string, i: nat) {
    i + |needle| <= |hay| && hay[i..i + |needle|] == needle
  }

  /** `Includes` holds exactly when `needle` occurs at some offset of `hay`. */
  lemma {:induction false} IncludesIff(hay: string, needle: string)
    ensures Includes(hay, needle) <==> exists i: nat :: OccursAt(hay, needle, i)
    decreases |hay|
  {
    if |needle| > |hay| {
    } else if hay[..|needle|] == needle {
      assert OccursAt(hay, needle, 0);
    } else {
      IncludesIff(hay[1..], needle);
      if Includes(hay[1..], needle) {
        var i: nat :| OccursAt(hay[1..], needle, i);
        assert hay[i + 1..i + 1 + |needle|] == hay[1..][i..i + |needle|];
        assert OccursAt(hay, needle, i + 1);
      }
      if exists i: nat :: OccursAt(hay, needle, i) {
        var i: nat :| OccursAt(hay, needle, i);
        assert i != 0;
        assert hay[1..][i - 1..i - 1 + |needle|] == hay[i..i + |needle|];
        assert OccursAt(hay[1..], needle, i - 1);
      }
    }
  }

  /** The empty string is included in every string. */
  lemma IncludesEmpty(hay: string)
    ensures Includes(hay, "")
  {
  }

  /** `name.split('.').pop()`: the text after the last '.', or the whole name
      when it holds no '.'. */
  function AfterLastDot(name: string): (r: string)
    ensures '.' !in r && |r| <= |name|
  {
    if name == [] then []
    else if name[|name| - 1] == '.' then []
    else AfterLastDot(name[..|name| - 1]) + [name[|name| - 1]]
  }

  /** The last segment is a suffix of the name, preceded by a '.' unless it
      is the whole name, which it is when the name holds no '.'. */
  lemma {:induction false} AfterLastDotIsLastSegment(name: string)
    ensures AfterLastDot(name) == name[|name| - |AfterLastDot(name)|..]
    ensures |AfterLastDot(name)| < |name| ==> name[|name| - |AfterLastDot(name)| - 1] == '.'
    ensures '.' !in name ==> AfterLastDot(name) == name
    decreases |name|
  {
    if name != [] && name[|name| - 1] != '.' {
      var init := name[..|name| - 1];
      AfterLastDotIsLastSegment(init);
      var r := AfterLastDot(init);
      assert name[|name| - |r| - 1..] == init[|init| - |r|..] + [name[|name| - 1]];
      if |r| < |init| {
        assert name[|name| - |r| - 2] == init[|init| - |r| - 1];
      }
      if '.' !in name {
        assert '.' !in init by {
          forall k | 0 <= k < |init| ensures init[k] != '.' {
            assert init[k] == name[k];
          }
        }
        assert init + [name[|name| - 1]] == name;
      }
    }
  }

  /** Appending '.' and a dot-free word makes that word the last segment. */
  lemma {:induction false} AfterLastDotOfSuffix(prefix: string, ext: string)
    requires '.' !in ext
    ensures AfterLastDot(prefix + "." + ext) == ext
    decreases |ext|
  {
    var s := prefix + "." + ext;
    if ext == [] {
      assert s[|s| - 1] == '.';
    } else {
      var init := ext[..|ext| - 1];
      assert s[..|s| - 1] == prefix + "." + init;
      assert s[|s| - 1] == ext[|ext| - 1];
      AfterLastDotOfSuffix(prefix, init);
      assert init + [ext[|ext| - 1]] == ext;
    }
  }

  function DigitChar(d: nat): (c: char)
    requires d < 10
    ensures '0' <= c <= '9'
  {
    ('0' as int + d) as char
  }

  /** The decimal rendering of a non-negative integer, as JavaScript prints
      `Date.now()`. */
  function NatToDecimal(n: nat): (r: string)
    ensures |r| >= 1
    ensures forall k :: 0 <= k < |r| ==> '0' <= r[k] <= '9'
  {
    if n < 10 then [DigitChar(n)] else NatToDecimal(n / 10) + [DigitChar(n % 10)]
  }
}
