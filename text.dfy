/** String rules shared by the client components: ASCII whitespace and
    case, `trim`, the `/\*+/g` asterisk strip, `includes` and `split('\n')`.
    Strings are sequences of characters; Unicode whitespace and case mapping
    beyond ASCII are not modelled. */
module Text {

  /** The ASCII characters that JavaScript's `trim` and `\s` treat as white space. */
  predicate IsSpace(c: char) {
    c == ' ' || c == '\t' || c == '\n' || c == '\r' || c == '\U{000B}' || c == '\U{000C}'
  }

  predicate IsUpper(c: char) {
    'A' <= c <= 'Z'
  }

  predicate IsDigit(c: char) {
    '0' <= c <= '9'
  }

  /** True when every character of `s` is white space (the empty string included). */
  predicate IsBlank(s: string) {
    forall i :: 0 <= i < |s| ==> IsSpace(s[i])
  }

  /** Drops the leading white space. */
  function TrimStart(s: string): string {
    if s != [] && IsSpace(s[0]) then TrimStart(s[1..]) else s
  }

  /** Drops the trailing white space. */
  function TrimEnd(s: string): string {
    if s != [] && IsSpace(s[|s| - 1]) then TrimEnd(s[..|s| - 1]) else s
  }

  /** JavaScript's `String.prototype.trim`. */
  function Trim(s: string): string {
    TrimEnd(TrimStart(s))
  }

  /** `TrimStart` keeps a suffix, drops only white space, and what it keeps
      does not start with white space. */
  lemma {:induction false} TrimStartShape(s: string)
    ensures var r := TrimStart(s);
      && |r| <= |s| && r == s[|s| - |r|..]
      && (forall i :: 0 <= i < |s| - |r| ==> IsSpace(s[i]))
      && (r != [] ==> !IsSpace(r[0]))
  {
    if s != [] && IsSpace(s[0]) {
      TrimStartShape(s[1..]);
      var r := TrimStart(s[1..]);
      assert TrimStart(s) == r;
      assert s[1..][|s| - 1 - |r|..] == s[|s| - |r|..];
      forall i | 0 < i < |s| - |r|
        ensures IsSpace(s[i])
      {
        assert s[i] == s[1..][i - 1];
      }
    } else {
      assert s[0..] == s;
    }
  }

  /** `TrimEnd` keeps a prefix, drops only white space, and what it keeps
      does not end with white space. */
  lemma {:induction false} TrimEndShape(s: string)
    ensures var r := TrimEnd(s);
      && |r| <= |s| && r == s[..|r|]
      && (forall i :: |r| <= i < |s| ==> IsSpace(s[i]))
      && (r != [] ==> !IsSpace(r[|r| - 1]))
  {
    if s != [] && IsSpace(s[|s| - 1]) {
      var init := s[..|s| - 1];
      TrimEndShape(init);
      var r := TrimEnd(init);
      assert TrimEnd(s) == r;
      assert init[..|r|] == s[..|r|];
      forall i | |r| <= i < |s| - 1
        ensures IsSpace(s[i])
      {
        assert s[i] == init[i];
      }
    } else {
      assert s[..|s|] == s;
    }
  }

  /** `s.trim()` is falsy exactly when `s` is blank. */
  lemma TrimEmptyIffBlank(s: string)
    ensures Trim(s) == [] <==> IsBlank(s)
  {
    var t := TrimStart(s);
    TrimStartShape(s);
    TrimEndShape(t);
    if Trim(s) == [] {
      assert t == [];
    }
  }

  /** Trimming keeps an interior stretch of the input and removes only white space. */
  lemma TrimIsInterior(s: string)
    ensures exists a, b :: 0 <= a <= b <= |s| && Trim(s) == s[a..b] &&
              IsBlank(s[..a]) && IsBlank(s[b..])
  {
    var t := TrimStart(s);
    TrimStartShape(s);
    TrimEndShape(t);
    var a := |s| - |t|;
    var b := a + |TrimEnd(t)|;
    assert Trim(s) == s[a..b];
    assert IsBlank(s[..a]);
    forall i | 0 <= i < |s| - b
      ensures IsSpace(s[b..][i])
    {
      assert s[b..][i] == t[b - a + i];
    }
    assert IsBlank(s[b..]);
  }

  /** What `trim` returns starts and ends with a character that is not white space. */
  lemma TrimEnds(s: string)
    ensures Trim(s) != [] ==> !IsSpace(Trim(s)[0]) && !IsSpace(Trim(s)[|Trim(s)| - 1])
  {
    var u := TrimStart(s);
    TrimStartShape(s);
    TrimEndShape(u);
    var t := Trim(s);
    if t != [] {
      assert t[0] == u[0];
    }
  }

  /** Trimming twice is trimming once. */
  lemma TrimIdempotent(s: string)
    ensures Trim(Trim(s)) == Trim(s)
  {
    var t := Trim(s);
    TrimEnds(s);
    if t != [] {
      assert TrimStart(t) == t;
      assert TrimEnd(t) == t;
    }
  }

  /** ASCII `toLowerCase` of one character. */
  function LowerChar(c: char): (r: char)
    ensures !IsUpper(r)
    ensures !IsUpper(c) ==> r == c
  {
    if IsUpper(c) then (c as int - 'A' as int + 'a' as int) as char else c
  }

  /** ASCII `toLowerCase`: the same length, every position lowered. */
  function ToLower(s: string): (r: string)
    ensures |r| == |s|
    ensures forall i :: 0 <= i < |s| ==> r[i] == LowerChar(s[i])
  {
    if s == [] then [] else [LowerChar(s[0])] + ToLower(s[1..])
  }

  lemma ToLowerAppend(a: string, b: string)
    ensures ToLower(a + b) == ToLower(a) + ToLower(b)
  {
  }

  /** Lowering has no upper-case letters left and does not change white space. */
  lemma ToLowerKeepsSpaces(s: string)
    ensures forall i :: 0 <= i < |s| ==> (IsSpace(ToLower(s)[i]) <==> IsSpace(s[i]))
    ensures forall i :: 0 <= i < |s| ==> !IsUpper(ToLower(s)[i])
  {
  }

  /** `replace(/\*+/g, '')`: every run of `*` is deleted, so every `*` is. */
  function StripAsterisks(s: string): (r: string)
    ensures |r| <= |s|
    ensures forall i :: 0 <= i < |r| ==> r[i] != '*'
  {
    if s == [] then []
    else if s[0] == '*' then StripAsterisks(s[1..])
    else [s[0]] + StripAsterisks(s[1..])
  }

  /** The strip removes every `*` and keeps every other character, with its multiplicity. */
  lemma {:induction false} StripAsterisksCounts(s: string)
    ensures multiset(StripAsterisks(s)) == multiset(s)['*' := 0]
  {
    if s != [] {
      StripAsterisksCounts(s[1..]);
      assert s == [s[0]] + s[1..];
    }
  }

  /** The strip works piecewise, so the characters it keeps stay in their order. */
  lemma {:induction false} StripAsterisksAppend(a: string, b: string)
    ensures StripAsterisks(a + b) == StripAsterisks(a) + StripAsterisks(b)
  {
    if a == [] {
      assert a + b == b;
    } else {
      assert (a + b)[1..] == a[1..] + b;
      StripAsterisksAppend(a[1..], b);
    }
  }

  /** A text without `*` is left exactly as it is. */
  lemma {:induction false} StripAsterisksNoStar(s: string)
    requires forall i :: 0 <= i < |s| ==> s[i] != '*'
    ensures StripAsterisks(s) == s
  {
    if s != [] {
      StripAsterisksNoStar(s[1..]);
    }
  }

  /** Stripping twice is stripping once. */
  lemma StripAsterisksIdempotent(s: string)
    ensures StripAsterisks(StripAsterisks(s)) == StripAsterisks(s)
  {
    StripAsterisksNoStar(StripAsterisks(s));
  }

  /** `haystack.includes(needle)`. */
  predicate Contains(haystack: string, needle: string)
    decreases |haystack|
  {
    needle <= haystack || (haystack != [] && Contains(haystack[1..], needle))
  }

  /** `includes` finds the needle exactly when it occurs at some offset. */
  lemma {:induction false} ContainsIffOccurs(haystack: string, needle: string)
    ensures Contains(haystack, needle) <==>
              exists k :: 0 <= k <= |haystack| && needle <= haystack[k..]
    decreases |haystack|
  {
    if needle <= haystack {
      assert haystack[0..] == haystack;
    } else if haystack == [] {
    } else {
      ContainsIffOccurs(haystack[1..], needle);
      if Contains(haystack, needle) {
        var k :| 0 <= k <= |haystack| - 1 && needle <= haystack[1..][k..];
        assert haystack[1..][k..] == haystack[k + 1..];
      } else {
        forall k | 0 <= k <= |haystack| ensures !(needle <= haystack[k..]) {
          if k > 0 {
            assert haystack[1..][k - 1..] == haystack[k..];
          } else {
            assert haystack[k..] == haystack;
          }
        }
      }
    }
  }

  /** `s.split(sep)` for a one-character separator: the pieces between
      separators, one more piece than there are separators. */
  function Split(s: string, sep: char): (r: seq<string>)
    ensures |r| >= 1
    ensures forall i :: 0 <= i < |r| ==> sep !in r[i]
  {
    if sep !in s then [s]
    else
      var k := IndexOf(s, sep);
      [s[..k]] + Split(s[k + 1..], sep)
  }

  /** The first position of `c` in `s`. */
  function IndexOf(s: string, c: char): (k: nat)
    requires c in s
    ensures k < |s| && s[k] == c && c !in s[..k]
  {
    if s[0] == c then 0 else 1 + IndexOf(s[1..], c)
  }

  /** The inverse of `Split`: the pieces glued back together with the separator. */
  function Join(parts: seq<string>, sep: char): string
    requires |parts| >= 1
  {
    if |parts| == 1 then parts[0] else parts[0] + [sep] + Join(parts[1..], sep)
  }

  /** Splitting loses nothing: joining the pieces gives back the text. */
  lemma {:induction false} JoinSplit(s: string, sep: char)
    ensures Join(Split(s, sep), sep) == s
    decreases |s|
  {
    if sep in s {
      var k := IndexOf(s, sep);
      var rest := s[k + 1..];
      JoinSplit(rest, sep);
      var parts := Split(s, sep);
      assert parts == [s[..k]] + Split(rest, sep);
      assert parts[0] == s[..k] && parts[1..] == Split(rest, sep);
      assert Join(parts, sep) == s[..k] + [sep] + Join(Split(rest, sep), sep);
      assert s == s[..k] + [sep] + rest;
    }
  }

  /** There is one more piece than there are separators. */
  lemma {:induction false} SplitCount(s: string, sep: char)
    ensures |Split(s, sep)| == multiset(s)[sep] + 1
    decreases |s|
  {
    if sep in s {
      var k := IndexOf(s, sep);
      var rest := s[k + 1..];
      SplitCount(rest, sep);
      assert s == s[..k] + [sep] + rest;
      assert multiset(s) == multiset(s[..k]) + multiset([sep]) + multiset(rest);
      assert multiset(s[..k])[sep] == 0;
    } else {
      assert multiset(s)[sep] == 0;
    }
  }

  /** Splitting a text that has no separator at all gives the text as the one piece. */
  lemma SplitNoSeparator(s: string, sep: char)
    requires sep !in s
    ensures Split(s, sep) == [s]
  {
  }
}
