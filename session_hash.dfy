/** `generateSessionId` of the chat client (client/src/contexts/ChatContext.js):
    a 32-bit rolling hash of `last_first_dob`, printed in base 36, then `_`
    and the clock in base 36. */
module SessionHash {
  import opened Text
  import opened Conversation

  const TWO_31: int := 0x8000_0000
  const TWO_32: int := 0x1_0000_0000

  /** ECMAScript ToInt32: the signed 32-bit value congruent to `x` modulo 2^32. */
  function ToInt32(x: int): (r: int)
    ensures -TWO_31 <= r < TWO_31
    ensures (x - r) % TWO_32 == 0
  {
    var m := x % TWO_32;
    if m >= TWO_31 then m - TWO_32 else m
  }

  /** ToInt32 depends only on the value modulo 2^32. */
  lemma ToInt32Congruent(x: int, y: int)
    requires (x - y) % TWO_32 == 0
    ensures ToInt32(x) == ToInt32(y)
  {
    var q := (x - y) / TWO_32;
    assert x == y + q * TWO_32;
    assert x % TWO_32 == y % TWO_32 by {
      ModShift(y, q);
    }
  }

  lemma ModShift(y: int, q: int)
    ensures (y + q * TWO_32) % TWO_32 == y % TWO_32
  {
  }

  /** One round of the loop body as the source writes it:
      `hash = ((hash << 5) - hash) + char; hash = hash & hash`. */
  function SourceStep(hash: int, code: int): int {
    ToInt32(ToInt32(hash * 32) - hash + code)
  }

  /** One round of the documented hash: `hash * 31 + code`, wrapped to signed 32 bits. */
  function Step(hash: int, code: int): int {
    ToInt32(hash * 31 + code)
  }

  /** The shift-and-subtract form the source uses is the wrapped `hash * 31 + code`. */
  lemma SourceStepIsStep(hash: int, code: int)
    ensures SourceStep(hash, code) == Step(hash, code)
  {
    var w := ToInt32(hash * 32);
    var k := (hash * 32 - w) / TWO_32;
    assert hash * 32 - w == k * TWO_32;
    assert (w - hash + code) - (hash * 31 + code) == -(k * TWO_32);
    assert (-(k * TWO_32)) % TWO_32 == 0 by {
      ModShift(0, -k);
    }
    ToInt32Congruent(w - hash + code, hash * 31 + code);
  }

  /** The hash of a string: `Step` applied to the code of each character, left to right, from 0. */
  function Hash(s: string): (h: int)
    ensures -TWO_31 <= h < TWO_31
    decreases |s|
  {
    if s == [] then 0 else Step(Hash(s[..|s| - 1]), s[|s| - 1] as int)
  }

  /** The loop of `generateSessionId`, computing the hash of `s` exactly as the source does. */
  method RollingHash(s: string) returns (hash: int)
    ensures hash == Hash(s)
  {
    hash := 0;
    for i := 0 to |s|
      invariant hash == Hash(s[..i])
    {
      var code := s[i] as int;
      hash := ToInt32(hash * 32) - hash + code;
      hash := ToInt32(hash);
      SourceStepIsStep(Hash(s[..i]), code);
      assert s[..i + 1][..i] == s[..i];
    }
    assert s[..|s|] == s;
  }

  /** The digit characters of `Number.prototype.toString(36)`. */
  predicate IsBase36Digit(c: char) {
    ('0' <= c <= '9') || ('a' <= c <= 'z')
  }

  function Digit36(d: nat): (c: char)
    requires d < 36
    ensures IsBase36Digit(c)
  {
    if d < 10 then ('0' as int + d) as char else ('a' as int + d - 10) as char
  }

  function DigitValue(c: char): (d: nat)
    requires IsBase36Digit(c)
    ensures d < 36
  {
    if c <= '9' then c as int - '0' as int else c as int - 'a' as int + 10
  }

  /** `n.toString(36)` for a non-negative integer: most significant digit first. */
  function Base36(n: nat): (r: string)
    ensures |r| >= 1
    ensures forall i :: 0 <= i < |r| ==> IsBase36Digit(r[i])
  {
    if n < 36 then [Digit36(n)] else Base36(n / 36) + [Digit36(n % 36)]
  }

  /** Reads a base-36 numeral back (`parseInt(s, 36)`). */
  function FromBase36(s: string): nat
    requires forall i :: 0 <= i < |s| ==> IsBase36Digit(s[i])
  {
    if s == [] then 0 else FromBase36(s[..|s| - 1]) * 36 + DigitValue(s[|s| - 1])
  }

  /** Printing in base 36 loses nothing: the numeral reads back as the number. */
  lemma {:induction false} Base36RoundTrip(n: nat)
    ensures FromBase36(Base36(n)) == n
  {
    if n >= 36 {
      Base36RoundTrip(n / 36);
      var r := Base36(n);
      assert r[..|r| - 1] == Base36(n / 36);
    }
  }

  function Pow36(k: nat): nat {
    if k == 0 then 1 else 36 * Pow36(k - 1)
  }

  /** A number below 36^k has at most k base-36 digits. */
  lemma {:induction false} Base36Length(n: nat, k: nat)
    requires 1 <= k && n < Pow36(k)
    ensures |Base36(n)| <= k
  {
    if n >= 36 {
      assert k >= 2;
      Base36Length(n / 36, k - 1);
    }
  }

  function Abs(x: int): nat {
    if x < 0 then -x else x
  }

  /** `Math.abs(hash).toString(36).substring(0, 8)`. */
  function HashPart(base: string): string {
    var digits := Base36(Abs(Hash(base)));
    if |digits| <= 8 then digits else digits[..8]
  }

  /** The hash part never needs the 8-character cut: |hash| <= 2^31 < 36^6,
      so it is the whole base-36 numeral, at most 6 digits long. */
  lemma HashPartShort(base: string)
    ensures HashPart(base) == Base36(Abs(Hash(base)))
    ensures 1 <= |HashPart(base)| <= 6
    ensures forall i :: 0 <= i < |HashPart(base)| ==> IsBase36Digit(HashPart(base)[i])
  {
    assert Pow36(6) == 2176782336 by {
      assert Pow36(2) == 1296;
      assert Pow36(4) == 1679616;
    }
    Base36Length(Abs(Hash(base)), 6);
  }

  /** The hashed text: `${lastName.toLowerCase()}_${firstName.toLowerCase()}_${dobString}`.
      The names are lowered but not trimmed. */
  function BaseString(details: UserDetails, dobString: string): string {
    ToLower(details.lastName) + "_" + ToLower(details.firstName) + "_" + dobString
  }

  /** The identifier `generateSessionId` returns: `${hashString}_${Date.now().toString(36)}`. */
  function SessionIdFor(details: UserDetails, now: nat): string {
    HashPart(BaseString(details, details.dateOfBirth)) + "_" + Base36(now)
  }

  /** The identifier has exactly one `_`; before it stand at most six base-36
      digits that depend on the identity alone, after it the clock reading,
      which reads back as `now`. */
  lemma SessionIdShape(details: UserDetails, now: nat)
    ensures var id := SessionIdFor(details, now);
      var k := |HashPart(BaseString(details, details.dateOfBirth))|;
      && multiset(id)['_'] == 1
      && 1 <= k <= 6 && id[k] == '_'
      && (forall i :: 0 <= i < k ==> IsBase36Digit(id[i]))
      && (forall i :: k < i < |id| ==> IsBase36Digit(id[i]))
      && FromBase36(id[k + 1..]) == now
  {
    var base := BaseString(details, details.dateOfBirth);
    HashPartShort(base);
    Base36RoundTrip(now);
    JoinedShape(HashPart(base), Base36(now));
  }

  /** Two digit strings joined by `_`: one `_`, at the joint, with each
      part readable on its side. */
  lemma JoinedShape(h: string, t: string)
    requires forall i :: 0 <= i < |h| ==> IsBase36Digit(h[i])
    requires forall i :: 0 <= i < |t| ==> IsBase36Digit(t[i])
    ensures var id := h + "_" + t;
      && multiset(id)['_'] == 1
      && id[|h|] == '_' && id[..|h|] == h && id[|h| + 1..] == t
      && (forall i :: 0 <= i < |h| ==> IsBase36Digit(id[i]))
      && (forall i :: |h| < i < |id| ==> IsBase36Digit(id[i]))
  {
    var id := h + "_" + t;
    NoUnderscore(h);
    NoUnderscore(t);
    assert multiset(id) == multiset(h) + multiset("_") + multiset(t);
    assert id[|h| + 1..] == t;
    forall i | |h| < i < |id|
      ensures IsBase36Digit(id[i])
    {
      assert id[i] == t[i - |h| - 1];
    }
  }

  /** `generateSessionId`: the hash loop, the base-36 print and its cut, and
      the clock suffix; `now` is `Date.now()`, and the ISO date string is the
      date of birth as the form holds it (`YYYY-MM-DD`). */
  method GenerateSessionId(details: UserDetails, now: nat) returns (id: string)
    ensures id == SessionIdFor(details, now)
  {
    var base := ToLower(details.lastName) + "_" + ToLower(details.firstName) + "_" + details.dateOfBirth;
    var hash := RollingHash(base);
    var digits := Base36(Abs(hash));
    var hashString := if |digits| <= 8 then digits else digits[..8];
    id := hashString + "_" + Base36(now);
  }

  lemma NoUnderscore(s: string)
    requires forall i :: 0 <= i < |s| ==> IsBase36Digit(s[i])
    ensures multiset(s)['_'] == 0
  {
  }

  /** The hash part is a function of the identity alone: two registrations of
      the same person, even typed in different letter case, share it, and
      only the clock suffix tells them apart. */
  lemma HashPartIgnoresCase(a: UserDetails, b: UserDetails)
    requires ToLower(a.firstName) == ToLower(b.firstName)
    requires ToLower(a.lastName) == ToLower(b.lastName)
    requires a.dateOfBirth == b.dateOfBirth
    ensures HashPart(BaseString(a, a.dateOfBirth)) == HashPart(BaseString(b, b.dateOfBirth))
  {
  }

  /** Surrounding white space is not trimmed: it changes the hashed text. */
  lemma BaseStringKeepsSpaces(details: UserDetails)
    ensures BaseString(details.(firstName := " " + details.firstName), details.dateOfBirth)
            != BaseString(details, details.dateOfBirth)
  {
    var padded := details.(firstName := " " + details.firstName);
    assert |BaseString(padded, details.dateOfBirth)| == |BaseString(details, details.dateOfBirth)| + 1;
  }
}
