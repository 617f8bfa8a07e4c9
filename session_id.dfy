/** The deterministic session id of the standalone pages (src/utils/session.ts):
    both names normalised, the date of birth reduced to its digits. */
module DeterministicSession {
  import opened Text

  /** The characters of `s` that satisfy `keep`, in their order
      (`replace` with a global pattern that deletes the others). */
  function Keep(s: string, keep: char -> bool): (r: string)
    ensures |r| <= |s|
    ensures forall i :: 0 <= i < |r| ==> keep(r[i])
  {
    if s == [] then []
    else if keep(s[0]) then [s[0]] + Keep(s[1..], keep)
    else Keep(s[1..], keep)
  }

  predicate NotSpace(c: char) {
    !IsSpace(c)
  }

  /** Lower-cases `s` and deletes all of its white space. */
  function Squash(s: string): string {
    Keep(ToLower(s), NotSpace)
  }

  /** `s.trim().toLowerCase().replace(/\s+/g, '')`. */
  function Clean(s: string): string {
    Squash(Trim(s))
  }

  /** `dob.replace(/[^0-9]/g, '')`. */
  function DigitsOf(dob: string): string {
    Keep(dob, IsDigit)
  }

  /** `generateSessionId(firstName, lastName, dob)`. */
  function GenerateSessionId(firstName: string, lastName: string, dob: string): string {
    "session_" + Clean(firstName) + "_" + Clean(lastName) + "_" + DigitsOf(dob)
  }

  /** Filtering works piecewise, so the kept characters stay in their order. */
  lemma {:induction false} KeepAppend(a: string, b: string, keep: char -> bool)
    ensures Keep(a + b, keep) == Keep(a, keep) + Keep(b, keep)
  {
    if a == [] {
      assert a + b == b;
    } else {
      assert (a + b)[1..] == a[1..] + b;
      KeepAppend(a[1..], b, keep);
    }
  }

  /** Every kept character keeps its multiplicity, every other one is gone. */
  lemma {:induction false} KeepCounts(s: string, keep: char -> bool, c: char)
    ensures multiset(Keep(s, keep))[c] == if keep(c) then multiset(s)[c] else 0
  {
    if s != [] {
      KeepCounts(s[1..], keep, c);
      assert s == [s[0]] + s[1..];
    }
  }

  /** A text whose characters all pass is kept whole. */
  lemma {:induction false} KeepAll(s: string, keep: char -> bool)
    requires forall i :: 0 <= i < |s| ==> keep(s[i])
    ensures Keep(s, keep) == s
  {
    if s != [] {
      KeepAll(s[1..], keep);
    }
  }

  /** A text none of whose characters pass is dropped entirely. */
  lemma {:induction false} KeepNone(s: string, keep: char -> bool)
    requires forall i :: 0 <= i < |s| ==> !keep(s[i])
    ensures Keep(s, keep) == []
  {
    if s != [] {
      KeepNone(s[1..], keep);
    }
  }

  /** The date part is exactly the digits of the date of birth, each as
      often as it occurs there, in their order. */
  lemma DigitsOfKeepsDigits(dob: string, c: char)
    ensures forall i :: 0 <= i < |DigitsOf(dob)| ==> IsDigit(DigitsOf(dob)[i])
    ensures multiset(DigitsOf(dob))[c] == if IsDigit(c) then multiset(dob)[c] else 0
  {
    KeepCounts(dob, IsDigit, c);
  }

  /** Squashing works piecewise. */
  lemma SquashAppend(a: string, b: string)
    ensures Squash(a + b) == Squash(a) + Squash(b)
  {
    ToLowerAppend(a, b);
    KeepAppend(ToLower(a), ToLower(b), NotSpace);
  }

  /** White space squashes to nothing. */
  lemma SquashBlank(w: string)
    requires IsBlank(w)
    ensures Squash(w) == []
  {
    ToLowerKeepsSpaces(w);
    KeepNone(ToLower(w), NotSpace);
  }

  /** A squashed text holds no white space and no upper-case letter. */
  lemma SquashIsNormal(s: string)
    ensures IsNormal(Squash(s))
  {
    var lower := ToLower(s);
    var r := Squash(s);
    ToLowerKeepsSpaces(s);
    forall i | 0 <= i < |r|
      ensures !IsUpper(r[i])
    {
      var c := r[i];
      assert c in multiset(r);
      KeepCounts(lower, NotSpace, c);
      assert c in multiset(lower);
      var j :| 0 <= j < |lower| && lower[j] == c;
    }
  }

  /** A text without white space or upper-case letters squashes to itself. */
  lemma SquashNormal(s: string)
    requires IsNormal(s)
    ensures Squash(s) == s
  {
    assert ToLower(s) == s;
    KeepAll(s, NotSpace);
  }

  /** Leading white space squashes to nothing. */
  lemma SquashTrimStart(s: string)
    ensures Squash(TrimStart(s)) == Squash(s)
  {
    TrimStartShape(s);
    var t := TrimStart(s);
    var lead := s[..|s| - |t|];
    assert s == lead + t;
    assert IsBlank(lead);
    SquashAppend(lead, t);
    SquashBlank(lead);
  }

  /** Trailing white space squashes to nothing. */
  lemma SquashTrimEnd(t: string)
    ensures Squash(TrimEnd(t)) == Squash(t)
  {
    TrimEndShape(t);
    var u := TrimEnd(t);
    var trail := t[|u|..];
    assert t == u + trail;
    forall j | 0 <= j < |trail|
      ensures IsSpace(trail[j])
    {
      assert trail[j] == t[|u| + j];
    }
    SquashAppend(u, trail);
    SquashBlank(trail);
  }

  /** Trimming first changes nothing: the clean form is the lowered text
      with all white space removed. */
  lemma CleanIgnoresTrim(s: string)
    ensures Clean(s) == Squash(s)
  {
    SquashTrimStart(s);
    SquashTrimEnd(TrimStart(s));
  }

  /** A cleaned name holds no white space and no upper-case letter. */
  lemma CleanIsNormal(s: string)
    ensures IsNormal(Clean(s))
  {
    SquashIsNormal(Trim(s));
  }

  /** A name already in clean form is its own clean form. */
  lemma CleanOfNormal(s: string)
    requires IsNormal(s)
    ensures Clean(s) == s
  {
    CleanIgnoresTrim(s);
    SquashNormal(s);
  }

  /** Cleaning a cleaned name changes nothing. */
  lemma CleanIdempotent(s: string)
    ensures Clean(Clean(s)) == Clean(s)
  {
    CleanIsNormal(s);
    CleanOfNormal(Clean(s));
  }

  /** Names that differ only in letter case give the same id part. */
  lemma CleanIgnoresCase(a: string, b: string)
    requires ToLower(a) == ToLower(b)
    ensures Clean(a) == Clean(b)
  {
    CleanIgnoresTrim(a);
    CleanIgnoresTrim(b);
  }

  /** Names that differ only by inserted white space give the same id part. */
  lemma CleanIgnoresSpaces(a: string, w: string, b: string)
    requires IsBlank(w)
    ensures Clean(a + w + b) == Clean(a + b)
  {
    CleanIgnoresTrim(a + w + b);
    CleanIgnoresTrim(a + b);
    SquashAppend(a + w, b);
    SquashAppend(a, w);
    SquashAppend(a, b);
    SquashBlank(w);
  }

  /** The id is the same for two registrations whose names agree up to case
      and white space and whose dates of birth have the same digits. */
  lemma SameIdentitySameId(f1: string, l1: string, d1: string, f2: string, l2: string, d2: string)
    requires Clean(f1) == Clean(f2) && Clean(l1) == Clean(l2) && DigitsOf(d1) == DigitsOf(d2)
    ensures GenerateSessionId(f1, l1, d1) == GenerateSessionId(f2, l2, d2)
  {
  }

  /** A name with no white space and no upper-case letter. */
  predicate IsNormal(s: string) {
    forall i :: 0 <= i < |s| ==> !IsSpace(s[i]) && !IsUpper(s[i])
  }

  /** Two normal names joined by `_` are normal. */
  lemma NormalJoin(x: string, y: string)
    requires IsNormal(x) && IsNormal(y)
    ensures IsNormal(x + "_" + y)
  {
    var j := x + "_" + y;
    forall i | 0 <= i < |j|
      ensures !IsSpace(j[i]) && !IsUpper(j[i])
    {
      if i < |x| {
        assert j[i] == x[i];
      } else if i == |x| {
        assert j[i] == '_';
      } else {
        assert j[i] == y[i - |x| - 1];
      }
    }
  }

  /** The `_` joints are not escaped: an underscore moved from the end of
      the first name to the start of the last name gives the same id, so
      two different people can share one. */
  lemma UnderscoreShiftCollides(x: string, y: string, z: string, dob: string)
    requires IsNormal(x) && IsNormal(y) && IsNormal(z)
    ensures GenerateSessionId(x + "_" + y, z, dob) == GenerateSessionId(x, y + "_" + z, dob)
  {
    NormalJoin(x, y);
    NormalJoin(y, z);
    CleanOfNormal(x + "_" + y);
    CleanOfNormal(y + "_" + z);
    CleanOfNormal(x);
    CleanOfNormal(z);
    ShiftJoint(x, y, z, DigitsOf(dob));
  }

  lemma ShiftJoint(x: string, y: string, z: string, d: string)
    ensures "session_" + (x + "_" + y) + "_" + z + "_" + d == "session_" + x + "_" + (y + "_" + z) + "_" + d
  {
  }
}
