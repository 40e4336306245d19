/** Small string and sequence rules shared by the components: JavaScript's
    `trim`, an ASCII `toLowerCase`, `startsWith`, `includes`, `Array.filter`
    by inequality, the `|| null` fallback of an empty string, and decimal
    rendering of a natural number. */
module Text {

  datatype Option<T> = None | Some(value: T)

  /** `s || null` and `s || undefined`: the empty string is falsy, so it
      becomes the missing value and any other string is kept. */
  function OrNone(s: string): (r: Option<string>)
    ensures r.None? <==> s == ""
    ensures r.Some? ==> r.value == s
  {
    if s == "" then None else Some(s)
  }

  /** The white-space and line-terminator characters that JavaScript's `trim`
      strips (the Unicode space separators beyond U+0020 and U+00A0 are not
      modelled). */
  predicate IsSpace(c: char) {
    c == ' ' || c == '\t' || c == '\n' || c == '\r' || c == '\U{B}' || c == '\U{C}'
    || c == '\U{A0}' || c == '\U{FEFF}' || c == '\U{2028}' || c == '\U{2029}'
  }

  /** A string that `trim` turns into "" (falsy in JavaScript). */
  predicate IsBlank(s: string) {
    forall i :: 0 <= i < |s| ==> IsSpace(s[i])
  }

  function TrimStart(s: string): (r: string)
    ensures |r| <= |s| && r == s[|s| - |r|..]
    ensures r == [] || !IsSpace(r[0])
    ensures forall i :: 0 <= i < |s| - |r| ==> IsSpace(s[i])
  {
    if |s| > 0 && IsSpace(s[0]) then TrimStart(s[1..]) else s
  }

  function TrimEnd(s: string): (r: string)
    ensures |r| <= |s| && r == s[..|r|]
    ensures r == [] || !IsSpace(r[|r| - 1])
    ensures forall i :: |r| <= i < |s| ==> IsSpace(s[i])
    ensures |s| > 0 && !IsSpace(s[0]) ==> |r| > 0
  {
    if |s| > 0 && IsSpace(s[|s| - 1]) then TrimEnd(s[..|s| - 1]) else s
  }

  /** `s.trim()`: the longest infix of `s` that neither starts nor ends with white space. */
  function Trim(s: string): (r: string)
    ensures |r| <= |s|
    ensures r == [] || (!IsSpace(r[0]) && !IsSpace(r[|r| - 1]))
    ensures r == [] <==> IsBlank(s)
    ensures exists a :: InfixAt(s, r, a)
  {
    TrimStartBlank(s);
    TrimIsInfix(s);
    var a := |s| - |TrimStart(s)|;
    assert InfixAt(s, TrimEnd(TrimStart(s)), a);
    TrimEnd(TrimStart(s))
  }

  /** `r` sits in `s` at offset `a` with only white space around it. */
  predicate InfixAt(s: string, r: string, a: int) {
    0 <= a && a + |r| <= |s| && r == s[a..a + |r|] && IsBlank(s[..a]) && IsBlank(s[a + |r|..])
  }

  /** What `TrimStart` cuts off is white space. */
  lemma TrimStartCut(s: string)
    ensures IsBlank(s[..|s| - |TrimStart(s)|])
  {
    var before := s[..|s| - |TrimStart(s)|];
    forall i | 0 <= i < |before| ensures IsSpace(before[i]) {
      assert before[i] == s[i];
    }
  }

  /** What `TrimEnd` cuts off is white space. */
  lemma TrimEndCut(t: string)
    ensures IsBlank(t[|TrimEnd(t)|..])
  {
    var after := t[|TrimEnd(t)|..];
    forall i | 0 <= i < |after| ensures IsSpace(after[i]) {
      assert after[i] == t[|TrimEnd(t)| + i];
    }
  }

  /** What `TrimStart` and `TrimEnd` cut off together is white space on both sides. */
  lemma TrimIsInfix(s: string)
    ensures InfixAt(s, TrimEnd(TrimStart(s)), |s| - |TrimStart(s)|)
  {
    TrimStartCut(s);
    TrimEndCut(TrimStart(s));
    InfixOfCuts(s, TrimStart(s), TrimEnd(TrimStart(s)));
  }

  /** A blank prefix cut, then a blank suffix cut, leave an infix between white space. */
  lemma InfixOfCuts(s: string, t: string, r: string)
    requires |t| <= |s| && t == s[|s| - |t|..] && IsBlank(s[..|s| - |t|])
    requires |r| <= |t| && r == t[..|r|] && IsBlank(t[|r|..])
    ensures InfixAt(s, r, |s| - |t|)
  {
    var a := |s| - |t|;
    assert r == s[a..a + |r|];
    assert s[a + |r|..] == t[|r|..];
  }

  /** Trimming the start leaves nothing exactly when the string is all white space. */
  lemma TrimStartBlank(s: string)
    ensures TrimStart(s) == [] <==> IsBlank(s)
  {
    var t := TrimStart(s);
    if |t| > 0 {
      assert s[|s| - |t|] == t[0];
    }
  }

  /** Trimming twice is trimming once. */
  lemma {:induction false} TrimIdempotent(s: string)
    ensures Trim(Trim(s)) == Trim(s)
  {
    var r := Trim(s);
    if r != [] {
      assert TrimStart(r) == r;
      assert TrimEnd(r) == r;
    }
  }

  function LowerChar(c: char): char {
    if 'A' <= c <= 'Z' then (c as int + 32) as char else c
  }

  /** `s.toLowerCase()`, restricted to the ASCII letters. */
  function Lower(s: string): (r: string)
    ensures |r| == |s|
    ensures forall i :: 0 <= i < |s| ==> r[i] == LowerChar(s[i])
  {
    seq(|s|, i requires 0 <= i < |s| => LowerChar(s[i]))
  }

  /** Lower-casing is idempotent, so comparing lower-cased values is an equivalence. */
  lemma LowerIdempotent(s: string)
    ensures Lower(Lower(s)) == Lower(s)
  {
    assert forall i :: 0 <= i < |s| ==> LowerChar(LowerChar(s[i])) == LowerChar(s[i]);
  }

  predicate EqualIgnoringCase(a: string, b: string) {
    Lower(a) == Lower(b)
  }

  /** `xs.some(x => x.toLowerCase() === y.toLowerCase())` */
  predicate ContainsIgnoringCase(xs: seq<string>, y: string) {
    exists i :: 0 <= i < |xs| && EqualIgnoringCase(xs[i], y)
  }

  /** No two entries are equal once lower-cased. */
  predicate DistinctIgnoringCase(xs: seq<string>) {
    forall i, j :: 0 <= i < j < |xs| ==> !EqualIgnoringCase(xs[i], xs[j])
  }

  /** Appending an entry that is not already present (ignoring case) keeps a list distinct. */
  lemma AppendKeepsDistinct(xs: seq<string>, y: string)
    requires DistinctIgnoringCase(xs)
    requires !ContainsIgnoringCase(xs, y)
    ensures DistinctIgnoringCase(xs + [y])
  {
    var ys := xs + [y];
    forall i, j | 0 <= i < j < |ys| ensures !EqualIgnoringCase(ys[i], ys[j]) {
      if j == |xs| {
        assert ys[i] == xs[i];
      }
    }
  }

  /** `s.startsWith(p)` */
  predicate StartsWith(s: string, p: string) {
    |p| <= |s| && s[..|p|] == p
  }

  /** `sub` occurs in `s` starting at index `i`. */
  predicate OccursAt(s: string, sub: string, i: nat) {
    i + |sub| <= |s| && s[i..i + |sub|] == sub
  }

  /** `s.includes(sub)` */
  predicate Includes(s: string, sub: string) {
    exists i: nat :: i <= |s| && OccursAt(s, sub, i)
  }

  /** `xs.filter(y => y !== x)`. */
  function RemoveAll<T(==,!new)>(xs: seq<T>, x: T): (r: seq<T>)
    ensures x !in r
    ensures |r| <= |xs|
    ensures forall y :: y != x ==> multiset(r)[y] == multiset(xs)[y]
  {
    if xs == [] then []
    else
      assert xs == [xs[0]] + xs[1..];
      if xs[0] == x then RemoveAll(xs[1..], x) else [xs[0]] + RemoveAll(xs[1..], x)
  }

  /** Filtering commutes with concatenation, so the kept entries stay in their order. */
  lemma {:induction false} RemoveAllAppend<T(!new)>(a: seq<T>, b: seq<T>, x: T)
    ensures RemoveAll(a + b, x) == RemoveAll(a, x) + RemoveAll(b, x)
  {
    if a == [] {
      assert a + b == b;
    } else {
      assert (a + b)[1..] == a[1..] + b;
      RemoveAllAppend(a[1..], b, x);
    }
  }

  /** Removing a value that does not occur changes nothing. */
  lemma {:induction false} RemoveAllAbsent<T(!new)>(xs: seq<T>, x: T)
    requires x !in xs
    ensures RemoveAll(xs, x) == xs
  {
    if xs != [] {
      RemoveAllAbsent(xs[1..], x);
    }
  }

  /** Removing entries never introduces a case-insensitive duplicate. */
  lemma {:induction false} RemoveAllKeepsDistinct(xs: seq<string>, x: string)
    requires DistinctIgnoringCase(xs)
    ensures DistinctIgnoringCase(RemoveAll(xs, x))
  {
    if xs != [] {
      var rest := xs[1..];
      assert DistinctIgnoringCase(rest) by {
        forall i, j | 0 <= i < j < |rest| ensures !EqualIgnoringCase(rest[i], rest[j]) {
          assert rest[i] == xs[i + 1] && rest[j] == xs[j + 1];
        }
      }
      RemoveAllKeepsDistinct(rest, x);
      if xs[0] != x {
        var tail := RemoveAll(rest, x);
        assert !ContainsIgnoringCase(tail, xs[0]) by {
          forall k | 0 <= k < |tail| ensures !EqualIgnoringCase(tail[k], xs[0]) {
            assert tail[k] in multiset(tail);
            if tail[k] == x {
              assert false;
            } else {
              assert tail[k] in multiset(rest);
              var m :| 0 <= m < |rest| && rest[m] == tail[k];
              assert xs[m + 1] == tail[k];
            }
          }
        }
        var r := [xs[0]] + tail;
        forall i, j | 0 <= i < j < |r| ensures !EqualIgnoringCase(r[i], r[j]) {
          if i == 0 {
            assert r[j] == tail[j - 1];
          } else {
            assert r[i] == tail[i - 1] && r[j] == tail[j - 1];
          }
        }
      }
    }
  }

  function DigitChar(d: nat): char
    requires d < 10
  {
    "0123456789"[d]
  }

  /** The decimal rendering of a natural number, as JavaScript's template literals print it. */
  function NatToString(n: nat): (r: string)
    ensures |r| >= 1
    ensures forall i :: 0 <= i < |r| ==> '0' <= r[i] <= '9'
    ensures n < 10 ==> r == [DigitChar(n)]
    decreases n
  {
    if n < 10 then [DigitChar(n)] else NatToString(n / 10) + [DigitChar(n % 10)]
  }
}
