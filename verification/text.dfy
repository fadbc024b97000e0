/** String helpers shared by the prompt and generator models: ASCII lower-casing
    (the model of Python's `str.lower()` on ASCII text), single-character
    `str.replace`, substring search and `str.rfind`. */
module Text {

  /** ASCII lower-casing of one character; every other character is kept. */
  function LowerChar(c: char): char
  {
    if 'A' <= c <= 'Z' then (c as int + 32) as char else c
  }

  predicate IsUpper(c: char)
  {
    'A' <= c <= 'Z'
  }

  /** `s.lower()`, restricted to ASCII. */
  function Lower(s: string): (r: string)
    ensures |r| == |s|
    ensures forall k :: 0 <= k < |s| ==> r[k] == LowerChar(s[k])
    ensures forall k :: 0 <= k < |r| ==> !IsUpper(r[k])
  {
    if s == [] then [] else [LowerChar(s[0])] + Lower(s[1..])
  }

  /** `s.replace(a, b)` for one-character `a` and `b`: every `a` becomes `b`. */
  function Replace(s: string, a: char, b: char): (r: string)
    ensures |r| == |s|
    ensures forall k :: 0 <= k < |s| ==> r[k] == (if s[k] == a then b else s[k])
    ensures a != b ==> forall k :: 0 <= k < |r| ==> r[k] != a
  {
    if s == [] then [] else [if s[0] == a then b else s[0]] + Replace(s[1..], a, b)
  }

  /** `t` occurs in `s` starting at index `k`. */
  ghost predicate OccursAt(s: string, t: string, k: int)
  {
    0 <= k && k + |t| <= |s| && s[k..k + |t|] == t
  }

  /** `t in s` for strings: a left-to-right search for an occurrence of `t`. */
  function HasInfix(s: string, t: string): (found: bool)
    decreases |s|
  {
    if |t| <= |s| && s[..|t|] == t then true
    else if s == [] then false
    else HasInfix(s[1..], t)
  }

  /** The search finds `t` exactly when `t` occurs at some index of `s`. */
  lemma {:induction false} HasInfixIff(s: string, t: string)
    ensures HasInfix(s, t) <==> exists k :: OccursAt(s, t, k)
    decreases |s|
  {
    if |t| <= |s| && s[..|t|] == t {
      assert OccursAt(s, t, 0);
    } else if s != [] {
      HasInfixIff(s[1..], t);
      forall k | OccursAt(s[1..], t, k) ensures OccursAt(s, t, k + 1) {
        assert s[k + 1..k + 1 + |t|] == s[1..][k..k + |t|];
      }
      forall k | OccursAt(s, t, k) ensures OccursAt(s[1..], t, k - 1) {
        if k == 0 {
          assert false;
        }
        assert s[1..][k - 1..k - 1 + |t|] == s[k..k + |t|];
      }
    }
  }

  /** `s.rfind(c)`: the last index holding `c`, or -1 when there is none. */
  function LastIndexOf(s: string, c: char): (i: int)
    ensures -1 <= i < |s|
    ensures i >= 0 ==> s[i] == c
    ensures forall k :: i < k < |s| ==> s[k] != c
  {
    if s == [] then -1
    else if s[|s| - 1] == c then |s| - 1
    else LastIndexOf(s[..|s| - 1], c)
  }

  predicate EndsWith(s: string, t: string)
  {
    |t| <= |s| && s[|s| - |t|..] == t
  }
}
