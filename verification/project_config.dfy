/** The validated project configuration record and its "none" filter for the
    styling and animation checkbox answers. */
module Config {

  /** The checkbox sentinel meaning "no framework / no library". */
  const NoneChoice: string := "none"

  /** What the validator can be handed: Python's `None`, a single string, or a
      list of strings (the shapes the prompt form produces). */
  datatype RawValue = Null | Str(s: string) | StrList(items: seq<string>)

  /** Python truthiness: `None`, `""` and `[]` are falsy. */
  predicate Falsy(v: RawValue)
  {
    v == Null || v == Str("") || v == StrList([])
  }

  /** The value viewed as a list, a lone string wrapped into a one-element list. */
  function Items(v: RawValue): seq<string>
  {
    match v
    case Null => []
    case Str(s) => [s]
    case StrList(xs) => xs
  }

  /** `idx` lists, in increasing order, the positions of `b` at which the
      elements of `a` are found. */
  ghost predicate Embeds(idx: seq<int>, a: seq<string>, b: seq<string>)
  {
    && |idx| == |a|
    && (forall k :: 0 <= k < |idx| ==> 0 <= idx[k] < |b| && a[k] == b[idx[k]])
    && (forall k, m :: 0 <= k < m < |idx| ==> idx[k] < idx[m])
  }

  /** `a` is `b` with some entries left out, the rest in their original order. */
  ghost predicate IsSubsequence(a: seq<string>, b: seq<string>)
  {
    exists idx :: Embeds(idx, a, b)
  }

  /** `[v for v in xs if v != "none"]`. */
  function DropNone(xs: seq<string>): (r: seq<string>)
    ensures NoneChoice !in r
    ensures |r| <= |xs|
    ensures forall x :: x != NoneChoice ==> multiset(r)[x] == multiset(xs)[x]
  {
    if xs == [] then []
    else
      assert xs == [xs[0]] + xs[1..];
      (if xs[0] != NoneChoice then [xs[0]] else []) + DropNone(xs[1..])
  }

  function Shift(idx: seq<int>): (r: seq<int>)
    ensures |r| == |idx|
    ensures forall k :: 0 <= k < |idx| ==> r[k] == idx[k] + 1
  {
    seq(|idx|, k requires 0 <= k < |idx| => idx[k] + 1)
  }

  /** The positions of `xs` that the filter keeps, in increasing order: the
      filter keeps the surviving entries in their original order. */
  ghost function KeptIndices(xs: seq<string>): (idx: seq<int>)
    ensures Embeds(idx, DropNone(xs), xs)
  {
    if xs == [] then []
    else
      var rest := KeptIndices(xs[1..]);
      EmbedsCons(rest, DropNone(xs[1..]), xs);
      if xs[0] != NoneChoice then [0] + Shift(rest) else Shift(rest)
  }

  /** An embedding into the tail of `b` is one into `b`, and extends to one
      that also places `b`'s head. */
  lemma EmbedsCons(idx: seq<int>, a: seq<string>, b: seq<string>)
    requires b != [] && Embeds(idx, a, b[1..])
    ensures Embeds(Shift(idx), a, b)
    ensures Embeds([0] + Shift(idx), [b[0]] + a, b)
  {
    var s := Shift(idx);
    forall k | 0 <= k < |s| ensures 0 <= s[k] < |b| && a[k] == b[s[k]] {
      assert b[s[k]] == b[1..][idx[k]];
    }
    var t, a' := [0] + s, [b[0]] + a;
    forall k | 0 <= k < |t| ensures 0 <= t[k] < |b| && a'[k] == b[t[k]] {
      if k > 0 {
        assert t[k] == s[k - 1] && a'[k] == a[k - 1];
      }
    }
    forall k, m | 0 <= k < m < |t| ensures t[k] < t[m] {
      assert t[m] == s[m - 1];
      if k > 0 {
        assert t[k] == s[k - 1];
      }
    }
  }

  /** A list without "none" passes through the filter unchanged. */
  lemma {:induction false} DropNoneKeepsClean(xs: seq<string>)
    requires NoneChoice !in xs
    ensures DropNone(xs) == xs
  {
    if xs != [] {
      assert xs[0] != NoneChoice;
      DropNoneKeepsClean(xs[1..]);
    }
  }

  /** A list made only of "none" entries filters down to nothing. */
  lemma {:induction false} DropNoneOnlyNone(xs: seq<string>)
    requires forall k :: 0 <= k < |xs| ==> xs[k] == NoneChoice
    ensures DropNone(xs) == []
  {
    if xs != [] {
      DropNoneOnlyNone(xs[1..]);
    }
  }

  /** The `styling` / `animations` field validator (`validate_none`). */
  function ValidateNone(value: RawValue): (r: seq<string>)
    ensures NoneChoice !in r
    ensures Falsy(value) ==> r == []
    ensures IsSubsequence(r, Items(value))
    ensures !Falsy(value) ==>
              forall x :: x != NoneChoice ==> multiset(r)[x] == multiset(Items(value))[x]
  {
    if Falsy(value) then
      assert Embeds([], [], Items(value));
      []
    else
      // a lone string is wrapped into a one-element list
      var xs := Items(value);
      var filtered := DropNone(xs);
      assert Embeds(KeptIndices(xs), filtered, xs);
      // the source's extra "only none" branch returns the same empty list
      if NoneChoice in xs && filtered == [] then [] else filtered
  }

  /** A single non-empty string is wrapped: "tailwind" gives ["tailwind"],
      "none" gives []. */
  lemma ValidateNoneWrapsString(s: string)
    ensures ValidateNone(Str(s)) == if s == "" || s == NoneChoice then [] else [s]
  {
    assert DropNone([s]) == (if s != NoneChoice then [s] else []) + DropNone([]);
  }

  /** A list of nothing but "none" validates to the empty list. */
  lemma ValidateNoneOnlyNone(xs: seq<string>)
    requires forall k :: 0 <= k < |xs| ==> xs[k] == NoneChoice
    ensures ValidateNone(StrList(xs)) == []
  {
    DropNoneOnlyNone(xs);
  }

  /** A list without "none" is accepted unchanged. */
  lemma ValidateNonePassesClean(xs: seq<string>)
    requires NoneChoice !in xs
    ensures ValidateNone(StrList(xs)) == xs
  {
    DropNoneKeepsClean(xs);
  }

  /** Validating an already validated value changes nothing. */
  lemma ValidateNoneIdempotent(v: RawValue)
    ensures ValidateNone(StrList(ValidateNone(v))) == ValidateNone(v)
  {
    DropNoneKeepsClean(ValidateNone(v));
  }

  /** The validated configuration (the `ProjectConfig` model). */
  datatype ProjectConfig = ProjectConfig(
    projectName: string,
    authorName: string,
    authorEmail: string,
    description: string,
    styling: seq<string>,
    animations: seq<string>,
    includePages: bool,
    includeTests: bool,
    includeAuth: bool,
    includeDatabase: bool,
    includeDocker: bool,
    configurePreCommit: bool,
    port: int)

  /** Neither checkbox list of a validated configuration holds the sentinel. */
  predicate Normalised(c: ProjectConfig)
  {
    NoneChoice !in c.styling && NoneChoice !in c.animations
  }

  /** Constructing the record runs `validate_none` on both list fields. */
  function MakeConfig(
    projectName: string, authorName: string, authorEmail: string, description: string,
    styling: RawValue, animations: RawValue,
    includePages: bool, includeTests: bool, includeAuth: bool, includeDatabase: bool,
    includeDocker: bool, configurePreCommit: bool, port: int): (c: ProjectConfig)
    ensures Normalised(c)
    ensures c.styling == ValidateNone(styling) && c.animations == ValidateNone(animations)
    ensures IsSubsequence(c.styling, Items(styling))
    ensures IsSubsequence(c.animations, Items(animations))
    ensures c.projectName == projectName && c.authorName == authorName
    ensures c.authorEmail == authorEmail && c.description == description
    ensures c.includePages == includePages && c.includeTests == includeTests
    ensures c.includeAuth == includeAuth && c.includeDatabase == includeDatabase
    ensures c.includeDocker == includeDocker && c.configurePreCommit == configurePreCommit
    ensures c.port == port
  {
    ProjectConfig(projectName, authorName, authorEmail, description,
                  ValidateNone(styling), ValidateNone(animations),
                  includePages, includeTests, includeAuth, includeDatabase,
                  includeDocker, configurePreCommit, port)
  }

  /** The record built from the four required fields alone: both lists empty,
      tests, Docker and pre-commit on, pages, auth and database off, port 8000. */
  function WithDefaults(projectName: string, authorName: string, authorEmail: string,
                        description: string): (c: ProjectConfig)
    ensures c.styling == [] && c.animations == []
    ensures !c.includePages && c.includeTests && !c.includeAuth && !c.includeDatabase
    ensures c.includeDocker && c.configurePreCommit && c.port == 8000
    ensures c == MakeConfig(projectName, authorName, authorEmail, description,
                            StrList([]), StrList([]), false, true, false, false, true, true, 8000)
  {
    ProjectConfig(projectName, authorName, authorEmail, description, [], [],
                  false, true, false, false, true, true, 8000)
  }
}
