/** The decisions taken by the interactive prompt: the e-mail validator, the
    name normalisation used to compare the project name with the current
    directory, the "essentially empty directory" test, and the choice between
    initialising the current directory, rejecting an existing project and
    accepting the answers. */
module Prompts {
  import opened Text
  import opened Config
  import opened Results
  import opened Files

  // ---------------------------------------------------------------------------
  // validate_email: a search for [^@]+@[^@]+\.[^@]+
  // ---------------------------------------------------------------------------

  /** No '@' in `s[lo..hi]`. */
  predicate NoAt(s: string, lo: int, hi: int)
    requires 0 <= lo <= hi <= |s|
  {
    forall t :: lo <= t < hi ==> s[t] != '@'
  }

  /** `s[a..e]` matches the pattern, with its '@' at `i` and its '.' at `j`:
      three non-empty runs without '@' around a literal '@' and a literal '.'. */
  ghost predicate RegexMatch(s: string, a: int, i: int, j: int, e: int)
  {
    && 0 <= a < i && i + 1 < j && j + 1 < e <= |s|
    && NoAt(s, a, i) && s[i] == '@'
    && NoAt(s, i + 1, j) && s[j] == '.'
    && NoAt(s, j + 1, e)
  }

  /** `re.search` finds a match somewhere in `s`. */
  ghost predicate RegexSearch(s: string)
  {
    exists a, i, j, e :: RegexMatch(s, a, i, j, e)
  }

  /** The shortest match around the '@' at `i` and the '.' at `j`. */
  ghost predicate Witness(s: string, i: int, j: int)
  {
    && 1 <= i && i + 2 <= j && j + 1 < |s|
    && s[i - 1] != '@' && s[i] == '@'
    && NoAt(s, i + 1, j) && s[j] == '.' && s[j + 1] != '@'
  }

  /** A '.' at `j >= k`, no '@' in `s[k..j]`, followed by a non-'@' character. */
  ghost predicate DotAt(s: string, k: int, j: int)
  {
    0 <= k <= j && j + 1 < |s| && NoAt(s, k, j) && s[j] == '.' && s[j + 1] != '@'
  }

  /** Scans right from `k` for the '.' of the pattern, stopping at an '@'. */
  function DotFrom(s: string, k: nat): bool
    decreases |s| - k
  {
    if k + 1 >= |s| then false
    else if s[k] == '@' then false
    else if s[k] == '.' && s[k + 1] != '@' then true
    else DotFrom(s, k + 1)
  }

  /** The pattern can be completed around an '@' at `i`. */
  predicate MatchesAroundAt(s: string, i: nat)
    requires 1 <= i < |s|
  {
    s[i] == '@' && s[i - 1] != '@' && i + 1 < |s| && s[i + 1] != '@' && DotFrom(s, i + 2)
  }

  /** Scans right from `i` for an '@' around which the pattern matches. */
  function AtFrom(s: string, i: nat): bool
    requires i >= 1
    decreases |s| - i
  {
    if i >= |s| then false else MatchesAroundAt(s, i) || AtFrom(s, i + 1)
  }

  lemma {:induction false} DotFromIff(s: string, k: nat)
    ensures DotFrom(s, k) <==> exists j :: DotAt(s, k, j)
    decreases |s| - k
  {
    if k + 1 >= |s| {
    } else if s[k] == '@' {
    } else if s[k] == '.' && s[k + 1] != '@' {
      assert DotAt(s, k, k);
    } else {
      var k' := k + 1;
      DotFromIff(s, k');
      assert DotFrom(s, k) == DotFrom(s, k');
      forall j | DotAt(s, k', j) ensures DotAt(s, k, j) {
        assert forall t :: k <= t < j ==> s[t] != '@';
      }
      forall j | DotAt(s, k, j) ensures DotAt(s, k', j) {
        assert j != k;
        assert forall t :: k + 1 <= t < j ==> s[t] != '@';
      }
    }
  }

  lemma MatchesAroundAtIff(s: string, i: nat)
    requires 1 <= i < |s|
    ensures MatchesAroundAt(s, i) <==> exists j :: Witness(s, i, j)
  {
    var k := i + 2;
    DotFromIff(s, k);
    forall j | Witness(s, i, j) ensures s[i + 1] != '@' && DotAt(s, k, j) {
      assert forall t :: k <= t < j ==> s[t] != '@';
    }
    if s[i] == '@' && s[i - 1] != '@' && i + 1 < |s| && s[i + 1] != '@' {
      forall j | DotAt(s, k, j) ensures Witness(s, i, j) {
        assert forall t :: i + 1 <= t < j ==> s[t] != '@';
      }
    }
  }

  lemma {:induction false} AtFromIff(s: string, i: nat)
    requires i >= 1
    ensures AtFrom(s, i) <==> exists i', j :: i <= i' && Witness(s, i', j)
    decreases |s| - i
  {
    if i < |s| {
      MatchesAroundAtIff(s, i);
      AtFromIff(s, i + 1);
      forall i', j | i <= i' && Witness(s, i', j) && i' != i ensures i + 1 <= i' {
      }
    }
  }

  /** The shortest match exists exactly when the regular expression matches. */
  lemma WitnessIffRegexSearch(s: string)
    ensures (exists i, j :: Witness(s, i, j)) <==> RegexSearch(s)
  {
    forall i, j | Witness(s, i, j) ensures RegexMatch(s, i - 1, i, j, j + 2) {
    }
    forall a, i, j, e | RegexMatch(s, a, i, j, e) ensures Witness(s, i, j) {
      assert s[i - 1] != '@' && s[j + 1] != '@';
    }
  }

  /** `validate_email`: true exactly when `re.search(r"[^@]+@[^@]+\.[^@]+", email)`
      finds a match (and `email` is not empty). */
  function ValidateEmail(email: string): (ok: bool)
    ensures ok <==> RegexSearch(email)
    ensures ok <==> exists i, j :: Witness(email, i, j)
    ensures email == "" ==> !ok
  {
    AtFromIff(email, 1);
    WitnessIffRegexSearch(email);
    AtFrom(email, 1) && email != ""
  }

  /** An accepted address has at least five characters and a '.' after an '@'. */
  lemma AcceptedEmailShape(email: string)
    requires ValidateEmail(email)
    ensures |email| >= 5
    ensures exists i, j :: 0 <= i < j < |email| && email[i] == '@' && email[j] == '.'
  {
    var i, j :| Witness(email, i, j);
    assert email[i] == '@' && email[j] == '.';
  }

  /** Because the check is a search, text around an accepted address keeps it
      accepted. */
  lemma AcceptedEmailExtends(email: string, before: string, after: string)
    requires ValidateEmail(email)
    ensures ValidateEmail(before + email + after)
  {
    var i, j :| Witness(email, i, j);
    var s := before + email + after;
    var n := |before|;
    forall t | n + i + 1 <= t < n + j ensures s[t] != '@' {
      assert s[t] == email[t - n];
    }
    assert s[n + i - 1] == email[i - 1] && s[n + i] == email[i];
    assert s[n + j] == email[j] && s[n + j + 1] == email[j + 1];
    assert Witness(s, n + i, n + j);
  }

  // ---------------------------------------------------------------------------
  // normalize_name: lower-case, '-' and ' ' become '_'
  // ---------------------------------------------------------------------------

  /** The effect of the normalisation on one character. */
  function NormalizeChar(c: char): char
  {
    if c == '-' || c == ' ' then '_' else LowerChar(c)
  }

  /** `name.lower().replace("-", "_").replace(" ", "_")`. */
  function NormalizeName(name: string): (r: string)
    ensures |r| == |name|
    ensures forall k :: 0 <= k < |r| ==> r[k] == NormalizeChar(name[k])
    ensures forall k :: 0 <= k < |r| ==> r[k] != '-' && r[k] != ' ' && !IsUpper(r[k])
  {
    Replace(Replace(Lower(name), '-', '_'), ' ', '_')
  }

  /** Normalising twice is normalising once. */
  lemma NormalizeNameIdempotent(name: string)
    ensures NormalizeName(NormalizeName(name)) == NormalizeName(name)
  {
    var once := NormalizeName(name);
    forall k | 0 <= k < |once| ensures NormalizeChar(once[k]) == once[k] {
    }
  }

  // ---------------------------------------------------------------------------
  // The current-directory decision and the existing-project check
  // ---------------------------------------------------------------------------

  /** The entries `collect_project_config` ignores when judging emptiness. */
  const Ignored: set<string> := {".venv", ".git"}

  /** A directory listing counts as essentially empty: nothing but `.venv` and
      `.git`, or `.git` plus exactly one other entry. */
  ghost predicate LooksEmpty(listing: set<string>)
  {
    || listing <= Ignored
    || (".git" in listing
        && exists x :: x in listing && x !in Ignored
                       && forall y :: y in listing && y !in Ignored ==> y == x)
  }

  /** The emptiness test on `set(os.listdir("."))`, discarding `.venv` and `.git`. */
  method EssentiallyEmpty(listing: set<string>) returns (empty: bool)
    ensures empty <==> LooksEmpty(listing)
  {
    var contents := listing;
    contents := contents - {".venv"};
    contents := contents - {".git"};
    assert contents == listing - Ignored;
    empty := contents == {} || (|contents| == 1 && ".git" in listing);
    SingleOutsideIgnored(listing, contents);
  }

  /** One entry is left after discarding the ignored ones exactly when a
      single entry outside them is all there is besides them. */
  lemma SingleOutsideIgnored(listing: set<string>, contents: set<string>)
    requires contents == listing - Ignored
    ensures contents == {} <==> listing <= Ignored
    ensures |contents| == 1 <==>
              exists x :: x in listing && x !in Ignored
                          && forall y :: y in listing && y !in Ignored ==> y == x
  {
    if |contents| == 1 {
      var x :| x in contents;
      assert |contents - {x}| == 0;
      assert forall y :: y in contents ==> y == x;
    }
    forall x | x in listing && x !in Ignored && (forall y :: y in listing && y !in Ignored ==> y == x)
      ensures |contents| == 1
    {
      assert contents == {x};
    }
  }

  /** The answers the interactive form returns. The four v1 flags are not
      asked (their questions are skipped) and so are not part of the answers. */
  datatype FormAnswers = FormAnswers(
    projectName: string,
    authorName: string,
    authorEmail: string,
    description: string,
    styling: RawValue,
    animations: RawValue,
    includePages: bool,
    configurePreCommit: bool,
    port: int)

  /** The values the skipped v1 questions take. */
  const SkippedIncludeTests := true
  const SkippedIncludeAuth := false
  const SkippedIncludeDatabase := false
  const SkippedIncludeDocker := true

  /** The configuration built from the answers under a given project name. */
  function FromAnswers(a: FormAnswers, projectName: string): ProjectConfig
  {
    MakeConfig(projectName, a.authorName, a.authorEmail, a.description, a.styling, a.animations,
               a.includePages, SkippedIncludeTests, SkippedIncludeAuth, SkippedIncludeDatabase,
               SkippedIncludeDocker, a.configurePreCommit, a.port)
  }

  /** The prompt offers to initialise the current directory: its name matches
      the project name after normalisation and it is essentially empty. */
  ghost predicate OffersInitHere(a: FormAnswers, fs: FileSystem, cwdName: string)
    reads fs
  {
    NormalizeName(cwdName) == NormalizeName(a.projectName) && LooksEmpty(fs.Listing())
  }

  /** What `collect_project_config` does after the form is answered; `fs` is the
      current directory and `initHere` the answer to the confirmation. */
  method CollectProjectConfig(a: FormAnswers, fs: FileSystem, cwdName: string, initHere: bool)
    returns (r: Result<ProjectConfig>)
    ensures OffersInitHere(a, fs, cwdName) && initHere ==> r == Ok(FromAnswers(a, "."))
    ensures !(OffersInitHere(a, fs, cwdName) && initHere) ==>
              r == (if a.projectName != "." && fs.NameExists(a.projectName)
                    then Err(FileExists(a.projectName))
                    else Ok(FromAnswers(a, a.projectName)))
    ensures r.Ok? ==> Normalised(r.value)
    ensures r.Ok? ==> r.value.includeTests && !r.value.includeAuth
                      && !r.value.includeDatabase && r.value.includeDocker
    ensures r.Ok? ==> r.value.projectName == "." || !fs.NameExists(r.value.projectName)
  {
    var projectName := a.projectName;
    if NormalizeName(cwdName) == NormalizeName(projectName) {
      var empty := EssentiallyEmpty(fs.Listing());
      if empty && initHere {
        projectName := ".";
        return Ok(FromAnswers(a, projectName));
      }
    }
    if fs.NameExists(projectName) && projectName != "." {
      return Err(FileExists(projectName));
    }
    return Ok(FromAnswers(a, projectName));
  }
}
