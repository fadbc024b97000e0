/** The pure rules of the project generator: which template files are used,
    where each one is written and under what name, what a whole run of
    template processing writes, the console-script slug and the numbering of
    the "next steps" shown at the end. */
module GeneratorRules {
  import opened Text
  import opened Config
  import opened Results
  import opened Files
  import Prompts

  // ---------------------------------------------------------------------------
  // File names: pathlib's suffix and stem, the .jinja rule
  // ---------------------------------------------------------------------------

  const JinjaSuffix: string := ".jinja"

  /** `Path(name).suffix`: from the last '.', when that '.' is neither the first
      nor the last character of the name; otherwise empty. */
  function Suffix(name: string): string
  {
    var i := LastIndexOf(name, '.');
    if 0 < i < |name| - 1 then name[i..] else ""
  }

  /** `Path(name).stem`: the name without its suffix. */
  function Stem(name: string): (r: string)
    ensures r + Suffix(name) == name
  {
    var i := LastIndexOf(name, '.');
    if 0 < i < |name| - 1 then name[..i] else name
  }

  /** A name has the `.jinja` suffix exactly when it ends in ".jinja" and has
      something before it (so a file called just ".jinja" has no suffix). */
  lemma JinjaSuffixIff(name: string)
    ensures Suffix(name) == JinjaSuffix <==> |name| > |JinjaSuffix| && EndsWith(name, JinjaSuffix)
  {
    var i := LastIndexOf(name, '.');
    if |name| > |JinjaSuffix| && EndsWith(name, JinjaSuffix) {
      var n := |name|;
      assert name[n - 6..] == ".jinja";
      assert name[n - 6] == '.';
      forall k | n - 6 < k < n ensures name[k] != '.' {
        assert name[k] == ".jinja"[k - (n - 6)];
      }
      assert i == n - 6;
    }
    if Suffix(name) == JinjaSuffix {
      assert |name[i..]| == 6;
    }
  }

  /** `name.startswith(".")`. */
  predicate IsHidden(name: string)
  {
    |name| > 0 && name[0] == '.'
  }

  /** The selection test of `_generate_files`: hidden files only when they are
      Jinja templates. */
  predicate Selected(name: string)
  {
    !IsHidden(name) || Suffix(name) == JinjaSuffix
  }

  /** Visible files are always used; a hidden file is used exactly when it is
      a Jinja template, like ".env.development.jinja". */
  lemma SelectedIff(name: string)
    ensures Selected(name) <==>
              !IsHidden(name) || (|name| > |JinjaSuffix| && EndsWith(name, JinjaSuffix))
  {
    JinjaSuffixIff(name);
  }

  /** The output file name: the stem for a `.jinja` template, else the name. */
  function OutputName(name: string): string
  {
    if Suffix(name) == JinjaSuffix then Stem(name) else name
  }

  /** Exactly one trailing ".jinja" is removed, and only from templates; every
      other name is kept as it is. */
  lemma OutputNameDropsJinja(name: string)
    ensures |name| > |JinjaSuffix| && EndsWith(name, JinjaSuffix) ==>
              OutputName(name) + JinjaSuffix == name
    ensures !(|name| > |JinjaSuffix| && EndsWith(name, JinjaSuffix)) ==> OutputName(name) == name
  {
    JinjaSuffixIff(name);
  }

  // ---------------------------------------------------------------------------
  // Templates and where their output goes
  // ---------------------------------------------------------------------------

  /** A template file: a root template lies directly in `templates/` (its `dir`
      is empty); a type template lies in `templates/<type>/<dir>`. */
  datatype Template = Template(isRoot: bool, dir: Path, name: string)

  function RootTemplate(name: string): Template
  {
    Template(true, [], name)
  }

  /** The template's path relative to the directory it was found in: the name
      the Jinja loader is asked for. */
  function Key(t: Template): Path
  {
    t.dir + [t.name]
  }

  /** The Jinja environment. `loads` says which template names can be loaded
      (a name is looked up in `templates/` first and then in
      `templates/<type>/`, so two templates with the same name load the same
      file); `render` is what a loaded template renders to under a
      configuration, `None` standing for a render error. */
  datatype Jinja = Jinja(loads: Path -> bool, render: (Path, ProjectConfig) -> Option<string>)

  /** The name under which `_process_template_file` loads a template: its
      relative path, and failing that its bare file name; `None` when both
      fail (the loader raises). */
  function Loaded(t: Template, j: Jinja): Option<Path>
  {
    if j.loads(Key(t)) then Some(Key(t))
    else if j.loads([t.name]) then Some([t.name])
    else None
  }

  /** `_process_template_file` skips pre-commit configuration when it was
      declined. */
  predicate SkipsPreCommit(c: ProjectConfig, name: string)
  {
    !c.configurePreCommit && HasInfix(Lower(name), "pre-commit")
  }

  /** Processing the template (whether or not it is selected) writes a file:
      it is loaded, not skipped, and its rendering succeeds. */
  predicate Produces(c: ProjectConfig, t: Template, j: Jinja)
  {
    !SkipsPreCommit(c, t.name) && Loaded(t, j).Some? && j.render(Loaded(t, j).value, c).Some?
  }

  /** Processing the template raises: it cannot be loaded, or it is loaded,
      not skipped and its rendering fails. The template is loaded before the
      pre-commit test, so a skipped template that cannot be loaded raises too. */
  predicate Raises(c: ProjectConfig, t: Template, j: Jinja)
  {
    || Loaded(t, j).None?
    || (!SkipsPreCommit(c, t.name) && j.render(Loaded(t, j).value, c).None?)
  }

  /** The template is selected and produces a file. */
  predicate Writes(c: ProjectConfig, t: Template, j: Jinja)
  {
    Selected(t.name) && Produces(c, t, j)
  }

  /** The template is selected and its processing raises. */
  predicate Fails(c: ProjectConfig, t: Template, j: Jinja)
  {
    Selected(t.name) && Raises(c, t, j)
  }

  /** A template is either written, skipped without effect, or fails; a
      template that is not selected is never loaded. */
  lemma OutcomeCases(c: ProjectConfig, t: Template, j: Jinja)
    ensures !(Writes(c, t, j) && Fails(c, t, j))
    ensures !Selected(t.name) ==> !Writes(c, t, j) && !Fails(c, t, j)
    ensures Selected(t.name) && Loaded(t, j).Some? && SkipsPreCommit(c, t.name) ==>
              !Writes(c, t, j) && !Fails(c, t, j)
    ensures Selected(t.name) && !SkipsPreCommit(c, t.name) ==> Writes(c, t, j) || Fails(c, t, j)
  {
  }

  /** The directory a template's output goes to: the project root for a root
      template, `src/<dir>` under the project for a type template. */
  function TargetDir(projectPath: Path, t: Template): Path
  {
    if t.isRoot then projectPath else projectPath + ["src"] + t.dir
  }

  /** The path of the file a template produces. */
  function OutputPath(projectPath: Path, t: Template): Path
  {
    TargetDir(projectPath, t) + [OutputName(t.name)]
  }

  /** Root templates are written directly into the project directory and type
      templates into its `src/` tree, mirroring their place under the type's
      template directory, under their output name. */
  lemma OutputPathPlace(projectPath: Path, t: Template)
    ensures var d := TargetDir(projectPath, t);
            && IsPrefix(projectPath, d)
            && (t.isRoot ==> d == projectPath)
            && (!t.isRoot ==> |d| > |projectPath| && d[|projectPath|] == "src"
                              && d[|projectPath| + 1..] == t.dir)
    ensures var p := OutputPath(projectPath, t);
            && IsPrefix(projectPath, p) && |p| > |projectPath|
            && p != [] && Parent(p) == TargetDir(projectPath, t)
            && p[|p| - 1] == OutputName(t.name)
  {
    var d := TargetDir(projectPath, t);
    var p := OutputPath(projectPath, t);
    assert p[..|d|] == d;
    if !t.isRoot {
      assert d[..|projectPath|] == projectPath;
    }
  }

  // ---------------------------------------------------------------------------
  // What processing a sequence of templates writes
  // ---------------------------------------------------------------------------

  /** What one successfully rendered template holds. */
  function Rendered(c: ProjectConfig, t: Template, j: Jinja): Content
    requires Loaded(t, j).Some? && j.render(Loaded(t, j).value, c).Some?
  {
    Text(j.render(Loaded(t, j).value, c).value)
  }

  /** A file write: the file, the directory made for it, what it holds. */
  datatype Output = Output(path: Path, dir: Path, content: Content)

  /** What processing one template does: nothing, or one write. */
  function Outcome(c: ProjectConfig, pp: Path, j: Jinja, t: Template): Option<Output>
  {
    if Writes(c, t, j)
    then Some(Output(OutputPath(pp, t), TargetDir(pp, t), Rendered(c, t, j)))
    else None
  }

  /** `Outcome` as a function value. */
  function OutcomeOf(c: ProjectConfig, pp: Path, j: Jinja): Template -> Option<Output>
  {
    t => Outcome(c, pp, j, t)
  }

  function MapSeq<T, U>(xs: seq<T>, f: T -> U): (r: seq<U>)
    ensures |r| == |xs|
    ensures forall k :: 0 <= k < |xs| ==> r[k] == f(xs[k])
  {
    seq(|xs|, k requires 0 <= k < |xs| => f(xs[k]))
  }

  lemma MapSeqConcat<T, U>(a: seq<T>, b: seq<T>, f: T -> U)
    ensures MapSeq(a + b, f) == MapSeq(a, f) + MapSeq(b, f)
  {
    var r := MapSeq(a + b, f);
    forall k | 0 <= k < |r| ensures r[k] == (MapSeq(a, f) + MapSeq(b, f))[k] {
      if k < |a| {
        assert (a + b)[k] == a[k];
      } else {
        assert (a + b)[k] == b[k - |a|];
      }
    }
  }

  /** The outcome of each template in turn. */
  function Outcomes(ts: seq<Template>, c: ProjectConfig, pp: Path, j: Jinja)
    : (os: seq<Option<Output>>)
    ensures |os| == |ts|
    ensures forall k :: 0 <= k < |ts| ==> os[k] == Outcome(c, pp, j, ts[k])
  {
    MapSeq(ts, OutcomeOf(c, pp, j))
  }

  /** The files a sequence of writes leaves, a later write to the same path
      replacing an earlier one. */
  function Apply(os: seq<Option<Output>>): map<Path, Content>
  {
    if os == [] then map[]
    else
      var before := Apply(os[..|os| - 1]);
      match os[|os| - 1]
      case None => before
      case Some(o) => before[o.path := o.content]
  }

  /** The directories a sequence of writes makes. */
  function DirsOf(os: seq<Option<Output>>): set<Path>
  {
    if os == [] then {}
    else
      var before := DirsOf(os[..|os| - 1]);
      match os[|os| - 1]
      case None => before
      case Some(o) => before + Ancestors(o.dir)
  }

  lemma {:induction false} ApplyConcat(a: seq<Option<Output>>, b: seq<Option<Output>>)
    ensures Apply(a + b) == Apply(a) + Apply(b)
    ensures DirsOf(a + b) == DirsOf(a) + DirsOf(b)
    decreases |b|
  {
    if b == [] {
      assert a + b == a;
    } else {
      var n := |b| - 1;
      assert (a + b)[..|a + b| - 1] == a + b[..n];
      assert (a + b)[|a + b| - 1] == b[n];
      ApplyConcat(a, b[..n]);
    }
  }

  lemma {:induction false} ApplySound(os: seq<Option<Output>>, p: Path)
    requires p in Apply(os)
    ensures exists k :: 0 <= k < |os| && os[k].Some? && os[k].value.path == p
  {
    var n := |os| - 1;
    if !(os[n].Some? && os[n].value.path == p) {
      ApplySound(os[..n], p);
      var k :| 0 <= k < n && os[..n][k].Some? && os[..n][k].value.path == p;
      assert os[..n][k] == os[k];
    }
  }

  lemma {:induction false} ApplyLastWins(os: seq<Option<Output>>, k: int)
    requires 0 <= k < |os| && os[k].Some?
    requires forall m :: k < m < |os| && os[m].Some? ==> os[m].value.path != os[k].value.path
    ensures os[k].value.path in Apply(os)
    ensures Apply(os)[os[k].value.path] == os[k].value.content
  {
    var n := |os| - 1;
    if k < n {
      assert os[..n][k] == os[k];
      forall m | k < m < n && os[..n][m].Some?
        ensures os[..n][m].value.path != os[..n][k].value.path
      {
        assert os[..n][m] == os[m];
      }
      ApplyLastWins(os[..n], k);
    }
  }

  lemma {:induction false} ApplyComplete(os: seq<Option<Output>>, k: int)
    requires 0 <= k < |os| && os[k].Some?
    ensures os[k].value.path in Apply(os)
  {
    var n := |os| - 1;
    if k < n {
      assert os[..n][k] == os[k];
      ApplyComplete(os[..n], k);
    }
  }

  /** The files written by processing `ts` in order. */
  function Written(ts: seq<Template>, c: ProjectConfig, pp: Path, j: Jinja)
    : map<Path, Content>
  {
    Apply(Outcomes(ts, c, pp, j))
  }

  /** The directories created by processing `ts` in order. */
  function MadeDirs(ts: seq<Template>, c: ProjectConfig, pp: Path, j: Jinja): set<Path>
  {
    DirsOf(Outcomes(ts, c, pp, j))
  }

  /** Processing `a` and then `b` writes what `a` writes overridden by what `b`
      writes. */
  lemma WrittenConcat(a: seq<Template>, b: seq<Template>, c: ProjectConfig,
                      pp: Path, j: Jinja)
    ensures Written(a + b, c, pp, j) == Written(a, c, pp, j) + Written(b, c, pp, j)
    ensures MadeDirs(a + b, c, pp, j) == MadeDirs(a, c, pp, j) + MadeDirs(b, c, pp, j)
  {
    OutcomesConcat(a, b, c, pp, j);
    ApplyConcat(Outcomes(a, c, pp, j), Outcomes(b, c, pp, j));
  }

  lemma OutcomesConcat(a: seq<Template>, b: seq<Template>, c: ProjectConfig, pp: Path, j: Jinja)
    ensures Outcomes(a + b, c, pp, j) == Outcomes(a, c, pp, j) + Outcomes(b, c, pp, j)
  {
    MapSeqConcat(a, b, OutcomeOf(c, pp, j));
  }

  /** Processing one template writes its rendering to its output path and makes
      its directory when it is emitted and renders, and does nothing otherwise. */
  lemma WrittenOne(t: Template, c: ProjectConfig, pp: Path, j: Jinja)
    ensures Writes(c, t, j) ==>
              && Written([t], c, pp, j) == map[OutputPath(pp, t) := Rendered(c, t, j)]
              && MadeDirs([t], c, pp, j) == Ancestors(TargetDir(pp, t))
    ensures !Writes(c, t, j) ==>
              Written([t], c, pp, j) == map[] && MadeDirs([t], c, pp, j) == {}
  {
    var os := Outcomes([t], c, pp, j);
    assert os == [Outcome(c, pp, j, t)];
    assert os[..0] == [];
    assert Apply(os[..0]) == map[] && DirsOf(os[..0]) == {};
  }

  /** Processing one more template adds its output, when it writes one. */
  lemma WrittenStep(ts: seq<Template>, i: int, c: ProjectConfig, pp: Path, j: Jinja)
    requires 0 <= i < |ts|
    ensures Writes(c, ts[i], j) ==>
              && Written(ts[..i + 1], c, pp, j)
                 == Written(ts[..i], c, pp, j)[OutputPath(pp, ts[i]) := Rendered(c, ts[i], j)]
              && MadeDirs(ts[..i + 1], c, pp, j)
                 == MadeDirs(ts[..i], c, pp, j) + Ancestors(TargetDir(pp, ts[i]))
    ensures !Writes(c, ts[i], j) ==>
              && Written(ts[..i + 1], c, pp, j) == Written(ts[..i], c, pp, j)
              && MadeDirs(ts[..i + 1], c, pp, j) == MadeDirs(ts[..i], c, pp, j)
  {
    assert ts[..i + 1] == ts[..i] + [ts[i]];
    WrittenConcat(ts[..i], [ts[i]], c, pp, j);
    WrittenOne(ts[i], c, pp, j);
  }

  /** Processing the first `i + 1` templates on top of existing files and
      directories is processing the first `i`, then template `i`. */
  lemma WrittenExtend(ts: seq<Template>, i: int, c: ProjectConfig, pp: Path, j: Jinja,
                      files: map<Path, Content>, dirs: set<Path>)
    requires 0 <= i < |ts|
    ensures files + Written(ts[..i + 1], c, pp, j)
            == (files + Written(ts[..i], c, pp, j)) + Written([ts[i]], c, pp, j)
    ensures dirs + MadeDirs(ts[..i + 1], c, pp, j)
            == (dirs + MadeDirs(ts[..i], c, pp, j)) + MadeDirs([ts[i]], c, pp, j)
  {
    assert ts[..i + 1] == ts[..i] + [ts[i]];
    WrittenConcat(ts[..i], [ts[i]], c, pp, j);
    MapUnionAssoc(files, Written(ts[..i], c, pp, j), Written([ts[i]], c, pp, j));
  }

  /** Every written file is the output of some template that was rendered. */
  lemma WrittenSound(ts: seq<Template>, c: ProjectConfig, pp: Path,
                     j: Jinja, p: Path)
    requires p in Written(ts, c, pp, j)
    ensures exists k :: 0 <= k < |ts| && Writes(c, ts[k], j) && OutputPath(pp, ts[k]) == p
  {
    var os := Outcomes(ts, c, pp, j);
    ApplySound(os, p);
    var k :| 0 <= k < |os| && os[k].Some? && os[k].value.path == p;
    assert Writes(c, ts[k], j) && OutputPath(pp, ts[k]) == p;
  }

  /** Every template that is rendered successfully has its output written. */
  lemma WrittenComplete(ts: seq<Template>, c: ProjectConfig, pp: Path,
                        j: Jinja, k: int)
    requires 0 <= k < |ts| && Writes(c, ts[k], j)
    ensures OutputPath(pp, ts[k]) in Written(ts, c, pp, j)
  {
    ApplyComplete(Outcomes(ts, c, pp, j), k);
  }

  /** The file at a template's output path holds that template's rendering when
      no later template writes to the same path. */
  lemma WrittenLastWins(ts: seq<Template>, c: ProjectConfig, pp: Path,
                        j: Jinja, k: int)
    requires 0 <= k < |ts| && Writes(c, ts[k], j)
    requires forall m :: k < m < |ts| && Writes(c, ts[m], j) ==>
                           OutputPath(pp, ts[m]) != OutputPath(pp, ts[k])
    ensures OutputPath(pp, ts[k]) in Written(ts, c, pp, j)
    ensures Written(ts, c, pp, j)[OutputPath(pp, ts[k])] == Rendered(c, ts[k], j)
  {
    var os := Outcomes(ts, c, pp, j);
    forall m | k < m < |os| && os[m].Some? ensures os[m].value.path != os[k].value.path {
      assert Writes(c, ts[m], j);
    }
    ApplyLastWins(os, k);
  }

  /** The position of the first template whose processing raises, `|ts|` when
      none does: processing stops there. */
  function FirstFailure(ts: seq<Template>, c: ProjectConfig, j: Jinja): (i: nat)
    ensures i <= |ts|
    ensures forall k :: 0 <= k < i ==> !Fails(c, ts[k], j)
    ensures i < |ts| ==> Fails(c, ts[i], j)
  {
    if ts == [] then 0
    else if Fails(c, ts[0], j) then 0
    else
      var i := 1 + FirstFailure(ts[1..], c, j);
      assert forall k :: 1 <= k < i ==> ts[k] == ts[1..][k - 1];
      i
  }

  /** No template before position `i` fails. */
  predicate NoFailureBefore(ts: seq<Template>, c: ProjectConfig, j: Jinja, i: int)
    requires 0 <= i <= |ts|
  {
    forall k :: 0 <= k < i ==> !Fails(c, ts[k], j)
  }

  /** Passing one more template that does not fail keeps the prefix clean. */
  lemma NoFailureStep(ts: seq<Template>, c: ProjectConfig, j: Jinja, i: int)
    requires 0 <= i < |ts| && NoFailureBefore(ts, c, j, i) && !Fails(c, ts[i], j)
    ensures NoFailureBefore(ts, c, j, i + 1)
  {
  }

  /** A position before which nothing fails and at which processing fails (or
      ends) is the first failure. */
  lemma FirstFailureAt(ts: seq<Template>, c: ProjectConfig, j: Jinja, i: int)
    requires 0 <= i <= |ts|
    requires NoFailureBefore(ts, c, j, i)
    requires i < |ts| ==> Fails(c, ts[i], j)
    ensures FirstFailure(ts, c, j) == i
  {
  }

  /** Everything written lies strictly inside the project directory, root
      templates directly in it and type templates under its `src/`. */
  lemma WrittenInsideProject(ts: seq<Template>, c: ProjectConfig, pp: Path,
                             j: Jinja, p: Path)
    requires p in Written(ts, c, pp, j)
    ensures IsPrefix(pp, p) && |p| > |pp|
    ensures (forall k :: 0 <= k < |ts| ==> ts[k].isRoot) ==> |p| == |pp| + 1
    ensures (forall k :: 0 <= k < |ts| ==> !ts[k].isRoot) ==> p[|pp|] == "src"
  {
    WrittenSound(ts, c, pp, j, p);
    var k :| 0 <= k < |ts| && Writes(c, ts[k], j) && OutputPath(pp, ts[k]) == p;
    OutputPathPlace(pp, ts[k]);
  }

  /** With pre-commit configuration declined, every written file comes from a
      template whose name does not mention "pre-commit". */
  lemma PreCommitDeclined(ts: seq<Template>, c: ProjectConfig, pp: Path,
                          j: Jinja, p: Path)
    requires !c.configurePreCommit && p in Written(ts, c, pp, j)
    ensures exists k :: 0 <= k < |ts| && OutputPath(pp, ts[k]) == p
                        && !HasInfix(Lower(ts[k].name), "pre-commit")
  {
    WrittenSound(ts, c, pp, j, p);
  }

  /** With pre-commit configuration accepted, every selected template that
      does not fail is written, pre-commit templates included. */
  lemma PreCommitAccepted(ts: seq<Template>, c: ProjectConfig, pp: Path,
                          j: Jinja, k: int)
    requires c.configurePreCommit && 0 <= k < |ts| && Selected(ts[k].name)
    requires !Fails(c, ts[k], j)
    ensures OutputPath(pp, ts[k]) in Written(ts, c, pp, j)
  {
    WrittenComplete(ts, c, pp, j, k);
  }

  // ---------------------------------------------------------------------------
  // The console-script slug
  // ---------------------------------------------------------------------------

  /** The effect of the slug on one character. */
  function SlugChar(c: char): char
  {
    if c == ' ' || c == '_' then '-' else LowerChar(c)
  }

  /** `name.lower().replace(" ", "-").replace("_", "-")`. */
  function Slug(name: string): (r: string)
    ensures |r| == |name|
    ensures forall k :: 0 <= k < |r| ==> r[k] == SlugChar(name[k])
    ensures forall k :: 0 <= k < |r| ==> r[k] != ' ' && r[k] != '_' && !IsUpper(r[k])
  {
    Replace(Replace(Lower(name), ' ', '-'), '_', '-')
  }

  /** Two names have the same slug exactly when the prompt's normalisation
      makes them equal: both identify '-', '_' and ' ' and ignore case. */
  lemma SlugAgreesWithNormalizeName(a: string, b: string)
    ensures Slug(a) == Slug(b) <==> Prompts.NormalizeName(a) == Prompts.NormalizeName(b)
  {
    var sa, sb := Slug(a), Slug(b);
    var na, nb := Prompts.NormalizeName(a), Prompts.NormalizeName(b);
    if |a| == |b| {
      forall k | 0 <= k < |a| ensures sa[k] == sb[k] <==> na[k] == nb[k] {
        assert sa[k] == SlugChar(a[k]) && na[k] == Prompts.NormalizeChar(a[k]);
        assert sb[k] == SlugChar(b[k]) && nb[k] == Prompts.NormalizeChar(b[k]);
      }
      if sa == sb {
        assert forall k :: 0 <= k < |a| ==> na[k] == nb[k];
      }
      if na == nb {
        assert forall k :: 0 <= k < |a| ==> sa[k] == sb[k];
      }
    }
  }

  /** The slug is "." only for the name ".". */
  lemma SlugIsDotOnlyForDot(name: string)
    ensures Slug(name) == "." <==> name == "."
  {
    if Slug(name) == "." {
      assert SlugChar(name[0]) == '.';
      assert name == [name[0]];
    }
  }

  // ---------------------------------------------------------------------------
  // The "next steps" shown after generation
  // ---------------------------------------------------------------------------

  const Tailwind: string := "tailwind"

  datatype StepKind =
    | Navigate(dir: string)      // cd into the new project
    | Activate                   // activate the virtual environment
    | Install                    // uv sync
    | BuildCss                   // npm run build:css:prod
    | Run(command: string)       // the console script
    | Tips(pagesTip: bool)       // development tips, with the pages tip or not
    | Resources(tailwindDocs: bool)

  datatype Step = Step(number: int, kind: StepKind)

  /** The numbered steps `_display_next_steps` prints: navigation only when a
      new directory was created, the Tailwind build only when Tailwind was
      chosen, and the run step showing the slug of `slugSource`. */
  function StepsShown(c: ProjectConfig, projectPath: Path, projectName: string,
                      slugSource: string): seq<Step>
  {
    var tailwind := Tailwind in c.styling;
    var run := if tailwind then 5 else 4;
    var navigate := if projectPath != [] then [Step(1, Navigate(projectName))] else [];
    var build := if tailwind then [Step(4, BuildCss)] else [];
    navigate + [Step(2, Activate), Step(3, Install)] + build
    + [Step(run, Run(Slug(slugSource))), Step(run + 1, Tips(c.includePages)),
       Step(run + 2, Resources(tailwind))]
  }

  /** The steps are numbered consecutively, from 1 when a new directory was
      created and from 2 when the current directory was initialised. */
  lemma StepsNumbered(c: ProjectConfig, projectPath: Path, projectName: string, slugSource: string)
    ensures var steps := StepsShown(c, projectPath, projectName, slugSource);
            && |steps| >= 5
            && steps[0].number == (if projectPath != [] then 1 else 2)
            && forall k :: 0 < k < |steps| ==> steps[k].number == steps[k - 1].number + 1
  {
  }

  /** The navigation step is shown exactly when a new directory was created,
      and the Tailwind build step exactly when Tailwind was chosen; the tips
      mention pages and the resources the Tailwind docs under the same
      conditions. */
  lemma StepsOptional(c: ProjectConfig, projectPath: Path, projectName: string, slugSource: string)
    ensures var steps := StepsShown(c, projectPath, projectName, slugSource);
            && ((exists k :: 0 <= k < |steps| && steps[k].kind == Navigate(projectName))
                <==> projectPath != [])
            && ((exists k :: 0 <= k < |steps| && steps[k].kind == BuildCss)
                <==> Tailwind in c.styling)
            && (forall k :: 0 <= k < |steps| && steps[k].kind.Tips? ==>
                  steps[k].kind.pagesTip == c.includePages)
            && (forall k :: 0 <= k < |steps| && steps[k].kind.Resources? ==>
                  steps[k].kind.tailwindDocs == (Tailwind in c.styling))
  {
    var steps := StepsShown(c, projectPath, projectName, slugSource);
    if projectPath != [] {
      assert steps[0].kind == Navigate(projectName);
    }
    if Tailwind in c.styling {
      assert steps[|steps| - 4].kind == BuildCss;
    }
  }

  /** There is one run step; it shows the slug, is numbered 5 after a Tailwind
      build and 4 otherwise, and is followed by the tips and the resources. */
  lemma StepsRun(c: ProjectConfig, projectPath: Path, projectName: string, slugSource: string)
    ensures var steps := StepsShown(c, projectPath, projectName, slugSource);
            && (exists k :: 0 <= k < |steps| && steps[k].kind == Run(Slug(slugSource)))
            && forall k :: 0 <= k < |steps| && steps[k].kind.Run? ==>
                 && steps[k].kind.command == Slug(slugSource)
                 && steps[k].number == (if Tailwind in c.styling then 5 else 4)
                 && k + 2 < |steps| && steps[k + 1].kind.Tips? && steps[k + 2].kind.Resources?
  {
    var steps := StepsShown(c, projectPath, projectName, slugSource);
    assert steps[|steps| - 3].kind == Run(Slug(slugSource));
  }

  /** The steps as the source prints them: the slug is taken from the
      configuration's project name, which is "." when the current directory is
      being initialised. */
  function NextStepsAsWritten(c: ProjectConfig, projectPath: Path, projectName: string): seq<Step>
  {
    StepsShown(c, projectPath, projectName, c.projectName)
  }

  /** The run step then tells the user to run a console script called ".". */
  lemma AsWrittenSlugIsDotInCurrentDir(c: ProjectConfig, cwdName: string)
    requires c.projectName == "."
    ensures exists k :: 0 <= k < |NextStepsAsWritten(c, [], cwdName)|
                        && NextStepsAsWritten(c, [], cwdName)[k].kind == Run(".")
  {
    SlugIsDotOnlyForDot(".");
    StepsRun(c, [], cwdName, c.projectName);
    var steps := NextStepsAsWritten(c, [], cwdName);
    assert steps == StepsShown(c, [], cwdName, c.projectName);
    var k :| 0 <= k < |steps| && steps[k].kind == Run(Slug(c.projectName));
    assert steps[k].kind == Run(".");
  }

  /** The steps with the slug of the name the project was generated under
      (the current directory's name when it is being initialised). */
  function NextSteps(c: ProjectConfig, projectPath: Path, projectName: string): seq<Step>
  {
    StepsShown(c, projectPath, projectName, projectName)
  }

  /** The run step names the project's own console script, never "." for a
      real project name. */
  lemma NextStepsRunProjectSlug(c: ProjectConfig, projectPath: Path, projectName: string)
    requires projectName != "."
    ensures forall k :: 0 <= k < |NextSteps(c, projectPath, projectName)|
                        && NextSteps(c, projectPath, projectName)[k].kind.Run? ==>
              NextSteps(c, projectPath, projectName)[k].kind.command == Slug(projectName)
              && Slug(projectName) != "."
  {
    SlugIsDotOnlyForDot(projectName);
    StepsRun(c, projectPath, projectName, projectName);
  }
}
