/** The project generator: creates the project directory, renders the
    templates into it, sets up Tailwind CSS when chosen, and removes a
    partially created project when generation fails. */
module Generator {
  import opened Config
  import opened Results
  import opened Files
  import opened GeneratorRules

  // ---------------------------------------------------------------------------
  // Tailwind CSS files and package.json build scripts
  // ---------------------------------------------------------------------------

  const PackageJson: string := "package.json"
  const TailwindConfigJs: string := "tailwind.config.js"
  const TailwindCssEntry: Path := ["src", "assets", "tailwind.css"]

  /** The content of the Tailwind entry stylesheet. */
  const TailwindCssImport: string := "@import \"tailwindcss\";\n"

  /** The content of `tailwind.config.js`. */
  const TailwindConfigSource: string :=
    "/** @type {import('tailwindcss').Config} */\n"
    + "module.exports = {\n"
    + "  content: [\n"
    + "    \"./src/**/*.{py,html,js}\",\n"
    + "    \"./src/**/*.py\",\n"
    + "  ],\n"
    + "  theme: {\n"
    + "    extend: {},\n"
    + "  },\n"
    + "  plugins: [],\n"
    + "}\n"

  const Scripts: string := "scripts"
  const BuildCssScript: string := "build:css"
  const BuildCssProdScript: string := "build:css:prod"
  const BuildCssCommand: string :=
    "tailwindcss -i ./src/assets/tailwind.css -o ./src/assets/tailwind-output.css --watch"
  const BuildCssProdCommand: string :=
    "tailwindcss -i ./src/assets/tailwind.css -o ./src/assets/tailwind-output.css --minify"

  /** The scripts a package.json object already has. */
  function ScriptsOf(fields: map<string, Json>): map<string, Json>
  {
    if Scripts in fields && fields[Scripts].JObject? then fields[Scripts].fields else map[]
  }

  /** The package.json document with the two build scripts set: `scripts` is
      added when missing, both entries are set, everything else is kept.
      `None` when the update raises: the document is not an object, or its
      `scripts` entry is not one. */
  function AddBuildScripts(doc: Json): (r: Option<Json>)
    ensures r.Some? <==> doc.JObject? && (Scripts !in doc.fields || doc.fields[Scripts].JObject?)
    ensures r.Some? ==>
              && r.value.JObject?
              && r.value.fields.Keys == doc.fields.Keys + {Scripts}
              && (forall k :: k in doc.fields && k != Scripts ==> r.value.fields[k] == doc.fields[k])
    ensures r.Some? ==>
              var s := r.value.fields[Scripts];
              && s.JObject?
              && s.fields.Keys == ScriptsOf(doc.fields).Keys + {BuildCssScript, BuildCssProdScript}
              && s.fields[BuildCssScript] == JString(BuildCssCommand)
              && s.fields[BuildCssProdScript] == JString(BuildCssProdCommand)
              && (forall k :: k in ScriptsOf(doc.fields) && k != BuildCssScript && k != BuildCssProdScript ==>
                                s.fields[k] == ScriptsOf(doc.fields)[k])
  {
    if doc.JObject? && (Scripts !in doc.fields || doc.fields[Scripts].JObject?) then
      var scripts := ScriptsOf(doc.fields)[BuildCssScript := JString(BuildCssCommand)]
                                          [BuildCssProdScript := JString(BuildCssProdCommand)];
      Some(JObject(doc.fields[Scripts := JObject(scripts)]))
    else None
  }

  /** Setting the build scripts a second time changes nothing. */
  lemma AddBuildScriptsIdempotent(doc: Json)
    requires AddBuildScripts(doc).Some?
    ensures AddBuildScripts(AddBuildScripts(doc).value) == AddBuildScripts(doc)
  {
    var once := AddBuildScripts(doc).value;
    var s := once.fields[Scripts].fields;
    assert s[BuildCssScript := JString(BuildCssCommand)][BuildCssProdScript := JString(BuildCssProdCommand)] == s;
    assert once.fields[Scripts := JObject(s)] == once.fields;
  }

  /** The package.json update of `_setup_tailwind_css`, step by step:
      `setdefault("scripts", {})` and the two item assignments; `None` when
      one of them raises. */
  method UpdatePackageJson(doc: Json) returns (r: Option<Json>)
    ensures r == AddBuildScripts(doc)
  {
    if !doc.JObject? {
      // setdefault on a non-object raises
      return None;
    }
    var fields := doc.fields;
    if Scripts !in fields {
      fields := fields[Scripts := JObject(map[])];
    }
    if !fields[Scripts].JObject? {
      // item assignment on a non-object raises
      return None;
    }
    var scripts := fields[Scripts].fields;
    assert scripts == ScriptsOf(doc.fields);
    scripts := scripts[BuildCssScript := JString(BuildCssCommand)];
    scripts := scripts[BuildCssProdScript := JString(BuildCssProdCommand)];
    fields := fields[Scripts := JObject(scripts)];
    assert fields == doc.fields[Scripts := JObject(scripts)];
    return Some(JObject(fields));
  }

  /** What the npm subprocesses do, seen from the generator: whether `npm init
      -y` succeeds and the package.json it writes, and whether the install and
      the production build succeed (a missing npm counts as a failure). */
  datatype Npm = Npm(initWorks: bool, initDoc: Json, installWorks: bool, buildWorks: bool)

  /** How the Tailwind set-up ends; every failure is reported as a warning and
      generation goes on. */
  datatype TailwindSetup = NotChosen | Configured | Warned

  /** The project's package.json. */
  function PackagePath(projectPath: Path): Path
  {
    projectPath + [PackageJson]
  }

  /** What reading package.json finds once `npm init` has run when it had to:
      the file's content, or `None` when the path is a directory or `npm init`
      failed. */
  function PackageRead(npm: Npm, projectPath: Path, dirs: set<Path>,
                       files: map<Path, Content>): Option<Content>
  {
    var pkg := PackagePath(projectPath);
    if pkg in files then Some(files[pkg])
    else if pkg !in dirs && npm.initWorks then Some(JsonDoc(npm.initDoc))
    else None
  }

  /** The set-up gets as far as the npm install and it succeeds: Tailwind was
      chosen, package.json exists or `npm init` made it, and the install
      worked. */
  predicate InstallDone(c: ProjectConfig, npm: Npm, projectPath: Path, dirs: set<Path>,
                        files: map<Path, Content>)
  {
    var pkg := PackagePath(projectPath);
    Tailwind in c.styling && (pkg in dirs || pkg in files || npm.initWorks) && npm.installWorks
  }

  /** package.json, as read after the install, takes the build scripts. */
  predicate ScriptsAdded(npm: Npm, projectPath: Path, dirs: set<Path>, files: map<Path, Content>)
  {
    var read := PackageRead(npm, projectPath, dirs, files);
    read.Some? && read.value.JsonDoc? && AddBuildScripts(read.value.doc).Some?
  }

  /** How `_setup_tailwind_css` ends from a given state. */
  function TailwindResult(c: ProjectConfig, npm: Npm, projectPath: Path, dirs: set<Path>,
                          files: map<Path, Content>): TailwindSetup
  {
    if Tailwind !in c.styling then NotChosen
    else if InstallDone(c, npm, projectPath, dirs, files)
            && ScriptsAdded(npm, projectPath, dirs, files) && npm.buildWorks
    then Configured
    else Warned
  }

  /** The directories after the set-up: `src/assets` once the install is done. */
  function TailwindDirs(c: ProjectConfig, npm: Npm, projectPath: Path, dirs: set<Path>,
                        files: map<Path, Content>): set<Path>
  {
    if InstallDone(c, npm, projectPath, dirs, files)
    then dirs + Ancestors(projectPath + ["src", "assets"])
    else dirs
  }

  /** The files after the set-up, step by step: package.json from `npm init`
      when there was none, then (once the install is done) the entry
      stylesheet and `tailwind.config.js`, then package.json with the build
      scripts when it takes them. A failed production build undoes nothing. */
  function TailwindFiles(c: ProjectConfig, npm: Npm, projectPath: Path, dirs: set<Path>,
                         files: map<Path, Content>): map<Path, Content>
  {
    var pkg := PackagePath(projectPath);
    if Tailwind !in c.styling || (pkg !in dirs && pkg !in files && !npm.initWorks) then files
    else
      var initialised := if pkg in dirs || pkg in files then files
                         else files[pkg := JsonDoc(npm.initDoc)];
      if !npm.installWorks then initialised
      else
        var assets := initialised[projectPath + TailwindCssEntry := Text(TailwindCssImport)]
                                 [projectPath + [TailwindConfigJs] := Text(TailwindConfigSource)];
        if ScriptsAdded(npm, projectPath, dirs, files)
        then
          var read := PackageRead(npm, projectPath, dirs, files);
          assets[pkg := JsonDoc(AddBuildScripts(read.value.doc).value)]
        else assets
  }

  /** The three paths the set-up writes are distinct. */
  lemma TailwindPathsDistinct(projectPath: Path)
    ensures PackagePath(projectPath) != projectPath + TailwindCssEntry
    ensures PackagePath(projectPath) != projectPath + [TailwindConfigJs]
    ensures projectPath + TailwindCssEntry != projectPath + [TailwindConfigJs]
  {
    var pkg, css, configJs := PackagePath(projectPath), projectPath + TailwindCssEntry,
                              projectPath + [TailwindConfigJs];
    assert |pkg| != |css| && |css| != |configJs|;
    assert pkg[|pkg| - 1] != configJs[|configJs| - 1];
  }

  /** Without Tailwind nothing changes. */
  lemma TailwindNotChosen(c: ProjectConfig, npm: Npm, projectPath: Path, dirs: set<Path>,
                          files: map<Path, Content>)
    requires Tailwind !in c.styling
    ensures TailwindResult(c, npm, projectPath, dirs, files) == NotChosen
    ensures TailwindFiles(c, npm, projectPath, dirs, files) == files
    ensures TailwindDirs(c, npm, projectPath, dirs, files) == dirs
  {
  }

  /** A failed `npm init` stops the set-up before anything is written. */
  lemma TailwindInitFailed(c: ProjectConfig, npm: Npm, projectPath: Path, dirs: set<Path>,
                           files: map<Path, Content>)
    requires Tailwind in c.styling && !npm.initWorks
    requires PackagePath(projectPath) !in dirs && PackagePath(projectPath) !in files
    ensures TailwindResult(c, npm, projectPath, dirs, files) == Warned
    ensures TailwindFiles(c, npm, projectPath, dirs, files) == files
    ensures TailwindDirs(c, npm, projectPath, dirs, files) == dirs
  {
  }

  /** Once the install is done, the entry stylesheet and `tailwind.config.js`
      hold their contents and `src/assets` exists, whatever happens after
      (an unreadable package.json, a failed build). */
  lemma TailwindAssetsWritten(c: ProjectConfig, npm: Npm, projectPath: Path, dirs: set<Path>,
                              files: map<Path, Content>)
    requires InstallDone(c, npm, projectPath, dirs, files)
    ensures var fs' := TailwindFiles(c, npm, projectPath, dirs, files);
            && projectPath + TailwindCssEntry in fs'
            && fs'[projectPath + TailwindCssEntry] == Text(TailwindCssImport)
            && projectPath + [TailwindConfigJs] in fs'
            && fs'[projectPath + [TailwindConfigJs]] == Text(TailwindConfigSource)
    ensures projectPath + ["src", "assets"] in TailwindDirs(c, npm, projectPath, dirs, files)
  {
    TailwindPathsDistinct(projectPath);
  }

  /** When package.json takes the build scripts, it holds them afterwards,
      whether or not the production build then succeeds. */
  lemma TailwindScriptsWritten(c: ProjectConfig, npm: Npm, projectPath: Path, dirs: set<Path>,
                               files: map<Path, Content>)
    requires InstallDone(c, npm, projectPath, dirs, files)
    requires ScriptsAdded(npm, projectPath, dirs, files)
    ensures var fs' := TailwindFiles(c, npm, projectPath, dirs, files);
            var read := PackageRead(npm, projectPath, dirs, files);
            && PackagePath(projectPath) in fs'
            && fs'[PackagePath(projectPath)] == JsonDoc(AddBuildScripts(read.value.doc).value)
    ensures TailwindResult(c, npm, projectPath, dirs, files) == if npm.buildWorks then Configured
                                                              else Warned
  {
  }

  /** A configured set-up changes exactly three files: the entry stylesheet,
      `tailwind.config.js` and package.json with the build scripts (a
      package.json from `npm init` is overwritten). */
  lemma TailwindConfiguredFiles(c: ProjectConfig, npm: Npm, projectPath: Path, dirs: set<Path>,
                                files: map<Path, Content>)
    requires TailwindResult(c, npm, projectPath, dirs, files) == Configured
    ensures var read := PackageRead(npm, projectPath, dirs, files);
            TailwindFiles(c, npm, projectPath, dirs, files) ==
              files[projectPath + TailwindCssEntry := Text(TailwindCssImport)]
                   [projectPath + [TailwindConfigJs] := Text(TailwindConfigSource)]
                   [PackagePath(projectPath) := JsonDoc(AddBuildScripts(read.value.doc).value)]
  {
    var pkg := PackagePath(projectPath);
    TailwindPathsDistinct(projectPath);
    if pkg !in dirs && pkg !in files {
      var read := PackageRead(npm, projectPath, dirs, files);
      MapUpdateHidden(files, pkg, projectPath + TailwindCssEntry, projectPath + [TailwindConfigJs],
                      JsonDoc(npm.initDoc), Text(TailwindCssImport), Text(TailwindConfigSource),
                      JsonDoc(AddBuildScripts(read.value.doc).value));
    }
  }

  /** Every other file is left as it was: the set-up never touches a file
      but its own three. */
  lemma TailwindFilesElsewhere(c: ProjectConfig, npm: Npm, projectPath: Path, dirs: set<Path>,
                               files: map<Path, Content>, p: Path)
    requires p != PackagePath(projectPath) && p != projectPath + TailwindCssEntry
    requires p != projectPath + [TailwindConfigJs]
    ensures p in TailwindFiles(c, npm, projectPath, dirs, files) <==> p in files
    ensures p in files ==> TailwindFiles(c, npm, projectPath, dirs, files)[p] == files[p]
  {
  }

  // ---------------------------------------------------------------------------
  // The generator
  // ---------------------------------------------------------------------------

  /** After the templates and the Tailwind set-up, every template that was
      rendered still has its output file, unless that file is one of the
      three the set-up writes. */
  lemma GeneratedOutputKept(roots: seq<Template>, types: seq<Template>, c: ProjectConfig,
                            projectPath: Path, j: Jinja, npm: Npm, dirs: set<Path>,
                            files: map<Path, Content>, t: Template)
    requires (t in roots || t in types) && Writes(c, t, j)
    requires var p := OutputPath(projectPath, t);
             p != PackagePath(projectPath) && p != projectPath + TailwindCssEntry
             && p != projectPath + [TailwindConfigJs]
    ensures OutputPath(projectPath, t) in
              TailwindFiles(c, npm, projectPath, dirs,
                            files + Written(roots, c, projectPath, j) + Written(types, c, projectPath, j))
  {
    if t in types {
      var k :| 0 <= k < |types| && types[k] == t;
      WrittenComplete(types, c, projectPath, j, k);
    } else {
      var k :| 0 <= k < |roots| && roots[k] == t;
      WrittenComplete(roots, c, projectPath, j, k);
    }
    TailwindFilesElsewhere(c, npm, projectPath, dirs,
                           files + Written(roots, c, projectPath, j) + Written(types, c, projectPath, j),
                           OutputPath(projectPath, t));
  }

  /** The root templates of `templates/`, by file name. */
  function RootTemplates(names: seq<string>): (ts: seq<Template>)
    ensures |ts| == |names|
    ensures forall k :: 0 <= k < |ts| ==> ts[k] == RootTemplate(names[k])
  {
    MapSeq(names, RootTemplate)
  }

  class ProjectGenerator {
    var projectName: string
    /** Where the project is generated; `[]` is the current directory. */
    var projectPath: Path
    const templateType: string

    constructor(projectName: string, templateType: string)
      ensures this.projectName == projectName && this.templateType == templateType
      ensures projectPath == []
    {
      this.projectName := projectName;
      this.templateType := templateType;
      projectPath := [];
    }

    /** `_create_project_dirs`: the current directory under its own name for
        ".", otherwise a new directory that must not exist yet; then
        `src/pages` inside it. */
    method CreateProjectDirs(fs: FileSystem, cwdName: string) returns (s: Status)
      requires fs.Valid()
      modifies this, fs
      ensures fs.Valid()
      ensures old(projectName) == "." ==>
                && s == Success && projectName == cwdName && projectPath == []
                && fs.dirs == old(fs.dirs) + Ancestors(["src", "pages"])
                && fs.files == old(fs.files)
      ensures old(projectName) == "" ==>
                s == Failure(NoSuchPath) && unchanged(this) && unchanged(fs)
      ensures old(projectName) != "." && old(fs.NameExists(projectName)) ==>
                s == Failure(FileExists(old(projectName))) && unchanged(this) && unchanged(fs)
      ensures old(projectName) != "." && !old(fs.NameExists(projectName)) && old(projectName) != "" ==>
                && s == Success && projectName == old(projectName) && projectPath == [projectName]
                && fs.dirs == old(fs.dirs) + Ancestors([projectName, "src", "pages"])
                && fs.files == old(fs.files)
      ensures s.Success? ==> projectPath in fs.dirs && projectPath + ["src", "pages"] in fs.dirs
    {
      if projectName == "." {
        projectName := cwdName;
        projectPath := [];
      } else {
        if fs.NameExists(projectName) {
          return Failure(FileExists(projectName));
        }
        if projectName == "" {
          // os.makedirs("") raises FileNotFoundError
          return Failure(NoSuchPath);
        }
        fs.MakeDirs([projectName]);
        projectPath := [projectName];
      }
      fs.MakeDirs(projectPath + ["src", "pages"]);
      assert projectPath == [] ==> projectPath + ["src", "pages"] == ["src", "pages"];
      assert projectPath == [projectName] ==>
               projectPath + ["src", "pages"] == [projectName, "src", "pages"];
      assert projectPath + ["src", "pages"] in Ancestors(projectPath + ["src", "pages"]);
      assert projectPath == [] || projectPath == (projectPath + ["src", "pages"])[..1];
      assert Ancestors(projectPath) <= Ancestors(projectPath + ["src", "pages"]) by {
        forall q | q in Ancestors(projectPath)
          ensures q in Ancestors(projectPath + ["src", "pages"])
        {
          assert q == (projectPath + ["src", "pages"])[..|q|];
        }
      }
      s := Success;
    }

    /** `_process_template_file`: load the template (by its relative path, then
        by its bare name), skip declined pre-commit configuration, render it
        and write it under its output name into its target directory. */
    method ProcessTemplateFile(t: Template, config: ProjectConfig, j: Jinja, fs: FileSystem)
      returns (s: Status)
      requires fs.Valid() && projectPath in fs.dirs
      modifies fs
      ensures fs.Valid() && projectPath in fs.dirs
      ensures s.Failure? <==> Raises(config, t, j)
      ensures s.Failure? ==> s.error == RenderFailed(Key(t))
      ensures !Produces(config, t, j) ==> unchanged(fs)
      ensures Produces(config, t, j) ==>
                && fs.files == old(fs.files)[OutputPath(projectPath, t) := Rendered(config, t, j)]
                && fs.dirs == old(fs.dirs) + Ancestors(TargetDir(projectPath, t))
      ensures fs.DirsOutside(projectPath) == old(fs.DirsOutside(projectPath))
      ensures fs.FilesOutside(projectPath) == old(fs.FilesOutside(projectPath))
    {
      var name: Path;
      if j.loads(Key(t)) {
        name := Key(t);
      } else if j.loads([t.name]) {
        name := [t.name];
      } else {
        return Failure(RenderFailed(Key(t)));
      }
      if SkipsPreCommit(config, t.name) {
        return Success;
      }
      var rendered := j.render(name, config);
      if rendered.None? {
        return Failure(RenderFailed(Key(t)));
      }
      assert name == Loaded(t, j).value;
      OutputPathPlace(projectPath, t);
      WriteInto(TargetDir(projectPath, t), OutputPath(projectPath, t), Text(rendered.value), fs);
      s := Success;
    }

    /** `target_dir.mkdir(parents=True, exist_ok=True)` for a directory inside
        the project, then writing one file into it. */
    method WriteInto(target: Path, file: Path, content: Content, fs: FileSystem)
      requires fs.Valid() && projectPath in fs.dirs
      requires IsPrefix(projectPath, target) && IsPrefix(projectPath, file)
      requires file != [] && Parent(file) == target
      modifies fs
      ensures fs.Valid() && projectPath in fs.dirs
      ensures fs.files == old(fs.files)[file := content]
      ensures fs.dirs == old(fs.dirs) + Ancestors(target)
      ensures fs.DirsOutside(projectPath) == old(fs.DirsOutside(projectPath))
      ensures fs.FilesOutside(projectPath) == old(fs.FilesOutside(projectPath))
    {
      fs.AncestorsInside(projectPath, target);
      ghost var dirs0, files0 := fs.dirs, fs.files;
      fs.MakeDirs(target);
      OutsideDirsGrow(dirs0, Ancestors(target), projectPath);
      assert target == [] || target in Ancestors(target);
      fs.WriteFile(file, content);
      OutsideFilesWrite(files0, file, content, projectPath);
    }

    /** The body of `_generate_files`' loops: a template is processed when it
        is selected, and otherwise passed over. */
    method ProcessIfSelected(t: Template, config: ProjectConfig, j: Jinja, fs: FileSystem)
      returns (s: Status)
      requires fs.Valid() && projectPath in fs.dirs
      modifies fs
      ensures fs.Valid() && projectPath in fs.dirs
      ensures s.Failure? <==> Fails(config, t, j)
      ensures s.Failure? ==> s == Failure(RenderFailed(Key(t))) && unchanged(fs)
      ensures s.Success? ==>
                && fs.files == old(fs.files) + Written([t], config, projectPath, j)
                && fs.dirs == old(fs.dirs) + MadeDirs([t], config, projectPath, j)
      ensures fs.DirsOutside(projectPath) == old(fs.DirsOutside(projectPath))
      ensures fs.FilesOutside(projectPath) == old(fs.FilesOutside(projectPath))
    {
      WrittenOne(t, config, projectPath, j);
      ghost var files0, dirs0 := fs.files, fs.dirs;
      if !Selected(t.name) {
        assert files0 + map[] == files0 && dirs0 + {} == dirs0;
        return Success;
      }
      s := ProcessTemplateFile(t, config, j, fs);
      if Produces(config, t, j) {
        assert files0 + map[OutputPath(projectPath, t) := Rendered(config, t, j)]
               == files0[OutputPath(projectPath, t) := Rendered(config, t, j)];
      } else {
        assert files0 + map[] == files0 && dirs0 + {} == dirs0;
      }
    }

    /** One of `_generate_files`' loops: every selected template is processed
        in turn, stopping at the first one that raises. */
    method ProcessTemplates(ts: seq<Template>, config: ProjectConfig, j: Jinja, fs: FileSystem)
      returns (s: Status)
      requires fs.Valid() && projectPath in fs.dirs
      modifies fs
      ensures fs.Valid() && projectPath in fs.dirs
      ensures var i := FirstFailure(ts, config, j);
              && s == (if i < |ts| then Failure(RenderFailed(Key(ts[i]))) else Success)
              && fs.files == old(fs.files) + Written(ts[..i], config, projectPath, j)
              && fs.dirs == old(fs.dirs) + MadeDirs(ts[..i], config, projectPath, j)
      ensures fs.DirsOutside(projectPath) == old(fs.DirsOutside(projectPath))
      ensures fs.FilesOutside(projectPath) == old(fs.FilesOutside(projectPath))
    {
      var i := 0;
      assert ts[..0] == [];
      while i < |ts|
        invariant 0 <= i <= |ts|
        invariant fs.Valid() && projectPath in fs.dirs
        invariant NoFailureBefore(ts, config, j, i)
        invariant fs.files == old(fs.files) + Written(ts[..i], config, projectPath, j)
        invariant fs.dirs == old(fs.dirs) + MadeDirs(ts[..i], config, projectPath, j)
        invariant fs.DirsOutside(projectPath) == old(fs.DirsOutside(projectPath))
        invariant fs.FilesOutside(projectPath) == old(fs.FilesOutside(projectPath))
      {
        s := ProcessIfSelected(ts[i], config, j, fs);
        if s.Failure? {
          FirstFailureAt(ts, config, j, i);
          return;
        }
        WrittenExtend(ts, i, config, projectPath, j, old(fs.files), old(fs.dirs));
        NoFailureStep(ts, config, j, i);
        i := i + 1;
      }
      FirstFailureAt(ts, config, j, |ts|);
      assert ts[..|ts|] == ts;
      s := Success;
    }

    /** `_generate_files`: the root templates of `templates/` (by name), then
        the templates of `templates/<type>/` (with their sub-directories). */
    method GenerateFiles(rootNames: seq<string>, typeTemplates: seq<Template>,
                         config: ProjectConfig, j: Jinja, fs: FileSystem)
      returns (s: Status)
      requires forall k :: 0 <= k < |typeTemplates| ==> !typeTemplates[k].isRoot
      requires fs.Valid() && projectPath in fs.dirs
      modifies fs
      ensures fs.Valid() && projectPath in fs.dirs
      ensures var roots := RootTemplates(rootNames);
              var r := FirstFailure(roots, config, j);
              var y := FirstFailure(typeTemplates, config, j);
              && (r < |roots| ==>
                    && s == Failure(RenderFailed(Key(roots[r])))
                    && fs.files == old(fs.files) + Written(roots[..r], config, projectPath, j)
                    && fs.dirs == old(fs.dirs) + MadeDirs(roots[..r], config, projectPath, j))
              && (r == |roots| ==>
                    && s == (if y < |typeTemplates| then Failure(RenderFailed(Key(typeTemplates[y])))
                             else Success)
                    && fs.files == old(fs.files) + Written(roots, config, projectPath, j)
                                   + Written(typeTemplates[..y], config, projectPath, j)
                    && fs.dirs == old(fs.dirs) + MadeDirs(roots, config, projectPath, j)
                                  + MadeDirs(typeTemplates[..y], config, projectPath, j))
      ensures fs.DirsOutside(projectPath) == old(fs.DirsOutside(projectPath))
      ensures fs.FilesOutside(projectPath) == old(fs.FilesOutside(projectPath))
    {
      var roots := RootTemplates(rootNames);
      s := ProcessTemplates(roots, config, j, fs);
      if s.Failure? {
        return;
      }
      assert roots[..|roots|] == roots;
      s := ProcessTemplates(typeTemplates, config, j, fs);
    }

    /** `_setup_tailwind_css`: nothing unless Tailwind was chosen; otherwise
        npm init (when there is no package.json), the npm install, the entry
        stylesheet, `tailwind.config.js`, the build scripts in package.json and
        the production build. Any failure stops the set-up with a warning. */
    method SetupTailwindCss(config: ProjectConfig, npm: Npm, fs: FileSystem)
      returns (outcome: TailwindSetup)
      requires fs.Valid() && projectPath in fs.dirs
      modifies fs
      ensures fs.Valid() && projectPath in fs.dirs
      ensures outcome == TailwindResult(config, npm, projectPath, old(fs.dirs), old(fs.files))
      ensures fs.files == TailwindFiles(config, npm, projectPath, old(fs.dirs), old(fs.files))
      ensures fs.dirs == TailwindDirs(config, npm, projectPath, old(fs.dirs), old(fs.files))
      ensures old(fs.dirs) <= fs.dirs
      ensures outcome == NotChosen <==> Tailwind !in config.styling
      ensures outcome == NotChosen ==> unchanged(fs)
      ensures !old(fs.Exists(PackagePath(projectPath))) && !npm.initWorks ==>
                outcome != Configured && fs.files == old(fs.files)
      ensures outcome == Configured <==>
                && Tailwind in config.styling && npm.installWorks && npm.buildWorks
                && ScriptsAdded(npm, projectPath, old(fs.dirs), old(fs.files))
      ensures outcome == Configured ==>
                fs.files == old(fs.files)
                  [projectPath + TailwindCssEntry := Text(TailwindCssImport)]
                  [projectPath + [TailwindConfigJs] := Text(TailwindConfigSource)]
                  [PackagePath(projectPath) :=
                     JsonDoc(AddBuildScripts(PackageRead(npm, projectPath, old(fs.dirs),
                                                         old(fs.files)).value.doc).value)]
      ensures fs.DirsOutside(projectPath) == old(fs.DirsOutside(projectPath))
      ensures fs.FilesOutside(projectPath) == old(fs.FilesOutside(projectPath))
    {
      ghost var dirs0, files0 := fs.dirs, fs.files;
      if Tailwind !in config.styling {
        return NotChosen;
      }
      if TailwindResult(config, npm, projectPath, dirs0, files0) == Configured {
        TailwindConfiguredFiles(config, npm, projectPath, dirs0, files0);
      }
      ghost var read := PackageRead(npm, projectPath, dirs0, files0);
      var pkg := PackagePath(projectPath);
      TailwindPathsDistinct(projectPath);
      assert Parent(pkg) == projectPath && IsPrefix(projectPath, pkg);
      if !fs.Exists(pkg) {
        if !npm.initWorks {
          return Warned;
        }
        fs.WriteFile(pkg, JsonDoc(npm.initDoc));
        OutsideFilesWrite(files0, pkg, JsonDoc(npm.initDoc), projectPath);
      }
      ghost var files1 := fs.files;
      assert read == (if pkg in files1 then Some(files1[pkg]) else None);
      if !npm.installWorks {
        return Warned;
      }
      WriteTailwindFiles(fs);
      assert pkg in fs.files <==> pkg in files1;
      assert pkg in files1 ==> fs.files[pkg] == files1[pkg];
      if pkg !in fs.files || !fs.files[pkg].JsonDoc? {
        // package.json is a directory or does not parse as JSON
        return Warned;
      }
      var updated := UpdatePackageJson(fs.files[pkg].doc);
      if updated.None? {
        return Warned;
      }
      ghost var files2 := fs.files;
      fs.WriteFile(pkg, JsonDoc(updated.value));
      OutsideFilesWrite(files2, pkg, JsonDoc(updated.value), projectPath);
      if !npm.buildWorks {
        return Warned;
      }
      return Configured;
    }

    /** The two files the Tailwind set-up writes: the entry stylesheet under
        `src/assets/` and `tailwind.config.js` at the project root. */
    method WriteTailwindFiles(fs: FileSystem)
      requires fs.Valid() && projectPath in fs.dirs
      modifies fs
      ensures fs.Valid() && projectPath in fs.dirs
      ensures fs.files == old(fs.files)[projectPath + TailwindCssEntry := Text(TailwindCssImport)]
                                       [projectPath + [TailwindConfigJs] := Text(TailwindConfigSource)]
      ensures fs.dirs == old(fs.dirs) + Ancestors(projectPath + ["src", "assets"])
      ensures fs.DirsOutside(projectPath) == old(fs.DirsOutside(projectPath))
      ensures fs.FilesOutside(projectPath) == old(fs.FilesOutside(projectPath))
    {
      var assets := projectPath + ["src", "assets"];
      var css := projectPath + TailwindCssEntry;
      var configJs := projectPath + [TailwindConfigJs];
      assert Parent(css) == assets && IsPrefix(projectPath, css) && IsPrefix(projectPath, assets);
      assert Parent(configJs) == projectPath && IsPrefix(projectPath, configJs);
      fs.AncestorsInside(projectPath, assets);
      ghost var dirs0, files0 := fs.dirs, fs.files;
      fs.MakeDirs(assets);
      OutsideDirsGrow(dirs0, Ancestors(assets), projectPath);
      fs.WriteFile(css, Text(TailwindCssImport));
      fs.WriteFile(configJs, Text(TailwindConfigSource));
      OutsideFilesWrite(files0, css, Text(TailwindCssImport), projectPath);
      OutsideFilesWrite(files0[css := Text(TailwindCssImport)], configJs,
                        Text(TailwindConfigSource), projectPath);
    }

    /** `_cleanup_on_error`: remove the project directory, unless the current
        directory was being initialised or nothing was created. */
    method CleanupOnError(fs: FileSystem) returns (removed: bool)
      requires fs.Valid()
      modifies fs
      ensures fs.Valid()
      ensures removed <==> projectPath != [] && old(fs.Exists(projectPath))
      ensures removed ==> fs.dirs == old(fs.DirsOutside(projectPath))
                          && fs.files == old(fs.FilesOutside(projectPath))
                          && !fs.Exists(projectPath)
      ensures !removed ==> unchanged(fs)
    {
      removed := projectPath != [] && fs.Exists(projectPath);
      if removed {
        fs.RemoveTree(projectPath);
      }
    }

    /** `generate_project`: create the directories, generate the files, set up
        Tailwind CSS; on an error remove what was created. On success the
        next steps are returned (the uv set-up and the executable bits are not
        modelled). */
    method GenerateProject(config: ProjectConfig, cwdName: string, rootNames: seq<string>,
                           typeTemplates: seq<Template>, j: Jinja, npm: Npm, fs: FileSystem)
      returns (r: Result<seq<Step>>)
      requires forall k :: 0 <= k < |typeTemplates| ==> !typeTemplates[k].isRoot
      requires fs.Valid()
      modifies this, fs
      ensures fs.Valid()
      ensures old(projectPath) == [] && old(projectName) != "."
              && (old(projectName) == "" || old(fs.NameExists(projectName))) ==>
                r.Err? && unchanged(fs)
      ensures r.Ok? <==>
                && (old(projectName) == "." || (old(projectName) != "" && !old(fs.NameExists(projectName))))
                && FirstFailure(RootTemplates(rootNames), config, j) == |rootNames|
                && FirstFailure(typeTemplates, config, j) == |typeTemplates|
      ensures r.Ok? ==>
                && projectName == (if old(projectName) == "." then cwdName else old(projectName))
                && projectPath == (if old(projectName) == "." then [] else [old(projectName)])
                && r.value == NextSteps(config, projectPath, projectName)
                && projectPath + ["src", "pages"] in fs.dirs
      ensures r.Ok? ==>
                var dirs := old(fs.dirs) + Ancestors(projectPath + ["src", "pages"])
                            + MadeDirs(RootTemplates(rootNames), config, projectPath, j)
                            + MadeDirs(typeTemplates, config, projectPath, j);
                var files := old(fs.files) + Written(RootTemplates(rootNames), config, projectPath, j)
                             + Written(typeTemplates, config, projectPath, j);
                && fs.dirs == TailwindDirs(config, npm, projectPath, dirs, files)
                && fs.files == TailwindFiles(config, npm, projectPath, dirs, files)
      ensures r.Err? && old(projectPath) == [] && old(projectName) != "." ==>
                fs.dirs == old(fs.dirs) && fs.files == old(fs.files)
      ensures r.Err? && old(projectName) == "." ==>
                var roots := RootTemplates(rootNames);
                var rf := FirstFailure(roots, config, j);
                var yf := FirstFailure(typeTemplates, config, j);
                var dirs := old(fs.dirs) + Ancestors(["src", "pages"]);
                && (rf < |roots| ==>
                      && fs.files == old(fs.files) + Written(roots[..rf], config, [], j)
                      && fs.dirs == dirs + MadeDirs(roots[..rf], config, [], j))
                && (rf == |roots| ==>
                      && fs.files == old(fs.files) + Written(roots, config, [], j)
                                     + Written(typeTemplates[..yf], config, [], j)
                      && fs.dirs == dirs + MadeDirs(roots, config, [], j)
                                    + MadeDirs(typeTemplates[..yf], config, [], j))
    {
      ghost var dirs0, files0 := fs.dirs, fs.files;
      ghost var name0 := projectName;
      if name0 != "." && name0 != "" && !fs.NameExists(name0) {
        fs.NothingInside([name0]);
      }
      var s := CreateProjectDirs(fs, cwdName);
      if s.Failure? {
        var _ := CleanupOnError(fs);
        return Err(s.error);
      }
      if name0 != "." {
        // everything just made lies inside the new project directory
        assert forall d :: d in fs.dirs && !IsPrefix(projectPath, d) ==> d in dirs0;
        assert fs.DirsOutside(projectPath) == dirs0;
        assert fs.FilesOutside(projectPath) == files0;
      }
      s := GenerateFiles(rootNames, typeTemplates, config, j, fs);
      if s.Failure? {
        var _ := CleanupOnError(fs);
        return Err(s.error);
      }
      assert typeTemplates[..|typeTemplates|] == typeTemplates;
      assert RootTemplates(rootNames)[..|rootNames|] == RootTemplates(rootNames);
      assert projectPath + ["src", "pages"] == (if name0 == "." then ["src", "pages"] else [name0, "src", "pages"]);
      var _ := SetupTailwindCss(config, npm, fs);
      return Ok(NextSteps(config, projectPath, projectName));
    }
  }
}
