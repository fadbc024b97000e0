# create-dash-app, modelled in Dafny

`create-dash-app` scaffolds a Plotly Dash project. An interactive form
collects a `ProjectConfig`. The generator then works in five steps:

1. It creates the project directory, or takes over the current directory
   when the project name is `"."`.
2. It renders every selected Jinja template of `templates/` into the project
   root, and every selected template of `templates/<type>/` under `src/`.
3. When Tailwind CSS is chosen, it adds the Tailwind files and the
   `package.json` build scripts.
4. It prints the numbered next steps.
5. When something raises, it removes the partially created project.

The model covers three parts of the package:

- the configuration record and its `validate_none` filter
  (`project_config.dfy`, module `Config`);
- the prompt's decisions (`prompts.dfy`, module `Prompts`): the e-mail
  validator, the name normalisation, the "essentially empty directory" test,
  and the choice between initialising the current directory, rejecting an
  existing project and accepting the answers;
- the project generator. Its pure rules are in `generator_rules.dfy` (module
  `GeneratorRules`): template selection, output names and target
  directories, the pre-commit skip, the files a sequence of templates writes,
  the slug and the next steps. Its stateful part is in `generator.dfy`
  (module `Generator`): the class `ProjectGenerator` with its fields
  `projectName` and `projectPath`, and its methods that change an abstract
  file system.

`filesystem.dfy` (module `Files`) models the file system. It is a class
whose directories are a set of paths and whose files are a map from path to
content. A path is a sequence of components, and `[]` is the current
directory `Path(".")`. `text.dfy` holds the ASCII string helpers, and
`results.dfy` turns the Python exceptions into values.

Jinja is a parameter. `loads` says which template names the loader finds,
and `render` gives the text or fails. Templates are looked up first by their
path relative to their directory, then by their bare name. Both lookups
search `templates/` and then `templates/<type>/`, so the result depends only
on the name asked for. The template is loaded before the pre-commit skip is
decided, so a skipped template that cannot be loaded still raises. npm is
also a parameter: whether `npm init -y`, the install and the production
build succeed, and the document that `npm init` writes.

## Model

| member | source | states |
|---|---|---|
| Text.Lower | create_dash_app/prompts.py:138 | `str.lower` keeps the length, lower-cases each ASCII letter and leaves no upper-case letter |
| Text.Replace | create_dash_app/prompts.py:138 | a one-character `str.replace` replaces every occurrence and leaves none of the old character |
| Text.HasInfixIff | create_dash_app/generator.py:155 | the substring test `"pre-commit" in name` succeeds exactly when the text occurs at some index |
| Config.DropNone | create_dash_app/models/project_config.py:46 | the comprehension removes every `"none"` and keeps every other entry with its multiplicity |
| Config.KeptIndices | create_dash_app/models/project_config.py:46 | the entries kept sit at increasing positions of the input, so their order is kept |
| Config.DropNoneKeepsClean | create_dash_app/models/project_config.py:46 | a list without `"none"` passes through the comprehension unchanged |
| Config.DropNoneOnlyNone | create_dash_app/models/project_config.py:46-50 | a list made only of `"none"` filters down to the empty list |
| Config.ValidateNone | create_dash_app/models/project_config.py:31-52 | the result never holds `"none"`; a falsy input gives `[]`; the result is a subsequence of the input; it holds every other value as often as the input does |
| Config.ValidateNoneWrapsString | create_dash_app/models/project_config.py:41-46 | a lone string is wrapped: `"tailwind"` gives `["tailwind"]`, while `"none"` and `""` give `[]` |
| Config.ValidateNoneOnlyNone | create_dash_app/models/project_config.py:48-50 | a list of nothing but `"none"` validates to `[]` |
| Config.ValidateNonePassesClean | create_dash_app/models/project_config.py:45-52 | a list without `"none"` is accepted unchanged |
| Config.ValidateNoneIdempotent | create_dash_app/models/project_config.py:33-52 | validating a validated value changes nothing |
| Config.MakeConfig | create_dash_app/models/project_config.py:9-31 | building the record runs the same validator on both `styling` and `animations`, so each is exactly `ValidateNone` of its answer: it holds no `"none"` and is a subsequence of its answer. The eleven other fields are copied one by one |
| Config.WithDefaults | create_dash_app/models/project_config.py:13-29 | the defaults: empty lists; pages, auth and database off; tests, Docker and pre-commit on; port 8000. They equal the validated record built from empty lists |
| Files.PathOf | create_dash_app/generator.py:86-98 | a single name is the current directory exactly when it is `"."` |
| Files.Ancestors | create_dash_app/generator.py:173 | `mkdir(parents=True)` makes only prefixes of the path, the path itself included |
| Files.FileSystem.MakeDirs | create_dash_app/generator.py:173 | the new directories are exactly the prefixes of the path; files are unchanged; the tree stays parent-closed |
| Files.FileSystem.WriteFile | create_dash_app/generator.py:177-179 | writing into an existing directory sets that one file and nothing else |
| Files.FileSystem.RemoveTree | create_dash_app/generator.py:470 | `shutil.rmtree` removes the path and everything inside it, and leaves everything outside it |
| Files.FileSystem.Listing | create_dash_app/prompts.py:142 | `os.listdir(".")` lists exactly the names that exist in the current directory |
| Prompts.DotFromIff | create_dash_app/prompts.py:31 | the scan for the pattern's `'.'` succeeds exactly when a suitable `'.'` exists |
| Prompts.AtFromIff | create_dash_app/prompts.py:31 | the scan for the pattern's `'@'` succeeds exactly when a shortest match exists from that point on |
| Prompts.WitnessIffRegexSearch | create_dash_app/prompts.py:31 | a shortest match (one character, `'@'`, a run without `'@'`, `'.'`, one character) exists exactly when the regular expression finds a match anywhere |
| Prompts.ValidateEmail | create_dash_app/prompts.py:29-31 | true exactly when `re.search(r"[^@]+@[^@]+\.[^@]+", email)` matches, and false for `""` |
| Prompts.AcceptedEmailShape | create_dash_app/prompts.py:31 | an accepted address has at least five characters, an `'@'`, and a `'.'` after it |
| Prompts.AcceptedEmailExtends | create_dash_app/prompts.py:31 | because the test is a search, adding any prefix or suffix to an accepted address keeps it accepted |
| Prompts.NormalizeName | create_dash_app/prompts.py:137-138 | the length is kept; each character is lower-cased, with `'-'` and `' '` becoming `'_'`; no `'-'`, `' '` or upper-case letter remains |
| Prompts.NormalizeNameIdempotent | create_dash_app/prompts.py:137-138 | normalising twice equals normalising once |
| Prompts.EssentiallyEmpty | create_dash_app/prompts.py:142-146 | the `discard`-based test holds exactly when the listing has nothing besides `.venv` and `.git`, or has `.git` plus exactly one other entry |
| Prompts.SingleOutsideIgnored | create_dash_app/prompts.py:143-146 | after `.venv` and `.git` are discarded, the set is empty or has exactly one element exactly when the listing has, respectively, nothing or exactly one entry besides those two |
| Prompts.CollectProjectConfig | create_dash_app/prompts.py:133-169 | accepting initialisation of a matching, essentially empty directory gives the name `"."`. Otherwise an existing name other than `"."` raises `FileExistsError`, and any other name is accepted as given. The skipped v1 flags are tests on, auth off, database off and Docker on. The lists are validated. An accepted name is `"."` or does not exist |
| GeneratorRules.Stem | create_dash_app/generator.py:176 | the stem followed by the suffix gives back the whole name |
| GeneratorRules.JinjaSuffixIff | create_dash_app/generator.py:176 | `Path.suffix == ".jinja"` exactly when the name ends in `.jinja` and is longer than that |
| GeneratorRules.SelectedIff | create_dash_app/generator.py:112 | a template is processed exactly when its name does not start with `'.'` or has the `.jinja` suffix |
| GeneratorRules.OutputNameDropsJinja | create_dash_app/generator.py:176 | the output name drops exactly one trailing `.jinja` from a template and leaves every other name unchanged |
| GeneratorRules.OutcomeCases | create_dash_app/generator.py:147-162 | processing a template writes a file or raises, never both. An unselected template does neither. A loadable, skipped pre-commit template does neither. A selected template that is not skipped does one of them |
| GeneratorRules.OutputPathPlace | create_dash_app/generator.py:164-177 | root templates go directly into the project directory. Type templates go to `src/` followed by their own sub-directory. The output file sits in that directory under its output name |
| GeneratorRules.WrittenConcat | create_dash_app/generator.py:108-121 | processing one list of templates and then another writes what the first wrote, overridden by what the second wrote |
| GeneratorRules.WrittenOne | create_dash_app/generator.py:173-179 | one written template adds its rendering at its output path and the directories above it; any other template adds nothing |
| GeneratorRules.WrittenSound | create_dash_app/generator.py:108-121 | every written file is the output path of a template that was selected and rendered |
| GeneratorRules.WrittenComplete | create_dash_app/generator.py:108-121 | every template that is selected and rendered has its output file written |
| GeneratorRules.WrittenLastWins | create_dash_app/generator.py:108-121 | a written file holds the rendering of the last template written to that path |
| GeneratorRules.FirstFailure | create_dash_app/generator.py:108-121 | the position of the first template whose processing raises: no template before it raises, and the one at it does |
| GeneratorRules.WrittenInsideProject | create_dash_app/generator.py:164-177 | every file written lies strictly inside the project directory; root templates write directly into it, and type templates write under its `src/` |
| GeneratorRules.PreCommitDeclined | create_dash_app/generator.py:154-159 | with pre-commit configuration declined, every written file is the output of a template whose lower-cased name does not contain `pre-commit` |
| GeneratorRules.PreCommitAccepted | create_dash_app/generator.py:154-179 | with pre-commit configuration accepted, every selected template that does not raise has its output written, pre-commit ones included |
| GeneratorRules.Slug | create_dash_app/generator.py:378 | the slug keeps the length; each character is lower-cased, with `' '` and `'_'` becoming `'-'`; no space, underscore or upper-case letter remains |
| GeneratorRules.SlugAgreesWithNormalizeName | create_dash_app/generator.py:378 | two names have the same slug exactly when the prompt's `normalize_name` maps them to the same name |
| GeneratorRules.SlugIsDotOnlyForDot | create_dash_app/generator.py:378 | the slug is `"."` exactly for the name `"."` |
| GeneratorRules.StepsNumbered | create_dash_app/generator.py:384-443 | the printed steps are numbered consecutively; they start at 1 when a directory was created and at 2 in the current directory |
| GeneratorRules.StepsOptional | create_dash_app/generator.py:384-446 | the navigation step appears exactly when a new directory was created. The Tailwind build step appears exactly when Tailwind is chosen. The tips mention `src/pages/` exactly when pages are included, and the resources mention the Tailwind docs exactly when Tailwind is chosen |
| GeneratorRules.StepsRun | create_dash_app/generator.py:414-442 | there is one run step. It is numbered 5 with Tailwind and 4 without, shows the slug, and is followed by the tips and the resources |
| GeneratorRules.AsWrittenSlugIsDotInCurrentDir | create_dash_app/generator.py:378 | as written, initialising the current directory makes the run step show the console script `"."` |
| GeneratorRules.NextStepsRunProjectSlug | create_dash_app/generator.py:376-424 | the corrected steps take the slug of the name the project was generated under, so the run step never shows `"."` |
| Generator.AddBuildScripts | create_dash_app/generator.py:310-322 | the update succeeds exactly when `package.json` is an object whose `scripts` entry is absent or an object. It then adds `scripts` if needed and sets exactly `build:css` (watch) and `build:css:prod` (minify); every other top-level key and every other script is unchanged |
| Generator.AddBuildScriptsIdempotent | create_dash_app/generator.py:314-322 | setting the build scripts a second time changes nothing |
| Generator.UpdatePackageJson | create_dash_app/generator.py:314-322 | the in-place `setdefault` and the two item assignments give the document described by `AddBuildScripts`, and fail exactly when it does |
| Generator.TailwindNotChosen | create_dash_app/generator.py:254-255 | without Tailwind the set-up ends as not chosen and changes no file and no directory |
| Generator.TailwindInitFailed | create_dash_app/generator.py:261-269 | with no `package.json` and a failing `npm init`, the set-up ends with a warning and nothing is written or created |
| Generator.TailwindAssetsWritten | create_dash_app/generator.py:285-308 | once the install is done, the entry stylesheet and `tailwind.config.js` hold their exact contents and `src/assets` exists, whatever fails afterwards |
| Generator.TailwindScriptsWritten | create_dash_app/generator.py:310-336 | when `package.json` takes the build scripts, it holds the updated document afterwards. The set-up is configured exactly when the production build then succeeds, and a failed build is a warning that keeps every file |
| Generator.TailwindConfiguredFiles | create_dash_app/generator.py:257-336 | a configured set-up changes exactly three files: the stylesheet, `tailwind.config.js` and `package.json` with the build scripts. A `package.json` written by `npm init` is overwritten by the updated one |
| Generator.TailwindFilesElsewhere | create_dash_app/generator.py:257-336 | the set-up leaves every other file as it was, on every path |
| Generator.GeneratedOutputKept | create_dash_app/generator.py:61-66 | after the templates and the Tailwind set-up, each rendered template still has its output file, unless that file is one of the three Tailwind files |
| Generator.RootTemplates | create_dash_app/generator.py:108-113 | each file of `templates/` becomes a root template under its own name, in order |
| Generator.ProjectGenerator.constructor | create_dash_app/generator.py:41-46 | the generator starts with the given name and template type, and with the project path `Path(".")` |
| Generator.ProjectGenerator.CreateProjectDirs | create_dash_app/generator.py:77-103 | For `"."`: the directory name becomes the project name, the path is `.`, and there is no existence check. An existing name raises `FileExistsError` before anything is created. The empty name raises `FileNotFoundError`. Otherwise the new directory becomes the project path. In every success `src/pages` exists, and nothing else is created |
| Generator.ProjectGenerator.ProcessTemplateFile | create_dash_app/generator.py:125-179 | The processing raises exactly when the template cannot be loaded under either name, or it is not skipped and does not render. A skip or an error leaves the file system unchanged. Otherwise the rendering is written to the output path, only the target directory's prefixes are created, and nothing outside the project changes |
| Generator.ProjectGenerator.ProcessIfSelected | create_dash_app/generator.py:112-113 | an unselected template is passed over. A selected one raises exactly when its processing does, and otherwise adds exactly what `WrittenOne` says |
| Generator.ProjectGenerator.ProcessTemplates | create_dash_app/generator.py:108-113 | the loop stops at the first template that raises and reports it. The files and directories are exactly those written by the templates before it, and nothing outside the project changes |
| Generator.ProjectGenerator.GenerateFiles | create_dash_app/generator.py:105-123 | the root templates are processed first and then the type templates. A failing root template stops everything. Otherwise all root outputs are written, followed by the type templates before the first failure |
| Generator.ProjectGenerator.SetupTailwindCss | create_dash_app/generator.py:242-366 | The outcome, the files and the directories on every path equal the specification functions `TailwindResult`, `TailwindFiles` and `TailwindDirs` of the old state. Those cover no Tailwind, a failed `npm init`, a failed install, an unreadable `package.json` or one that is not an object, a `scripts` entry that is not an object, a failed build, and success. Nothing happens unless Tailwind is chosen. A failed `npm init` writes nothing. The set-up is configured exactly when the install and the build succeed and the `package.json` read back can take the scripts; the three files are then exactly the ones changed. Directories only grow. Every failure is only a warning, and nothing outside the project changes |
| Generator.ProjectGenerator.WriteInto | create_dash_app/generator.py:173-179 | the target directory's prefixes are created and exactly one file is written into it; nothing outside the project changes |
| Generator.ProjectGenerator.WriteTailwindFiles | create_dash_app/generator.py:285-308 | `src/assets` is created, and the entry stylesheet and `tailwind.config.js` get their exact contents |
| Generator.ProjectGenerator.CleanupOnError | create_dash_app/generator.py:455-482 | the project directory is removed exactly when it is not the current directory and exists; otherwise nothing changes |
| Generator.ProjectGenerator.GenerateProject | create_dash_app/generator.py:61-75 | Generation succeeds exactly when the name is `"."`, or is non-empty and new, and no template raises. It then returns the next steps for the name the project got, and `src/pages` exists. A rejected name leaves the file system as it was. For a new directory, any error removes everything that was created. On success the directories and files are those the Tailwind set-up leaves, starting from the old state plus `src/pages` and the outputs of the root templates and then the type templates. In the current directory (`"."`) an error leaves in place what the templates before the failing one wrote, since cleanup removes nothing there |

## Left out

- Prompting and console output (`questionary`, `click.echo`, colours and the
  printed warnings) are not modelled. The form's answers and the
  confirmation are parameters of `CollectProjectConfig`.
- Jinja loading and rendering are not modelled. They are the parameters
  `loads` and `render`, and the model records only which name a template is
  loaded under.
- The `uv` and `npm` subprocesses are not modelled. Their success is given as
  booleans (`Npm`), and `npm init`'s document as a value. npm's own edits to
  `package.json`, `node_modules` and the generated `tailwind-output.css` are
  not part of the file system model.
- `_initialize_uv_dependencies` is not part of this model: it only runs
  `uv sync` and `uv pip install -e .` and prints warnings.
- `_make_executable_files` is not part of this model: it only prints a message.
- The order in which `iterdir` and `rglob` yield files is not modelled; the
  templates are given as sequences in the order they are processed. Which
  files `templates/` holds is also a parameter.
- JSON parsing and serialisation are not modelled. A file holds either text
  or a JSON document, and a `package.json` that does not hold a document
  counts as unparsable. That error is caught and reported as a warning.
- Path syntax is not modelled: separators, `..`, absolute paths and names
  containing `/`. The project name is a single path component.
- Operating-system errors other than the ones the code raises on purpose are
  not modelled: a directory created over a file, a file written over a
  directory, and permissions. For the same reason the generic
  `except Exception` of `generate_project` is modelled only for template and
  directory errors.
- The port's conversion from the form's text to an integer (pydantic
  coercion) is not modelled; the port is an `int` answer.
- Text.Lower: lower-cases ASCII letters only; Unicode case mapping is not modelled.
- Generator.ProjectGenerator.GenerateProject: returns the corrected next
  steps (see Findings) rather than the ones printed as written.
- `cli.py`, `__main__.py` and the Sphinx configuration are not part of this
  model.

## Findings

| source | as written | input that shows it | evidently intended | confidence | as-written member | corrected member |
|---|---|---|---|---|---|---|
| create_dash_app/generator.py:378 | the slug of the next steps is taken from `config.project_name`, which is `"."` when the current directory is initialised (prompts.py sets it at line 155); the console-script hint then reads `.` and `uv run .` | form answers with a project name equal to the current directory's name, an empty directory, and initialisation confirmed | the slug of the name the project was generated under, `self.project_name`, which `_create_project_dirs` sets to the directory name | medium, not executed | GeneratorRules.AsWrittenSlugIsDotInCurrentDir | GeneratorRules.NextStepsRunProjectSlug |
