# HyperPyText project generator, modelled in Dafny

HyperPyText is a command-line generator for HyperPy web applications. Given an
app name and a handful of answers to prompts, it creates a project folder and
its folder layout. It writes files from YAML templates, where each template is
a `filename`/`content` mapping or a list of them, some formatted with the
answers. It drives npm (or bun) to set up Vite, Tailwind CSS, Electron and
Shadcn UI, and edits `package.json`, `tsconfig*.json`, `vite.config.*` and
`tailwind.config.js` along the way.

The model covers:

- The packaged generator `main` (`src/hyperpytext/__init__.py`), its template
  helpers and its npm/bun helpers under `src/hyperpytext/utils/`.
- The older generator (`hyperpytext/__main__.py`) with the helpers under
  `utils/` and `hyperpytext/utils/`. Throughout, the variant `Current` is the
  packaged generator and `Legacy` the older one.
- The first, flat generator `create_app` in `cli.py`.

How it is modelled:

- The disk is `Fs.State`: files with their text, a set of directories, the
  working directory, and a log of outward events (a command started, a file
  written).
- The process that changes the disk is `Fs.Host`, a class whose every method is
  specified by a function on `State`: `(h.Snap(), o) == XFn(old(h.Snap()), …)`.
- Every helper and every flow follows the same pattern: a function states the
  behaviour, a method performs it step by step on a `Host`, and lemmas say what
  the function means (what ends up in which file, which commands run in which
  order, which choices gate which templates).
- `json.load`/`json.dump` are a `Codec` parameter.
- The template directory's listing is an input: a sequence of entries, in the
  order `os.listdir` returns them, each with its parsed YAML document.
- The platform string, the clock reading (`Timestamp.Moment`), and the answers
  to the prompts are inputs.

Python's `str.replace` and `str.format` are modelled in `Text`, including
`format`'s KeyError on an unknown field and its `{{`/`}}` escapes. `os.path.join`,
`dirname` and `makedirs` are modelled in `Fs`. External commands are logged and
assumed to succeed.

Neither generator can be imported as written. `src/hyperpytext/__init__.py:6-11`
imports `check_tailwind_standalone` and `setup_tailwind_standalone` from
`src/hyperpytext/utils/npm_tailwind_utils.py`, which defines neither. The
older generator at `hyperpytext/__main__.py:15` imports `check_npm_package`
from `utils/npm_utils.py`, and so does `utils/npm_vite_utils.py:5`; that module
does not define it either. Each of these raises ImportError before any prompt.
Both the packaged and the older flows therefore model the program with its
imports repaired; "## Left out" says which definition each name is bound to.

Three places where the source's pieces do not fit together change what a
flow does. The findings below give the inputs that show them, and for each the
model says which behaviour it takes:

- `cli.py` and `hyperpytext/__main__.py` call the older Tailwind helpers with
  the wrong number of arguments, which raises TypeError. The flows of
  `hyperpytext/__main__.py` are modelled as written. For `cli.py` both
  versions are modelled: `Cli.CreateAppAsWritten` raises, and the live
  command `Cli.CreateApp` runs the intended Tailwind step (`Cli.CreateAppFn`).
- `create_file` calls `os.makedirs('')` for a file name without a directory
  part, which raises FileNotFoundError (`Templates.CreateFileAsWritten`). The
  live `create_file` and every flow use the corrected version, which writes
  such a file in the working directory (`Templates.CreateFileFn`). The two
  agree on every name that has a directory part (`Templates.CreateFileAgrees`).
- In the React client flow (`src/hyperpytext/__init__.py:246,251` and
  `hyperpytext/__main__.py:230,235`), the fonts and Shadcn prompts are guarded
  by `tailwind != 'none'`, but `tailwind` is a bool there. That test is always
  true, so the prompts are always asked. The model takes the answers as inputs.

## Model

| member | source | states |
|---|---|---|
| `Json.Get` | src/hyperpytext/utils/npm_utils.py:51-52 | the value under a present key, the default under an absent one |
| `Json.SetItems` | src/hyperpytext/utils/npm_shadcnui_utils.py:17-20 | item assignment succeeds exactly on a dict (TypeError otherwise); the assigned keys take the new values and every other key keeps its value |
| `Json.SetNestedItems` | src/hyperpytext/utils/npm_shadcnui_utils.py:17-20 | `v[key][k] = e` succeeds exactly on a dict holding a dict under `key`; an absent key raises KeyError(key); only the inner dict changes, entry by entry |
| `Json.SetNestedItemsIdempotent` | src/hyperpytext/utils/npm_shadcnui_utils.py:17-20 | assigning the same nested entries twice gives the same value as once |
| `Fs.Join` | src/hyperpytext/utils/npm_utils.py:67-68 | `os.path.join`: an absolute second part is the result, and an absolute first part keeps the result absolute |
| `Fs.JoinRelative` | src/hyperpytext/utils/npm_utils.py:67-68 | a relative second part ends the joined path, which is at least as long as both parts together |
| `Fs.JoinInsertsSlash` | src/hyperpytext/utils/npm_utils.py:67-68 | two non-empty relative parts, the first without a trailing slash, are joined with exactly one slash between them |
| `Fs.JoinInjective` | src/hyperpytext/utils/npm_utils.py:67-68 | under one directory, two different relative names give two different paths |
| `Fs.Dirname` | src/hyperpytext/__init__.py:42 | `os.path.dirname`: never longer than the path, so the parent walk of `makedirs` ends |
| `Fs.DirnameOfJoin` | src/hyperpytext/__init__.py:42 | a name without '/' joined to a non-empty directory that does not end in '/' has that directory as its dirname |
| `Fs.DirnameOfBareName` | src/hyperpytext/__init__.py:42 | a name without '/' has an empty dirname |
| `Fs.WriteKeepsValid` | src/hyperpytext/__init__.py:43-44 | writing a file never makes a path both a file and a directory |
| `Fs.MakeDirsKeepsValid` | src/hyperpytext/__init__.py:98 | creating directories never makes a path both a file and a directory |
| `Fs.ReadFn` | src/hyperpytext/utils/npm_vite_utils.py:30-31 | reading succeeds exactly on a regular file and gives its text |
| `Fs.ReadJsonFn` | src/hyperpytext/utils/npm_utils.py:71-72 | `json.load(open(p))`: a result is the codec's parse of the file's text, and a file that does not parse raises JSONDecodeError |
| `Fs.WriteFn` | src/hyperpytext/__init__.py:43-44 | a write passes exactly when the path is not a directory; then the file holds exactly the text and one write is logged, and a failure changes nothing |
| `Fs.RunFn` | src/hyperpytext/utils/npm_vite_utils.py:61-64 | a command only appends its Ran event; files, directories and the working directory are untouched |
| `Fs.Runs` | src/hyperpytext/utils/npm_tailwind_utils.py:33-36 | the events of a command sequence, one Ran event per command, in order |
| `Fs.RunsAppend` | src/hyperpytext/utils/npm_tailwind_utils.py:33-36 | the events of two command sequences run back to back are the concatenation of their events |
| `Fs.RunAllAppend` | src/hyperpytext/utils/npm_tailwind_utils.py:30-43 | running `a` then `b` is running `a + b` |
| `Fs.RunIsRunAll` | src/hyperpytext/utils/npm_tailwind_utils.py:30 | one command is a sequence of one |
| `Fs.ChDirFn` | src/hyperpytext/utils/npm_vite_utils.py:73 | `os.chdir`: ".." goes to the dirname of the working directory, any other path is resolved against it; nothing else changes |
| `Fs.MakeDirsFn` | src/hyperpytext/__init__.py:98 | `makedirs(p, exist_ok=True)`: an empty path raises FileNotFoundError; it passes exactly when the path is non-empty and no path on its chain is a file, and then the chain is added to the directories; files, working directory and log never change |
| `Fs.MakeDirsIdempotent` | src/hyperpytext/__init__.py:98 | creating the same directories twice is the same as once |
| `Fs.Host.constructor` | src/hyperpytext/__init__.py:60 | a process starts in the given disk state |
| `Fs.Host.Read` | src/hyperpytext/utils/npm_vite_utils.py:30-31 | the live read agrees with `ReadFn` and changes nothing |
| `Fs.Host.ReadJson` | src/hyperpytext/utils/npm_utils.py:71-72 | the live `json.load` agrees with `ReadJsonFn` and changes nothing |
| `Fs.Host.Write` | src/hyperpytext/__init__.py:43-44 | the new state is the one `WriteFn` gives |
| `Fs.Host.WriteJson` | src/hyperpytext/utils/npm_utils.py:81-82 | the new state and outcome are those of writing the codec's text of the value |
| `Fs.Host.Run` | src/hyperpytext/utils/npm_vite_utils.py:61-64 | the new state is the one `RunFn` gives |
| `Fs.Host.RunCommands` | src/hyperpytext/utils/npm_tailwind_utils.py:33-36 | a loop of `subprocess.run` calls; the new state is `RunAllFn` of the commands |
| `Fs.Host.ChDir` | src/hyperpytext/utils/npm_vite_utils.py:73 | the new state is the one `ChDirFn` gives |
| `Fs.Host.MakeDirs` | src/hyperpytext/__init__.py:98 | the new state and outcome are those `MakeDirsFn` gives |
| `NpmUtils.CheckSystem` | src/hyperpytext/utils/npm_utils.py:8-14 | "windows" exactly for a "win" platform, "mac" for "darwin", "linux" for "linux", none otherwise |
| `NpmUtils.CheckSystemExact` | src/hyperpytext/utils/npm_utils.py:8-14 | a platform with a family's prefix yields exactly that family |
| `NpmUtils.Npm` | src/hyperpytext/utils/npm_utils.py:17-32 | the npm executable is "npm.cmd" exactly on Windows, "npm" elsewhere |
| `NpmUtils.Npx` | src/hyperpytext/utils/npm_tailwind_utils.py:30 | the npx executable is "npx.cmd" exactly on Windows, "npx" elsewhere |
| `NpmUtils.Contains` | src/hyperpytext/utils/npm_utils.py:53 | Python's `in`: key membership in a dict, element membership in a list, substring in a string, TypeError on anything else |
| `NpmUtils.CheckPackageFn` | src/hyperpytext/utils/npm_utils.py:46-55 | without a package.json in the working directory the answer is false |
| `NpmUtils.CheckPackageMeaning` | src/hyperpytext/utils/npm_utils.py:46-55 | with a parsed package.json whose sections are dicts or absent, the answer is whether the name is a key of dependencies or devDependencies |
| `NpmUtils.CheckNpmPackage` | src/hyperpytext/utils/npm_utils.py:46-55 | the live check agrees with `CheckPackageFn` |
| `NpmUtils.MergeObj` | src/hyperpytext/utils/npm_utils.py:75-79 | the update loop fails exactly when a dict update meets a non-dict entry; otherwise every key of package or updates is present, dict entries are merged entry-wise, other update values replace, and untouched keys keep their values |
| `NpmUtils.MergeNested` | src/hyperpytext/utils/npm_utils.py:76-77 | inside a merged dict entry the update's inner keys win and every other inner key is kept |
| `NpmUtils.MergeScripts` | src/hyperpytext/utils/npm_utils.py:75-79 | merging `{"scripts": s}` succeeds unless `scripts` is a non-dict, and then only `scripts` changes: its keys in `s` take `s`'s values, the rest are kept |
| `NpmUtils.MergeIdempotent` | src/hyperpytext/utils/npm_utils.py:75-79 | applying the same updates to the merged package changes nothing |
| `NpmUtils.MergeUpdates` | src/hyperpytext/utils/npm_utils.py:75-79 | the key-by-key loop computes `MergeObj` |
| `NpmUtils.MergeValue` | src/hyperpytext/utils/npm_utils.py:75-79 | with no updates the value is kept; with updates a value that is not a dict raises TypeError; a dict is merged exactly as `MergeObj` merges it |
| `NpmUtils.UpdatePackageJsonFn` | src/hyperpytext/utils/npm_utils.py:58-86 | a missing package.json is skipped with the disk unchanged; a failure changes nothing; the working directory and directories are kept, and at most the one package.json write is logged |
| `NpmUtils.UpdatePackageJsonWrites` | src/hyperpytext/utils/npm_utils.py:58-86 | a successful update writes package.json in the target directory exactly once, with the merged value |
| `NpmUtils.UpdatePackageJson` | src/hyperpytext/utils/npm_utils.py:58-86 | the live update agrees with `UpdatePackageJsonFn` |
| `BunUtils.ViteCreateCommand` | src/hyperpytext/utils/bun_utils.py:95 | `bun create vite . --template` followed by "react-ts" exactly when TypeScript is chosen and "react" otherwise |
| `BunUtils.ViteCreateIgnoresTemplate` | src/hyperpytext/utils/bun_utils.py:95 | the `template` argument has no effect on the scaffold command |
| `BunUtils.ViteBunScriptsMerged` | src/hyperpytext/utils/bun_utils.py:102-110 | start, dev, build and preview become the bun commands; every other script and every other key of package.json is kept |
| `BunUtils.SetupViteBun` | src/hyperpytext/utils/bun_utils.py:88-112 | the live setup agrees with `SetupViteBunFn`: client/ is made and entered, scaffold and install are logged, the scripts are merged into its package.json, and the app directory is re-entered |
| `BunUtils.PluginAdds` | src/hyperpytext/utils/bun_utils.py:123-126 | one `bun add -d @tailwindcss/<p>` per plugin, in list order |
| `BunUtils.PluginAddsAppend` | src/hyperpytext/utils/bun_utils.py:123-126 | the plugin commands of a concatenated list are the concatenation of the plugin commands |
| `BunUtils.TailwindBunCommands` | src/hyperpytext/utils/bun_utils.py:114-134 | the base install comes first, then one add per plugin in order, then the Geist install exactly when fonts were chosen, and `bunx tailwindcss init -p` last |
| `BunUtils.SetupTailwindBun` | src/hyperpytext/utils/bun_utils.py:114-134 | the live setup agrees with `SetupTailwindBunFn`: those commands run in the client directory, then its parent is re-entered |
| `Text.OccursExtended` | src/hyperpytext/utils/npm_vite_utils.py:33-45 | a substring stays a substring when text is added on either side |
| `Text.MissingChar` | src/hyperpytext/utils/npm_vite_utils.py:33-45 | a word holding a character the text lacks does not occur in it |
| `Text.CharNotInLines` | src/hyperpytext/utils/npm_shadcnui_utils.py:80-95 | a character no line holds, other than the newline, is not in the joined lines |
| `Text.IsSubstring` | src/hyperpytext/utils/npm_utils.py:53 | Python's substring test is true exactly when the word occurs at some index |
| `Text.ReplaceAbsent` | src/hyperpytext/utils/npm_vite_utils.py:33-45 | `str.replace` leaves text without the pattern unchanged |
| `Text.ReplaceAfterPlain` | src/hyperpytext/utils/npm_tailwind_utils.py:50 | a prefix holding no copy of the pattern's first character passes through `replace` unchanged |
| `Text.ReplaceAfterNoMatch` | src/hyperpytext/utils/npm_tailwind_utils.py:50 | a prefix at which no occurrence starts passes through `replace` unchanged |
| `Text.ReplaceAtStart` | src/hyperpytext/utils/npm_tailwind_utils.py:50 | an occurrence at the very start becomes the replacement, and the scan continues after it |
| `Text.ReplaceSingle` | src/hyperpytext/utils/npm_tailwind_utils.py:50 | when some character of the pattern occurs neither in the prefix nor earlier in the pattern, and the rest lacks the pattern, `replace` on `x + pat + y` gives `x + rep + y` |
| `Text.ReplaceKeepsWord` | src/hyperpytext/utils/npm_vite_utils.py:33-45 | a word made of characters other than the pattern's first, starting with a character outside the pattern, survives `replace` |
| `Text.ReplaceKeepsPattern` | src/hyperpytext/utils/npm_vite_utils.py:33-45 | on text holding the pattern, a replacement that contains the pattern leaves the pattern in the result |
| `Text.ReplaceNotShorter` | src/hyperpytext/utils/npm_vite_utils.py:33-45 | a replacement at least as long as the pattern never shortens the text |
| `Text.ReplaceGrows` | src/hyperpytext/utils/npm_vite_utils.py:33-45 | a longer replacement makes text holding the pattern strictly longer |
| `Text.ReplaceNotIdempotent` | src/hyperpytext/utils/npm_vite_utils.py:33-45 | on text holding the pattern, with a longer replacement that contains the pattern, replacing twice differs from replacing once |
| `Text.ReplaceRemoves` | src/hyperpytext/__init__.py:172 | a non-empty replacement sharing no character with the pattern leaves no occurrence of the pattern |
| `Text.ReplaceOneChar` | src/hyperpytext/__init__.py:533 | replacing a one-character pattern replaces every occurrence of that character |
| `Text.MapCharConcat` | src/hyperpytext/__init__.py:533 | character replacement distributes over concatenation |
| `Text.EscapeIsDoubling` | src/hyperpytext/__init__.py:533 | `.replace('{', '{{').replace('}', '}}')` doubles every brace and keeps every other character |
| `Text.MapCharTwice` | src/hyperpytext/__init__.py:533 | doubling '{' and then '}' gives the same text as doubling both at once |
| `Text.FieldEnd` | src/hyperpytext/__init__.py:444 | the end of a format field name: the first brace at or after the given index, or the end of the text |
| `Text.FormatPlainPrefix` | src/hyperpytext/__init__.py:444 | `str.format` keeps a brace-free prefix in front of whatever the rest formats to |
| `Text.FormatPlain` | src/hyperpytext/__init__.py:444 | brace-free text formats to itself, whatever the context |
| `Text.FormatField` | src/hyperpytext/__init__.py:444-445 | a field `{name}` becomes its value, or raises KeyError(name) when the context lacks it |
| `Text.FormatUndoesDoubling` | src/hyperpytext/__init__.py:533-534 | formatting brace-doubled text gives the original text back |
| `Timestamp.Fixed` | src/hyperpytext/__init__.py:128-129 | strftime's zero-padded field: exactly `w` characters, all decimal digits |
| `Timestamp.FixedRoundTrip` | src/hyperpytext/__init__.py:128-129 | reading a padded field back gives the number when it fits the width |
| `Timestamp.FileStampFields` | src/hyperpytext/__init__.py:169 | the migration file stamp is 26 characters, with each field's zero-padded digits at its fixed place |
| `Timestamp.FileStampRoundTrip` | src/hyperpytext/__init__.py:169 | the migration file stamp parses back to the moment it was taken from |
| `Timestamp.ParseFields` | src/hyperpytext/__init__.py:169 | a 26-character text with the zero-padded fields of a moment at the file stamp's places parses back to that moment |
| `Timestamp.FileStampInjective` | src/hyperpytext/__init__.py:169 | two different moments give two different file stamps |
| `Timestamp.MigrationNamesDistinct` | src/hyperpytext/__init__.py:169-181 | the example and the auth migration taken at one moment have different file names, and both end in the same stamp |
| `Timestamp.IsoStampChars` | src/hyperpytext/__init__.py:128-129 | the ISO stamp holds only digits, '-', 'T' and ':' |
| `Timestamp.IsoStampRemovesMarker` | src/hyperpytext/__init__.py:172 | after the marker is replaced by the ISO stamp, no `{migrations_timestamp}` is left in the content |
| `Templates.RecordOf` | src/hyperpytext/__init__.py:143-148 | `templates['filename']` works exactly on a single mapping; a list raises TypeError |
| `Templates.Verbatim` | src/hyperpytext/__init__.py:151-156 | one verbatim write per record, in list order |
| `Templates.CreateEach` | src/hyperpytext/__init__.py:151-156 | `for template in templates`: each record of a list written verbatim; a single mapping iterates its keys and raises TypeError |
| `Templates.CreateSingle` | src/hyperpytext/__init__.py:212-216 | a single mapping is one write; a list raises TypeError |
| `Templates.FormatRecord` | src/hyperpytext/__init__.py:444-445 | a write exactly when both the name and the content format, of the two formatted texts; when the name fails, its error is raised |
| `Templates.FormatEach` | src/hyperpytext/__init__.py:434-439 | the records of a list, each formatted, in order; a single mapping raises TypeError |
| `Templates.FormatAll` | src/hyperpytext/__init__.py:434-439 | one formatted action per record, in order |
| `Templates.FormatBetween` | src/hyperpytext/__init__.py:444-445 | a field present in the context, between brace-free texts, formats to its value between them |
| `Templates.FormatSingle` | src/hyperpytext/__init__.py:442-446 | a single mapping is one formatted write; a list raises TypeError |
| `Templates.FormatContent` | src/hyperpytext/__init__.py:438 | a write exactly when the content formats, under the record's own name with the formatted content |
| `Templates.FormatContents` | src/hyperpytext/__init__.py:434-439 | each record of a list written with formatted content, in order |
| `Templates.FormatContentAll` | src/hyperpytext/__init__.py:434-439 | one content-formatted action per record, in order |
| `Templates.FormatTwo` | src/hyperpytext/__init__.py:223-227 | two fields between brace-free texts format to their two values |
| `Templates.CreateFileBareNameRaises` | src/hyperpytext/__init__.py:40-44 | as written, a file name without a directory part raises FileNotFoundError from `makedirs('')` and writes nothing |
| `Templates.CreateFileFn` | src/hyperpytext/__init__.py:40-44 | corrected `create_file`: the working directory is kept and directories only grow; a pass logs exactly one write of the resolved name, a failure changes no file and logs nothing |
| `Templates.CreateFileWrites` | src/hyperpytext/__init__.py:40-44 | a successful `create_file` leaves the file holding the content with every other file kept, its parent directory present, and the state valid; a bare name that is not a directory always passes |
| `Templates.CreateFileAgrees` | src/hyperpytext/__init__.py:40-44 | on a name with a directory part the corrected `create_file` and the code as written give the same state and outcome |
| `Templates.CreateFile` | src/hyperpytext/utils/templates_utils.py:9-13 | the live corrected `create_file` (a bare name is written in the working directory instead of raising) agrees with `CreateFileFn` |
| `Templates.ExecFn` | src/hyperpytext/__init__.py:137-227 | one planned action, its writes through the corrected `create_file`, never changes the working directory and never removes a directory |
| `Templates.ExecAllFn` | src/hyperpytext/__init__.py:137-227 | a run of planned actions never changes the working directory and never removes a directory |
| `Templates.ExecAllAppend` | src/hyperpytext/__init__.py:137-227 | running `a + b` is running `a` and then, if it passed, `b` |
| `Templates.ExecWrites` | src/hyperpytext/__init__.py:137-227 | an action that passes is not a Raise and logs exactly its one write |
| `Templates.ExecAllWrites` | src/hyperpytext/__init__.py:137-227 | a run that passes logs exactly the planned writes, in order, resolved in the working directory |
| `Templates.ExecAllPassNoRaise` | src/hyperpytext/__init__.py:137-227 | a run that passes contains no Raise action |
| `Templates.ExecAllStep` | src/hyperpytext/__init__.py:137-227 | one more action after a prefix that passed is that action run on the prefix's state |
| `Templates.ExecAllStops` | src/hyperpytext/__init__.py:137-227 | once a prefix fails, nothing after it runs |
| `Templates.Exec` | src/hyperpytext/__init__.py:137-227 | the live action agrees with `ExecFn` |
| `Templates.ExecAll` | src/hyperpytext/__init__.py:137-227 | the live loop over actions agrees with `ExecAllFn` |
| `Templates.PlanAll` | src/hyperpytext/__init__.py:137 | an empty listing plans nothing (the plan of longer listings is given by `PlanAllAppend`) |
| `Templates.PlanAllAppend` | src/hyperpytext/__init__.py:137 | the plan of a concatenated listing is the concatenation of the plans |
| `Templates.PlanAllSkips` | src/hyperpytext/__init__.py:137-141 | entries that plan nothing contribute nothing, wherever they sit in the listing |
| `Templates.RunListing` | src/hyperpytext/__init__.py:137-227 | the live directory loop agrees with running the whole listing's plan |
| `Templates.MakeAllFn` | src/hyperpytext/__init__.py:119-122 | `makedirs` for each folder in order: files and log are unchanged, the working directory is kept, and directories only grow |
| `Templates.MakeAllAppend` | src/hyperpytext/__init__.py:119-122 | making `a + b` is making `a` and then, if it passed, `b` |
| `Templates.MakeAllCreates` | src/hyperpytext/__init__.py:119-122 | after a run that passes, every listed folder is a directory under the working directory |
| `Templates.MakeAllMembers` | src/hyperpytext/__init__.py:119-122 | after a run that passes, every listed folder is a directory under the working directory, and the log and the working directory are kept |
| `Templates.MakeAllIdempotent` | src/hyperpytext/__init__.py:119-122 | making the same folders again passes and changes nothing |
| `Templates.FoldersInApp` | src/hyperpytext/__init__.py:359-382 | making the app directory, changing into it and making the folders leaves the log as it was, ends in the app directory and, when it passes, every folder exists under it |
| `Templates.MakeAll` | src/hyperpytext/__init__.py:119-122 | the live folder loop agrees with `MakeAllFn` |
| `Vite.ProxyTextHolds` | src/hyperpytext/utils/npm_vite_utils.py:33-45 | each replacement holds the anchor `export default defineConfig({` and the `/api` proxy entry, and is longer than the anchor |
| `Vite.ProxyNeedsAnchor` | src/hyperpytext/utils/npm_vite_utils.py:33-45 | a config without the anchor is written back unchanged |
| `Vite.ProxyOnce` | src/hyperpytext/utils/npm_vite_utils.py:33-45 | a config holding the anchor once, after a prefix without '(', gets the proxy block in place of the anchor and nothing else changes; the result holds the `/api` entry |
| `Vite.ProxyNotIdempotent` | src/hyperpytext/utils/npm_vite_utils.py:33-45 | on a config holding the anchor, running the edit again changes the config again |
| `Vite.ConfigureViteProxyFn` | src/hyperpytext/utils/npm_vite_utils.py:17-52 | a missing config is skipped with the disk unchanged; a failure changes nothing; the working directory and directories are kept, and at most the one config write is logged |
| `Vite.ConfigureViteProxyWrites` | src/hyperpytext/utils/npm_vite_utils.py:17-52 | an existing config is rewritten in place with the proxied text, in one write |
| `Vite.ConfigureViteProxy` | src/hyperpytext/utils/npm_vite_utils.py:17-52 | the live edit agrees with `ConfigureViteProxyFn` (the older copy at utils/npm_vite_utils.py:44-65 is the Legacy variant) |
| `Vite.ViteScripts` | src/hyperpytext/utils/npm_vite_utils.py:7-14 | the Vite script set names start and build |
| `Vite.ViteScriptsMerged` | src/hyperpytext/utils/npm_vite_utils.py:7-14 | start and build become the Vite commands; other scripts and other keys are kept |
| `Vite.LegacyUpdatePackageJsonForViteFn` | utils/npm_vite_utils.py:25-41 | a missing client/package.json is skipped with the disk unchanged; a failed read or assignment writes nothing |
| `Vite.InPlaceMatchesMerge` | utils/npm_vite_utils.py:33-34 | where `scripts` is a dict, the older in-place assignment gives the same result as the shared merge; without `scripts` the older one raises KeyError where the shared merge succeeds |
| `Vite.LegacyViteWritesPackageJson` | utils/npm_vite_utils.py:25-41 | an existing client/package.json whose `scripts` is a dict passes and is written back once, as the package with `start` and `build` set; no other file, directory or the working directory changes |
| `Vite.LegacyUpdatePackageJsonForVite` | utils/npm_vite_utils.py:25-41 | the live older update agrees with its function |
| `Vite.TemplateName` | src/hyperpytext/utils/npm_vite_utils.py:60 | `<template>-ts` with TypeScript, the template itself without |
| `Vite.SetupViteSkipsWhenListed` | src/hyperpytext/utils/npm_vite_utils.py:58 | with vite listed in either dependency section of package.json, the setup only changes into the project directory |
| `Vite.LegacySetupViteRunsScaffold` | utils/npm_vite_utils.py:8-22 | without vite listed, the older helper passes, leaves every file as it was, and logs exactly the scaffold and then `npm install` |
| `Vite.SetupViteRunsScaffold` | src/hyperpytext/utils/npm_vite_utils.py:55-74 | without vite listed, the current helper's log begins with the scaffold and `npm install`, followed by at most two writes (package.json and the config) |
| `Vite.ViteEditsLog` | src/hyperpytext/utils/npm_vite_utils.py:70-74 | after the scaffold, the package.json and proxy edits only extend the log, by at most two events |
| `Vite.SetupViteNpm` | src/hyperpytext/utils/npm_vite_utils.py:55-74 | the live setup agrees with `SetupViteNpmFn` |
| `TailwindSrc.TailwindScriptsMerged` | src/hyperpytext/utils/npm_tailwind_utils.py:8-16 | dev, build and preview become the Vite commands; other scripts and other keys are kept |
| `TailwindSrc.PluginInstalls` | src/hyperpytext/utils/npm_tailwind_utils.py:33-36 | one `npm install -D @tailwindcss/<p>` per plugin, in list order |
| `TailwindSrc.PluginInstallsAppend` | src/hyperpytext/utils/npm_tailwind_utils.py:33-36 | the installs of a concatenated plugin list are the concatenation of the installs |
| `TailwindSrc.TailwindNpmCommands` | src/hyperpytext/utils/npm_tailwind_utils.py:18-43 | `npx tailwindcss init -p` always runs, preceded by the two base installs exactly when Tailwind is not listed; then one plugin install per plugin in order; `npm i geist` last when fonts were chosen |
| `TailwindSrc.InstallPlugins` | src/hyperpytext/utils/npm_tailwind_utils.py:33-36 | the plugin loop logs exactly the plugin installs |
| `TailwindSrc.SetupTailwindNpm` | src/hyperpytext/utils/npm_tailwind_utils.py:18-43 | the live setup agrees with `SetupTailwindNpmFn` on the new state and the outcome |
| `TailwindSrc.PluginImportsAppend` | src/hyperpytext/utils/npm_tailwind_utils.py:49 | the import block of a concatenated plugin list is the concatenation of the blocks |
| `TailwindSrc.PluginImportsOne` | src/hyperpytext/utils/npm_tailwind_utils.py:49 | one plugin gives one `require('@tailwindcss/<p>')` line |
| `TailwindSrc.NoPluginsReplacement` | src/hyperpytext/utils/npm_tailwind_utils.py:50 | with no plugins the marker becomes an empty plugin list |
| `TailwindSrc.NewConfigWithoutMarkers` | src/hyperpytext/utils/npm_tailwind_utils.py:45-60 | a config without either marker is written back unchanged |
| `TailwindSrc.FontsMarkerKeptWithoutFonts` | src/hyperpytext/utils/npm_tailwind_utils.py:52-57 | without fonts the fonts marker is left as it is |
| `TailwindSrc.PluginsMarkerRewritten` | src/hyperpytext/utils/npm_tailwind_utils.py:50 | the plugins marker, occurring nowhere else, becomes the plugin list with one import per plugin; the text around it is kept |
| `TailwindSrc.FontsMarkerRewritten` | src/hyperpytext/utils/npm_tailwind_utils.py:52-57 | the fonts marker, occurring nowhere else, becomes the Geist font block; the text around it is kept |
| `TailwindSrc.NewConfigOnTemplate` | src/hyperpytext/utils/npm_tailwind_utils.py:45-60 | on a config holding each marker exactly once, plugins first, the plugins marker is rewritten, and the fonts marker exactly when fonts were chosen; the rest of the text is kept |
| `TailwindSrc.NewConfigFontsFirst` | src/hyperpytext/utils/npm_tailwind_utils.py:45-60 | the same for a config with the fonts marker before the plugins marker |
| `TailwindSrc.FontsMonoBeforeSans` | src/hyperpytext/utils/npm_tailwind_utils.py:53-56 | in the Geist block GeistMono comes before GeistSans |
| `TailwindSrc.UpdateTailwindConfigFn` | src/hyperpytext/utils/npm_tailwind_utils.py:45-60 | a config file that is not there raises and changes nothing; an existing one passes, is rewritten to `NewConfig` of its text with every other file and directory kept, and logs exactly that write |
| `TailwindSrc.UpdateTailwindConfig` | src/hyperpytext/utils/npm_tailwind_utils.py:45-60 | the live edit agrees with `UpdateTailwindConfigFn` |
| `TailwindLegacy.LegacyNpmCommands` | utils/npm_tailwind_utils.py:69-82 | `npx tailwindcss init -p` always runs, preceded by `npm init -y` and the Tailwind install exactly when Tailwind is not listed; then one plugin install per plugin in order |
| `TailwindLegacy.SetupTailwindNpmInstallGate` | utils/npm_tailwind_utils.py:69-82 | with a readable package.json, the setup passes, enters the project directory and logs exactly `LegacyNpmCommands` for whether Tailwind is listed in either dependency section |
| `TailwindLegacy.SetupTailwindNpm` | utils/npm_tailwind_utils.py:69-82 | the live older setup agrees with its function |
| `TailwindLegacy.StandaloneExe` | utils/npm_tailwind_utils.py:53-55 | the standalone executable is `tailwindcss.exe` exactly on Windows |
| `TailwindLegacy.StandaloneDownload` | utils/npm_tailwind_utils.py:90-100 | the release asset for each supported platform and the name it is saved under (none on Windows, where the download keeps its own name); no asset for any other platform |
| `TailwindLegacy.StandaloneCommands` | utils/npm_tailwind_utils.py:85-107 | with the executable present only init runs; otherwise download, chmod, move, init, and nothing on an unsupported platform |
| `TailwindLegacy.StandaloneUnsupported` | utils/npm_tailwind_utils.py:99-100 | on an unsupported platform without the executable no command runs |
| `TailwindLegacy.SetupTailwindStandalone` | utils/npm_tailwind_utils.py:85-107 | the live standalone setup agrees with its function |
| `TailwindLegacy.MergeFragment` | utils/npm_tailwind_utils.py:110-116 | succeeds exactly when the package has a dict `scripts` and the braced fragment parses to a dict; a missing `scripts` raises KeyError; on success only `scripts` changes, merged with the fragment |
| `TailwindLegacy.MergeFragmentScripts` | utils/npm_tailwind_utils.py:110-116 | the fragment's keys win inside `scripts`; every other script stays |
| `TailwindLegacy.UpdatePackageJsonFn` | utils/npm_tailwind_utils.py:110-116 | a failed read or merge leaves the disk as it was, having only entered the project directory |
| `TailwindLegacy.UpdatePackageJsonNeedsScripts` | utils/npm_tailwind_utils.py:110-116 | a package.json without `scripts` raises KeyError and is not written |
| `TailwindLegacy.UpdatePackageJson` | utils/npm_tailwind_utils.py:110-116 | the live older update agrees with its function |
| `TailwindLegacy.UpdateTailwindConfigPluginsOnly` | utils/npm_tailwind_utils.py:119-125 | the older rewrite is the newer one without fonts: the plugins marker, occurring nowhere else, becomes the require block, a config without it is kept, and a fonts marker survives |
| `Shadcn.PatchTsconfig` | src/hyperpytext/utils/npm_shadcnui_utils.py:14-20 | the patch succeeds exactly on a dict whose `compilerOptions`, when present, is a dict; anything else raises TypeError |
| `Shadcn.PatchTsconfigMeaning` | src/hyperpytext/utils/npm_shadcnui_utils.py:14-20 | an accepted patch adds `compilerOptions` if it was missing, sets `baseUrl` to `.` and `paths` to the `@` alias in it, and keeps every other key at both levels |
| `Shadcn.PatchTsconfigIdempotent` | src/hyperpytext/utils/npm_shadcnui_utils.py:15-20 | patching a patched tsconfig changes nothing |
| `Shadcn.UpdateTsconfigJsonFn` | src/hyperpytext/utils/npm_shadcnui_utils.py:8-27 | a missing tsconfig.json is skipped with the disk unchanged; a failed read or patch changes nothing |
| `Shadcn.UpdateTsconfigJsonWrites` | src/hyperpytext/utils/npm_shadcnui_utils.py:8-24 | a readable tsconfig.json that accepts the patch is rewritten once with the patched value, one write logged and no other file changed |
| `Shadcn.UpdateTsconfigJson` | src/hyperpytext/utils/npm_shadcnui_utils.py:8-27 | the live edit agrees with `UpdateTsconfigJsonFn` |
| `Shadcn.Strs` | src/hyperpytext/utils/npm_shadcnui_utils.py:36-58 | a list of strings as a JSON array, element by element |
| `Shadcn.TsconfigAppIsPatched` | src/hyperpytext/utils/npm_shadcnui_utils.py:30-64 | the fixed tsconfig.app.json already carries the `@` alias: patching it changes nothing |
| `Shadcn.UpdateTsconfigAppJsonFn` | src/hyperpytext/utils/npm_shadcnui_utils.py:30-64 | an existing file is replaced by the fixed object; a missing one is skipped |
| `Shadcn.UpdateTsconfigAppJson` | src/hyperpytext/utils/npm_shadcnui_utils.py:30-64 | the live edit agrees with `UpdateTsconfigAppJsonFn` |
| `Shadcn.LegacyViteConfigHasAliasOnly` | utils/npm_shadcnui_utils.py:80-95 | the older config holds the `@` alias and no `/api` proxy |
| `Shadcn.LegacyLinesLackY` | utils/npm_shadcnui_utils.py:80-95 | no line of the older config holds the character that rules the proxy out |
| `Shadcn.UpdateViteConfigFn` | src/hyperpytext/utils/npm_shadcnui_utils.py:77-105 | an existing vite.config.ts is replaced by the fixed text; a missing one is skipped |
| `Shadcn.UpdateViteConfig` | src/hyperpytext/utils/npm_shadcnui_utils.py:77-105 | the live edit agrees with `UpdateViteConfigFn` |
| `Shadcn.ResolveAbsolute` | src/hyperpytext/utils/npm_shadcnui_utils.py:108-122 | an absolute path resolves to itself from any working directory |
| `Shadcn.SetupShadcnUiOrder` | src/hyperpytext/utils/npm_shadcnui_utils.py:108-122 | with the three files present and the patch accepted, the run passes and logs, in order: the tsconfig.json write, the tsconfig.app.json write, the `@types/node` install, the vite.config.ts write and the `shadcn init` command; the app tsconfig and vite config hold the fixed contents |
| `Shadcn.TsconfigsWrite` | src/hyperpytext/utils/npm_shadcnui_utils.py:109-110 | from an absolute directory holding both tsconfig files, the two edits write tsconfig.json and then tsconfig.app.json, and the disk stays consistent |
| `Shadcn.ShadcnInitWrites` | src/hyperpytext/utils/npm_shadcnui_utils.py:111-118 | from an absolute directory holding vite.config.ts, the last steps install `@types/node`, rewrite the config and run the init, ending in that directory |
| `Shadcn.SetupAtWrites` | src/hyperpytext/utils/npm_shadcnui_utils.py:108-122 | from an absolute directory holding the three files, with the patch accepted, the set-up ends in one explicit state: three files rewritten, five events logged in order, that directory as working directory |
| `Shadcn.SetupShadcnUi` | src/hyperpytext/utils/npm_shadcnui_utils.py:108-122 | the live setup agrees with `SetupShadcnUiFn` (the older copy at utils/npm_shadcnui_utils.py:103-115 is the Legacy variant) |
| `Shadcn.Tsconfigs` | src/hyperpytext/utils/npm_shadcnui_utils.py:109-110 | the live two tsconfig edits agree with `TsconfigsFn` |
| `Shadcn.ShadcnInit` | src/hyperpytext/utils/npm_shadcnui_utils.py:111-122 | the live last steps agree with `ShadcnInitFn` |
| `Electron.PackagerCommand` | src/hyperpytext/utils/npm_electron_utils.py:12-13 | the packaging command starts with `electron-packager . `, names the app and ends with the three-platform x64 build into dist |
| `Electron.ElectronScripts` | src/hyperpytext/utils/npm_electron_utils.py:11-14 | the scripts map holds `start` and `package`; their values are stated by `ElectronUpdatesMerged` |
| `Electron.ElectronUpdatesMerged` | src/hyperpytext/utils/npm_electron_utils.py:8-16 | `main` becomes main.js, the two scripts are set, every other key and script is kept |
| `Electron.InPlaceElectronEditMeaning` | hyperpytext/utils/npm_electron_utils.py:22-24 | the in-place edit succeeds exactly on a dict whose `scripts` is a dict, and then sets `main` and the two scripts (the same code as utils/npm_electron_utils.py:34-36) |
| `Electron.InPlaceElectronEditAgrees` | hyperpytext/utils/npm_electron_utils.py:22-24 | on a dict whose `scripts` is a dict, the older in-place edit gives the same package.json as the packaged generator's merge of the Electron updates (the same code as utils/npm_electron_utils.py:34-36) |
| `Electron.LegacyUpdatePackageJsonForElectronFn` | hyperpytext/utils/npm_electron_utils.py:17-27 | a failed read or edit leaves the disk as it was, having only entered the project directory (the same code as utils/npm_electron_utils.py:29-39) |
| `Electron.LegacyElectronWritesPackageJson` | hyperpytext/utils/npm_electron_utils.py:17-27 | after the chdir, a package.json whose `scripts` is a dict passes and is written back once with `main` and the two scripts set; no other file or directory changes (the same code as utils/npm_electron_utils.py:29-39) |
| `Electron.LegacyUpdatePackageJsonForElectron` | hyperpytext/utils/npm_electron_utils.py:17-27 | the live older update agrees with its function (the same code as utils/npm_electron_utils.py:29-39) |
| `Electron.SetupElectronInstallGate` | src/hyperpytext/utils/npm_electron_utils.py:19-27 | with a readable package.json, the two install commands run exactly when electron is not yet listed in either section; the older setup then passes, the newer one goes on to the package.json update |
| `Electron.LegacySetupElectronNpm` | hyperpytext/utils/npm_electron_utils.py:8-14 | the live older setup agrees with its function (the same code as utils/npm_electron_utils.py:8-26, whose `check_electron_npm` is the same test as `check_npm_package`) |
| `Electron.SetupElectronNpm` | src/hyperpytext/utils/npm_electron_utils.py:19-27 | the live setup agrees with `SetupElectronNpmFn`: install, then the package.json update |
| `Generators.ServerRoots` | src/hyperpytext/__init__.py:132-134 | the older generator's root templates do not include `envrc`; both include `env` and `gitignore` |
| `Generators.VanillaRoots` | src/hyperpytext/__init__.py:415-417 | the vanilla roots add the Tailwind input stylesheet to the server's |
| `Generators.MigrationAll` | src/hyperpytext/__init__.py:167-173 | one migration write per record, in order |
| `Generators.MigrationEach` | src/hyperpytext/__init__.py:167-173 | a list of records becomes one migration write per record; a single mapping raises TypeError, because its keys are strings |
| `Generators.MigrationRecordMeaning` | src/hyperpytext/__init__.py:171-172 | the name's `{filename}` becomes `<prefix>_<stamp>.py` and no timestamp marker is left in the content |
| `Generators.PyprojectContext` | src/hyperpytext/__init__.py:223-227 | the `pyproject.toml` fields: the app name and the faker line only when the example was chosen |
| `Generators.PyprojectMeaning` | src/hyperpytext/__init__.py:219-227 | with the two fields in the content, the file holds the app name and the faker line or nothing in their places |
| `Generators.ElectronVerbatim` | src/hyperpytext/__init__.py:529-535 | the doubling undoes the formatting: the Electron main file is the template's content unchanged |
| `Generators.TailwindConfigActions` | src/hyperpytext/__init__.py:520-526 | a single record is written and then patched with the chosen plugins and fonts, except that the older generator's three-argument update raises TypeError; a list of records raises |
| `Generators.NonYamlSkipped` | src/hyperpytext/__init__.py:137-141 | in every loop, a file that is not YAML plans nothing |
| `Generators.AuthNameIsNoOther` | src/hyperpytext/__init__.py:176-201 | no auth template name is any other branch's name |
| `Generators.AuthGated` | src/hyperpytext/__init__.py:176-201 | without authentication the three auth templates write nothing |
| `Generators.AuthWritten` | src/hyperpytext/__init__.py:176-201 | with authentication the routes are written verbatim and the auth migration is stamped |
| `Generators.ExampleNameIsNoOther` | src/hyperpytext/__init__.py:167-173 | the example template name is no other branch's name |
| `Generators.ExampleGated` | src/hyperpytext/__init__.py:167-173 | the example migration is written exactly when the example was chosen |
| `Generators.ServerExampleGated` | src/hyperpytext/__init__.py:167-173 | in the server loop the example template yields the migration when the example was chosen and nothing otherwise; no other branch takes it |
| `Generators.VanillaExampleGated` | src/hyperpytext/__init__.py:457-463 | in the vanilla loop the example template yields the migration when the example was chosen and nothing otherwise; no other branch takes it |
| `Generators.PyprojectNameIsNoOther` | src/hyperpytext/__init__.py:219-227 | the pyproject template name is no other branch's name |
| `Generators.PyprojectGated` | src/hyperpytext/__init__.py:219-227 | the packaged generator writes `pyproject.toml` only for Poetry; the older one (hyperpytext/__main__.py:201-209) always writes it; in both loops |
| `Generators.ServerPyprojectGated` | src/hyperpytext/__init__.py:219-227 | in the server loop `pyproject.yaml` yields its one formatted write for Poetry or in the older generator (hyperpytext/__main__.py:201-209), and nothing otherwise |
| `Generators.VanillaPyprojectGated` | src/hyperpytext/__init__.py:509-518 | in the vanilla loop `pyproject.yaml` yields its one formatted write for Poetry or in the older generator, and nothing otherwise |
| `Generators.VanillaNamesAreNoOther` | src/hyperpytext/__init__.py:420-535 | the vanilla-only template names are no other branch's names |
| `Generators.ElectronGated` | src/hyperpytext/__init__.py:529-535 | the Electron main file is written exactly when Electron was chosen |
| `Generators.TailwindConfigGated` | src/hyperpytext/__init__.py:520-526 | the vanilla Tailwind config is written exactly when Tailwind was chosen |
| `Generators.IndexRecordFormatted` | src/hyperpytext/__init__.py:442-446 | the index record's name and title fields both become the HTML name |
| `Generators.IndexWritten` | src/hyperpytext/__init__.py:442-446 | the index page is written under `<html name>` with the title set to it |
| `Generators.ApiNameIsNoOther` | src/hyperpytext/__init__.py:151-156 | the api template name is no other branch's name |
| `Generators.ApiWritten` | src/hyperpytext/__init__.py:434-439 | the React server writes the API records verbatim; the vanilla loop formats their contents with the HTML name |
| `Generators.ServerApiWritten` | src/hyperpytext/__init__.py:151-156 | in the server loop `api.yaml` yields exactly one verbatim write per record |
| `Generators.VanillaApiWritten` | src/hyperpytext/__init__.py:434-439 | in the vanilla loop `api.yaml` yields exactly one write per record, its content formatted with the HTML name |
| `Generators.ApiRecordFormatted` | src/hyperpytext/__init__.py:438 | a vanilla API record's `{html_filename}` becomes the HTML name, its file name unchanged |
| `Generators.RootNameIsNoOther` | src/hyperpytext/__init__.py:212-216 | no root template name is another branch's name |
| `Generators.RootWritten` | src/hyperpytext/__init__.py:212-216 | a root template of the list is written as its single record |
| `Generators.RootNameIsYaml` | src/hyperpytext/__init__.py:132-134 | every root template name is a YAML name |
| `Generators.EnvrcOnlyCurrent` | hyperpytext/__main__.py:114-116 | only the packaged generator writes `.envrc` |
| `Generators.ReactClientWrites` | src/hyperpytext/__init__.py:280-284 | in the packaged React client every YAML template other than the config is written as its single record; the older one writes only `globals.css` |
| `Generators.ReactClientConfig` | src/hyperpytext/__init__.py:272-277 | the React client config is written and then patched with the chosen plugins and fonts; the older generator raises TypeError |
| `ClientFiles.FontsGated` | src/hyperpytext/utils/templates_utils.py:31-38 | the Geist font stylesheet is written exactly when fonts were chosen |
| `ClientFiles.OthersWritten` | src/hyperpytext/utils/templates_utils.py:41-45 | every other YAML template is written as its single record, fonts or not; other files are skipped |
| `ClientFiles.ClientFilesWriteInDir` | src/hyperpytext/utils/templates_utils.py:23-45 | from an absolute client directory, a run that passes logs exactly the planned writes resolved in that directory, and stays there |
| `ClientFiles.CreateClientFiles` | src/hyperpytext/utils/templates_utils.py:23-45 | the live helper agrees with `CreateClientFilesFn` |
| `Flows.ServerDependencies.constructor` | src/hyperpytext/__init__.py:47-56 | the module-level list starts as the base dependencies |
| `Flows.ServerDependencies.AddExample` | src/hyperpytext/__init__.py:106-107 | faker is appended exactly when the example was chosen |
| `Flows.AfterRunsMeaning` | src/hyperpytext/__init__.py:47-56 | after several runs in one process the base list comes first, then one faker entry per run that chose the example |
| `Flows.FakerListedIff` | src/hyperpytext/__init__.py:106-107 | faker is in the list exactly when some run chose the example |
| `Flows.Subpaths` | src/hyperpytext/__init__.py:119-122 | each subfolder joined to its base, in order |
| `Flows.FolderPathsAppend` | src/hyperpytext/__init__.py:376-382 | the folders of two layouts are the concatenation of their folders |
| `Flows.FolderLayouts` | src/hyperpytext/__init__.py:376-382 | the layouts list every base joined with each of its subfolders |
| `Flows.ServerLayout` | src/hyperpytext/__init__.py:119-122 | the server layout is exactly `server/src/app/api/routes`, `server/src/app/db` and `server/src/app/utils`, in that order |
| `Flows.VanillaLayout` | src/hyperpytext/__init__.py:376-382 | the vanilla layout has eleven folders, from `src/app/api/routes` first to `src/assets/js` last |
| `Flows.MakeFolders` | src/hyperpytext/__init__.py:380-382 | the nested folder loop agrees with making the layout's folders in order |
| `Fs.ChDirAbsolute` | src/hyperpytext/__init__.py:116 | an absolute directory is reached from any working directory |
| `Flows.ServerWritesInApp` | src/hyperpytext/__init__.py:98-227 | a server run that passes leaves the folder layout under the app directory and ends with exactly the planned template writes, resolved there |
| `Flows.ServerSetup` | src/hyperpytext/__init__.py:98-227 | the live server flow agrees with `ServerFn`, and the dependency list gains faker exactly when the packaged generator reaches that step with the example chosen |
| `Flows.ReactClientGated` | src/hyperpytext/__init__.py:260-264 | without Tailwind the client flow stops after Vite; with Tailwind the older generator raises TypeError after Vite |
| `Flows.ReactClient` | src/hyperpytext/__init__.py:260-290 | the live client flow agrees with `ReactClientFn` |
| `Flows.ReactFn` | src/hyperpytext/__init__.py:79-290 | the React branch of `main`: a server part that fails ends the branch before any client step |
| `Flows.ServerEndsInApp` | src/hyperpytext/__init__.py:98-116 | a server part that passes leaves the app directory made and current |
| `Flows.ReactClientInApp` | src/hyperpytext/__init__.py:116-260 | after a server part that passes, the client part runs on its state in the app directory, which exists |
| `Flows.React` | src/hyperpytext/__init__.py:79-290 | the live React branch agrees with `ReactFn`, and the dependency list changes as in `ServerSetup` |
| `Flows.LegacyNpmTailwindRaises` | hyperpytext/__main__.py:346-360 | in the older vanilla flow, npm Tailwind raises (TypeError, or the package probe's error) and changes nothing |
| `Flows.VanillaTools` | src/hyperpytext/__init__.py:385-405 | the live Tailwind and Electron steps agree with `VanillaToolsFn` |
| `Flows.VanillaTailwind` | src/hyperpytext/__init__.py:384-399 | the live Tailwind check and set-up agree with `VanillaTailwindFn` |
| `Flows.ElectronStep` | src/hyperpytext/__init__.py:401-405 | the live Electron set-up agrees with `ElectronFn` |
| `Flows.VanillaTailwindStays` | src/hyperpytext/__init__.py:396-399 | started in the absolute app directory, the Tailwind step ends there and removes no directory |
| `Flows.ElectronStays` | src/hyperpytext/__init__.py:402-405 | started in the absolute app directory, the Electron step ends there and removes no directory |
| `Flows.VanillaToolsStayInApp` | src/hyperpytext/__init__.py:385-405 | started in the absolute app directory, all the tools end there and remove no directory |
| `Flows.LoopInApp` | src/hyperpytext/__init__.py:420-535 | a template loop that passes from the app directory keeps the folders there and ends the log with its writes |
| `Flows.VanillaInAppWrites` | src/hyperpytext/__init__.py:363-535 | inside the app directory, a vanilla run that passes leaves the folder layout under it and ends with exactly the planned template writes, resolved there |
| `Flows.VanillaWritesInApp` | src/hyperpytext/__init__.py:359-535 | a vanilla run that passes leaves the folder layout under the app directory and ends with exactly the planned template writes, resolved there |
| `Flows.VanillaSetup` | src/hyperpytext/__init__.py:359-535 | the live vanilla flow agrees with `VanillaFn`, and the dependency list gains faker exactly when the packaged generator made the app directory with the example chosen |
| `Flows.VanillaInApp` | src/hyperpytext/__init__.py:363-535 | the live steps run inside the app directory agree with `VanillaInAppFn` |
| `Cli.AssetPaths` | cli.py:58-60 | each asset folder under `assets`, in order |
| `Cli.CliFoldersOrder` | cli.py:50-60 | the fifteen folders in order: the seven top folders, `api/routers`, then the seven asset folders |
| `Cli.CliNamesDistinct` | cli.py:68-87 | the three special template names differ |
| `Cli.CliNamesAreYaml` | cli.py:68-87 | the three special template names are YAML names |
| `Cli.CliNonYamlSkipped` | cli.py:66-67 | a file that is not YAML plans nothing |
| `Cli.ApiTemplatesFormatted` | cli.py:68-72 | each API record's `{app_name}` name field and its two content fields become the answers |
| `Cli.GitignoreVerbatim` | cli.py:73-76 | the gitignore record is written as it is, braces included |
| `Cli.HtmlTemplateWritten` | cli.py:82-84 | the HTML page is named after the answer and titled with it |
| `Cli.OtherTemplateWritten` | cli.py:85-87 | any other template's `{app_name}` fields become the app name |
| `Cli.OtherTemplateUnknownField` | cli.py:85-87 | another template whose content has a field other than `app_name` raises KeyError for it |
| `Cli.OnlyNpmWritesPackageJson` | cli.py:92-96 | without npm Tailwind the Tailwind step leaves every file as it was |
| `Cli.GateFn` | cli.py:34-42 | a missing npm ends the npm choice before anything is made; no gate for the other choices |
| `Cli.NoNpmCreatesNothing` | cli.py:34-42 | without npm the npm choice leaves the disk unchanged |
| `Cli.AsWrittenNpmRaises` | cli.py:93 | as written, every npm run that gets past the template loop raises TypeError for the missing `plugins` argument |
| `Cli.CorrectedNpmMergesBuildCss` | cli.py:92-96 | as intended, with package.json in the app directory, the build-css script is merged into its scripts |
| `Cli.BuildWritesInApp` | cli.py:45-89 | a run that passes leaves every folder under the app directory and logs exactly the planned template writes, resolved there |
| `Cli.TailwindStepAsWritten` | cli.py:91-96 | as written, the Tailwind step raises exactly for npm, and never changes a file |
| `Cli.CreateAppAsWritten` | cli.py:14-96 | as written, the command is the corrected one for every Tailwind choice but npm |
| `Cli.CreateAppFn` | cli.py:14-96 | corrected command: stopped at the gate it changes nothing; for every choice but npm its files are those the build left |
| `Cli.CreateApp` | cli.py:14-96 | the live corrected command (the intended Tailwind step, writes through the corrected `create_file`) agrees with `CreateAppFn` |

## Left out

- External commands (npm, npx, bun, curl, chmod, mv, uv, poetry) are logged and assumed to exit 0. What they do to the disk, such as the Vite scaffold creating `client/` or package.json, is not modelled. The model's lemmas take those files as present or absent.
- Prompts and console messages are not modelled: the answers are inputs. This includes the default `index` HTML name (cli.py:20-23).
- `check_npm`, `check_uv`, `check_poetry` and the install instructions (src/hyperpytext/__init__.py:109-114, 255-257, 386-388; hyperpytext/__main__.py:239-241, 347-349) are taken as passing in the flows; in cli.py the presence of npm is an input. `check_tailwind_standalone` only chooses a message. The uv and poetry environment setup (`setup_uv_environment`, `setup_environment`) only runs commands and is not modelled.
- YAML parsing of templates is not modelled: each entry arrives with its parsed document, which is assumed to be one mapping or a list of mappings, each with string `filename` and `content` (`Templates.Doc`). Three cases cannot be expressed: an empty file, for which `yaml.safe_load` returns None and indexing it raises TypeError; a mapping without one of the two keys, which raises KeyError; and content that is not a string. JSON parsing and printing is the `Codec` parameter. The order of `os.listdir` is the order of the listing.
- `get_template_path` / `resource_filename` lookups are not modelled: the listing is given. In cli.py, `templates_dir = 'templates'` is relative and read after `os.chdir(app_dir)` (cli.py:16,47,63), so it names the folder just created; the listing stands for whatever is found there.
- `setup_shadcn_bun` (src/hyperpytext/utils/bun_utils.py:136-145) only runs commands in the client directory and is not modelled. So is `check_bun_package` (46-56), a mirror of the npm check.
- `install_types_node`'s try/except around a command (src/hyperpytext/utils/npm_shadcnui_utils.py:67-74) reduces to the logged command, as commands do not fail here.
- `os.chdir` does not check that the directory exists, and `open(p, 'w')` does not check that the parent directory exists.
- The ImportError that both generators raise at import time is not modelled (see the introduction). Each import that cannot resolve is bound to this definition:
  - `check_tailwind_standalone` and `setup_tailwind_standalone`, imported by `src/hyperpytext/__init__.py:6-11` from a module that lacks them, are bound to the versions in `utils/npm_tailwind_utils.py:53-56,85-107` (`TailwindLegacy.SetupTailwindStandaloneFn`; the check only chooses a message).
  - `check_npm_package`, imported by `hyperpytext/__main__.py:15` and `utils/npm_vite_utils.py:5` from `utils/npm_utils.py`, which lacks it, is bound to `src/hyperpytext/utils/npm_utils.py:46-56` (`NpmUtils.CheckPackageFn`).
- `utils/npm_utils.py` duplicates `check_system`/`check_npm`, modelled once in `NpmUtils`.
- Python's dict order is not modelled: JSON objects are maps, so the order of keys in a written file is not captured. When several update keys would each raise, which one raises first is not modelled either.
- `str.format` is modelled for the field forms templates use (`{name}`, `{{`, `}}`). Format specs, conversions and attribute or index fields are read as part of the field name. So an empty or all-digit field (`{}`, `{0}`), which Python reads as a positional index and rejects with IndexError because only keyword arguments are passed, is a KeyError for that name in the model.
- `NpmUtils.CheckPackageFn`: its own contract covers only the missing file; the full answer is stated by `NpmUtils.CheckPackageMeaning` under well-formed sections.
- `TailwindLegacy.UpdatePackageJsonFn`: its own contract covers only the failure paths; the merged result is stated by `TailwindLegacy.MergeFragmentScripts`.
- Templates.ExecFn: its Create case, and so every flow built on it (`Flows.ServerFn`, `Flows.ReactClientFn`, `Flows.VanillaFn`, `ClientFiles.CreateClientFilesFn`, `Cli.BuildFn`), writes through the corrected `create_file`. A template with a bare file name is therefore written in the working directory, where the program raises FileNotFoundError. The code as written is `Templates.CreateFileAsWritten` (see `Templates.CreateFileBareNameRaises`), and `Templates.CreateFileAgrees` shows the two agree on every name with a directory part.
- Paths are not normalised: `os.path.abspath(app_name)` (cli.py:46, src/hyperpytext/__init__.py:99,360, hyperpytext/__main__.py:98,334) is modelled as `Fs.Resolve`, a plain join with the working directory. An app name holding `.`, `..`, a doubled or a trailing `/` therefore names a different path in the model than in the program.

## Findings

| source | as written | input that shows it | evidently intended | confidence | as-written member | corrected member |
|---|---|---|---|---|---|---|
| cli.py:93 | `setup_tailwind_npm(app_dir)` calls a helper that takes `(project_dir, plugins)` | the npm Tailwind option with npm present: TypeError after the templates are written | call it with an empty plugin list, then merge the build-css script | not executed | `Cli.AsWrittenNpmRaises` | `Cli.CorrectedNpmMergesBuildCss` |
| src/hyperpytext/__init__.py:40-44 | `os.makedirs(os.path.dirname(filename), exist_ok=True)` for every file | a root template named `README.md`: `makedirs('')` raises FileNotFoundError | make the parent directory only when the name has one | not executed | `Templates.CreateFileBareNameRaises` | `Templates.CreateFileWrites` |
