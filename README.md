# moosecfg in Dafny: the layered configuration merge engine

This project models the core of moosecfg, a Python library that resolves an
application's configuration from three tiers: system-wide, per-user and
local (working directory). The model covers four parts.

- **Merge engine** (`moosecfg/config.py`, module `Configurator`). A class
  `MooseConfigurator` holds one unified mapping `obj`. It seeds `obj` from
  the defaults with set-if-absent semantics. It creates one source per tier.
  `read()` reads each tier behind its readability gate, and the local tier
  only when `LOCAL_FILE_READ` is also set. `update()` folds the
  tiers into `obj` in the order system, user, local, last writer wins, and
  applies system once more under `SYSTEM_OVERRIDE`. `write()` writes back
  the system and user tiers when writable, and the local tier when writable
  and `LOCAL_FILE_READ` is set.
- **Earlier draft of the engine** (`moosecfg/core.py`, module `Draft`). It
  has fixed tier files under `/etc/<name>`, `~/.config/<name>` and the
  working directory (always hidden). It loads the tiers without readability
  gates and uses the same fold.
- **Sources** (`moosecfg/sources.py`, module `Sources`). One class covers
  both source types, told apart by a tag: the base source and the YAML file
  source. The filesystem is a map from path to entry. An entry is either a
  directory or a regular file with read and write bits and text. The YAML
  library is an abstract codec given by two functions.
- **Directories** (`moosecfg/utils.py`, module `Dirs`). `MooseDirs` has a
  class-level segment list that every constructor appends to. Each base
  directory comes from a `MOOSE_*` variable when set, otherwise from a fixed
  default. File names are `<name>.cfg`, `.db` and `.cache`, and the local
  config file gets a leading dot.

The shared pieces are `Values` (the decoded value type and `Mapping`),
`Merge` and `Paths`. `Merge` holds `dict.update`, `dict.setdefault` and the
tier fold, with the precedence contract proved against an independent
ranking of the tiers. `Paths` models join, basename and dirname over `/`.

The Python constructors can raise part-way. Each one is modelled as two
members. The Dafny constructor does the steps that cannot fail. A method
`Initialize(fs)` does the rest: it reads or loads the tiers, then updates
`obj` when the flag is set. It returns an `Outcome`, and a raising step
stops the sequence.

The model keeps these behaviours of the code, even where a reader might expect otherwise:
- In `config.py`, `read()` and `write()` do not go on after one tier raises.
  The exception stops the remaining tiers (`Sources.ReadInOrder`,
  `Configurator.MooseConfigurator.WritePlan`).
- The default extension is `cfg` in `config.py` and `yml` in `core.py`. The `config.py` docstring agrees with its code.
- The draft stores `defaults` but never merges them into `obj`.
- `is_writable` is false for a missing file.

## Model

| member | source | states |
|---|---|---|
| `Merge.Update` | moosecfg/config.py:124-126 | `dict.update`: the keys are the union; keys of the argument take its values; the other keys keep theirs |
| `Merge.SetDefault` | moosecfg/config.py:130-132 | `setdefault`: adds the key only when absent; no existing value changes, no key is removed |
| `Merge.SetDefaults` | moosecfg/config.py:142-145 | applying every default: keys are the union, existing values are kept, absent keys get the default value |
| `Merge.SetDefaultsStep` | moosecfg/config.py:144-145 | one more `setdefault` of a new key equals applying the enlarged defaults, so the key order of the loop does not matter |
| `Merge.Merged` | moosecfg/config.py:234-241 | the object after `update()`: the prior object updated with system, user and local in that order, and with system once more iff `SYSTEM_OVERRIDE`; its precedence is proved in `MergedFollowsRanking` |
| `Merge.MergedFollowsRanking` | moosecfg/config.py:234-241 | for every key, the fold system, user, local (then system under override) yields, presence and value alike, the highest-ranked layer holding it: local > user > system > prior, or system > local > user > prior under override |
| `Merge.MergedKeys` | moosecfg/config.py:234-241 | the merged keys are exactly the prior keys plus every tier's keys: no key is lost, and user-only and local-only keys survive either way |
| `Merge.OverrideOnlyAffectsSystemKeys` | moosecfg/config.py:240-241 | under override system values win on every system key; every other key has the same value as without override |
| `Merge.MergedIdempotent` | moosecfg/config.py:234-241 | running the fold again with unchanged tiers gives back the same object |
| `Merge.DisjointTiersIgnoreOverride` | moosecfg/config.py:234-241 | with pairwise disjoint tiers the override flag changes nothing, and each tier's keys carry that tier's values |
| `Merge.DefaultsLowestPrecedence` | moosecfg/config.py:96-117 | after seeding from defaults and merging, a default survives when no tier sets its key, and a system value beats it |
| `Paths.Join` | moosecfg/utils.py:75 | `os.path.join(a, b)` for a relative `b`: `a`, one '/', then `b` |
| `Paths.JoinAll` | moosecfg/utils.py:74-77 | the left fold of `Join` over the segments in list order from the base; `JoinAllConcat` splits it over a concatenation |
| `Paths.BaseName` | moosecfg/utils.py:146 | the last path component: a slash-free suffix of the path, used to state which file name a location ends in |
| `Paths.DirName` | moosecfg/sources.py:153 | `os.path.dirname`: what precedes the last '/', "/" when that is the first character, "" when there is none; `DirNameOfJoin` gives it back the joined directory |
| `Paths.LastSlashOfJoin` | moosecfg/config.py:186-192 | the last '/' of `a` joined with a slash-free `b` is the one the join inserted, right after `a` |
| `Paths.JoinAllConcat` | moosecfg/utils.py:72-77 | the left fold of path-join over two lists in a row is the fold over their concatenation |
| `Paths.BaseNameOfJoin` | moosecfg/config.py:186-192 | the last component of `a` joined with a slash-free `b` is `b` |
| `Paths.DirNameOfJoin` | moosecfg/sources.py:153-155 | the directory of a non-empty `a` joined with a slash-free `b` is `a` |
| `Dirs.Extension` | moosecfg/utils.py:23-25 | the file extension of each kind: `cfg` for config, `db` for data, `cache` for cache |
| `Dirs.GetEnv` | moosecfg/utils.py:28-55 | `os.getenv(key, default)`: the environment's value when the key is set, else the default |
| `Dirs.EnvVar` | moosecfg/utils.py:11-49 | the override variable of one base directory is `MOOSE_<TIER>_<KIND>`; `BaseDirVariables` pins the config names |
| `Dirs.DefaultBase` | moosecfg/utils.py:12-55 | the fallback directories: `/etc`, `/var/run`, `/tmp` for system; the XDG homes for user; the working directory, its `data` and its `.cache` for local |
| `Dirs.BaseDir` | moosecfg/utils.py:28-55 | a base directory is the environment value of its `MOOSE_*` variable when set, else its fallback |
| `Dirs.BaseDirVariables` | moosecfg/utils.py:11-55 | the override variables are named `MOOSE_SYSTEM_CONFIG`, `MOOSE_USER_CONFIG`, `MOOSE_LOCAL_CONFIG`; an unset system config variable gives `/etc`, a set one its value; an unset local one gives the working directory |
| `Dirs.DirsClass.constructor` | moosecfg/utils.py:21-55 | the class-level state: the shared `_joins` list starts empty, and the environment, platform directories and `local_hidden` are fixed once |
| `Dirs.MooseDirs.constructor` | moosecfg/utils.py:64-70 | appends `name`, then `append` iff it is non-empty, to the shared list; the list only grows, so later instances see earlier names |
| `Dirs.MooseDirs.JoinLocation` | moosecfg/utils.py:72-77 | `_join` returns the left fold of path-join over the shared list, in list order, from the given base |
| `Dirs.MooseDirs.Location` | moosecfg/utils.py:79-132 | `system_*` and `user_*` directories are their base passed through `_join`; the local ones are the bare base |
| `Dirs.MooseDirs.FileName` | moosecfg/utils.py:139-146 | the file name `<name>.<ext>` with ext cfg, db or cache, dot-prefixed only for the local config file when `local_hidden`; `FileNameIsLastComponent` shows it is the last component of its file |
| `Dirs.MooseDirs.FileNameIsLastComponent` | moosecfg/utils.py:79-156 | for a slash-free name, each tier's directory joined with its file name has that file name as its last component |
| `Dirs.MooseDirs.File` | moosecfg/utils.py:79-156 | every `*_file` is the base directory, then the shared segments (not for local), then `name.ext` with ext cfg/db/cache and a dot only for the hidden local config file, as last component |
| `Sources.Source.constructor` | moosecfg/sources.py:28-46 | `name` and `location` are exactly the arguments; `obj` and `meta` start empty |
| `Sources.Source.IsReadable` | moosecfg/sources.py:121-129 | the YAML source is readable iff its location exists, is a regular file and has read access; the base source always is |
| `Sources.Source.IsWritable` | moosecfg/sources.py:131-139 | the YAML source is writable iff its location exists, is a regular file and has write access; a missing file never is; the base source never is |
| `Sources.Source.Read` | moosecfg/sources.py:141-148 | replaces `obj` with the decoded file, or with {} when the location is not a regular file; an unreadable file or malformed text raises and keeps `obj`; the base source changes nothing |
| `Sources.Source.Write` | moosecfg/sources.py:151-161 | creates the parent directory unless it is one, then stores the encoding of `obj` overlaid with `meta`; `obj` and `meta` are unchanged; the base source changes nothing |
| `Sources.FileSystem.Mkdir` | moosecfg/sources.py:154-155 | `os.mkdir` creates a directory, failing on `""` and on an existing path |
| `Sources.FileSystem.Store` | moosecfg/sources.py:160-161 | `open(p, 'w').write` replaces a writable file's text or creates a file; it fails on a directory or a read-only file |
| `Sources.MakeDir` | moosecfg/sources.py:154-155 | `os.mkdir`: adds a directory, failing on `""` and on a path that exists, and then changes nothing |
| `Sources.WriteText` | moosecfg/sources.py:160-161 | `open(p, 'w').write`: fails on a directory or a read-only file and changes nothing then; otherwise the file at `p` holds the text and keeps its read bit, or is a new readable, writable file |
| `Sources.ReadEffectOf` | moosecfg/sources.py:141-148 | one `read()`: the base source keeps its object; the YAML source replaces it with {} off a regular file, raises on a file without read access or with malformed text, else replaces it with the decoded map |
| `Sources.WriteEffectOf` | moosecfg/sources.py:151-161 | one `write()`: the base source changes nothing; the YAML source makes the parent unless it is a directory, stops if that fails, then stores `encode(obj + meta)` |
| `Sources.BaseSourceIsInert` | moosecfg/sources.py:48-64 | the base source's read keeps its object and its write leaves the filesystem unchanged and succeeds |
| `Sources.ReadOfNonFileIsEmpty` | moosecfg/sources.py:143-148 | a YAML source whose location is missing or not a regular file reads as {} |
| `Sources.ReadableReadFailsOnlyOnDecode` | moosecfg/sources.py:121-148 | reading a source that reports itself readable can fail only with a decode error at its location |
| `Sources.WritableWriteStores` | moosecfg/sources.py:151-161 | writing a writable YAML file whose parent is a directory stores exactly `encode(obj + meta)` there (so `meta` keys win) and changes nothing else |
| `Sources.WriteCreatesMissingParent` | moosecfg/sources.py:153-156 | a missing parent directory exists after `write()`, whatever happens to the file |
| `Sources.WriteThenRead` | moosecfg/sources.py:141-161 | after a successful write of a new or readable file, with a codec that decodes what it encodes, reading gives back `obj` overlaid with `meta` |
| `Sources.ReadInOrder` | moosecfg/config.py:221-230 | reads system, user, local in that order; the outcome is a pass iff no read raised, and the first error is the one reported; the first raising read stops the later ones, and each unread tier keeps its object |
| `Configurator.MooseConfigurator.constructor` | moosecfg/config.py:78-107 | a falsy argument keeps the class default (`moosecfg.config`, `MOOSE_EXTENSION` or `cfg`); `obj` is the defaults; three fresh, empty sources named system/user/local sit at the computed locations and share the engine's codec |
| `Configurator.Filename` | moosecfg/config.py:167-170 | the configuration file name `<name>.<extension>` |
| `Configurator.SystemLocation` | moosecfg/config.py:172-178 | item 1 of the system entry of `sources` when there is one, else the system config directory joined with the file name |
| `Configurator.UserLocation` | moosecfg/config.py:180-183 | the user config directory joined with the file name |
| `Configurator.LocalLocation` | moosecfg/config.py:185-192 | the local config directory joined with the file name, dot-prefixed iff `LOCAL_FILE_HIDDEN` |
| `Configurator.MooseConfigurator.ObjUpdate` | moosecfg/config.py:124-128 | `obj` becomes `old obj` updated with the argument |
| `Configurator.MooseConfigurator.ObjSetDefault` | moosecfg/config.py:130-135 | `obj` gets the key only when it was absent |
| `Configurator.MooseConfigurator.UpdateFromDefaults` | moosecfg/config.py:142-145 | after the loop, `obj` is `old obj` with every absent default key added |
| `Configurator.MooseConfigurator.Read` | moosecfg/config.py:221-230 | the tier objects and the outcome are those of reading system iff readable, user iff readable, local iff readable and `LOCAL_FILE_READ`, stopping at the first error; only the tier objects may change, never `meta` |
| `Configurator.MooseConfigurator.ReadPlan` | moosecfg/config.py:221-230 | the tier objects and outcome of `read()`: each tier's effect gated by `is_readable` (and `LOCAL_FILE_READ` for local), applied in order by `ReadInOrder` |
| `Configurator.MooseConfigurator.Gated` | moosecfg/config.py:223-230 | one gated `read()`: the source's read effect when it is readable and its tier is enabled, otherwise its object is kept |
| `Configurator.MooseConfigurator.UpdateFromSource` | moosecfg/config.py:216-219 | `obj` is updated with the source's object |
| `Configurator.MooseConfigurator.Update` | moosecfg/config.py:234-243 | `obj` becomes old + system + user + local, then + system again iff `SYSTEM_OVERRIDE` |
| `Configurator.MooseConfigurator.Write` | moosecfg/config.py:245-256 | the filesystem changes as writing system iff writable, user iff writable, then local iff writable and `LOCAL_FILE_READ` would, stopping at the first error; `obj` and the tier objects are unchanged |
| `Configurator.MooseConfigurator.WritePlan` | moosecfg/config.py:245-254 | the filesystem and outcome of `write()`: system iff writable, then user iff writable on the new filesystem, then local iff writable and `LOCAL_FILE_READ`, stopping at the first failure |
| `Configurator.MooseConfigurator.Initialize` | moosecfg/config.py:109-117 | `read()`, then `update()` iff `UPDATE_CFG_AT_INIT` and the read did not raise; otherwise `obj` is unchanged; no source's `meta` changes |
| `Configurator.LocationFileNames` | moosecfg/config.py:167-192 | user and (without a table location) system files end in `name.ext`; the system location is item 1 of its list when there is one; the local file ends in `.name.ext` iff `LOCAL_FILE_HIDDEN` |
| `Configurator.UnreadTiersKeepTheirObjects` | moosecfg/config.py:221-230 | an unreadable system or user source, or a local one that is unreadable or switched off, keeps its object through `read()` |
| `Configurator.GatedReadFailsOnlyOnDecode` | moosecfg/config.py:221-230 | because every read is gated by `is_readable`, `read()` can raise only a decode error |
| `Configurator.MissingLocalFileContributesNothing` | moosecfg/config.py:229-238 | with no local file, the local tier stays {} and the merge without override is the old object + system + user |
| `Configurator.NothingWritableWritesNothing` | moosecfg/config.py:245-254 | with no writable source, `write()` leaves the filesystem as it was and succeeds |
| `Draft.LoadCfgFileMatchesYamlRead` | moosecfg/core.py:193-200 | `load_cfg_file` gives {} for a path that is not a regular file, else the decoded text, failing exactly where the YAML source's read fails |
| `Draft.LoadCfgFile` | moosecfg/core.py:193-200 | `load_cfg_file`: {} when the path is not a regular file, a permission error without read access, a decode error on malformed text, else the decoded map |
| `Draft.MooseConfigurator.constructor` | moosecfg/core.py:37-48 | a falsy argument keeps the default (`moosecfg.core`, `yml`); `defaults` is stored but `obj` and the tier objects start empty |
| `Draft.MooseConfigurator.FileName` | moosecfg/core.py:87-90 | `file_name`: `<name>.<extension>` |
| `Draft.MooseConfigurator.SystemCfgPath` | moosecfg/core.py:97-100 | `system_cfg_path`: `/etc/<name>` |
| `Draft.MooseConfigurator.UserCfgPath` | moosecfg/core.py:123-126 | `user_cfg_path`: `<home>/.config` joined with the name |
| `Draft.MooseConfigurator.LocalCfgPath` | moosecfg/core.py:149-152 | `local_cfg_path`: the working directory |
| `Draft.MooseConfigurator.SystemCfgFile` | moosecfg/core.py:97-105 | `system_cfg_file`: `/etc/<name>` joined with the file name |
| `Draft.MooseConfigurator.UserCfgFile` | moosecfg/core.py:123-131 | `user_cfg_file`: `<home>/.config/<name>` joined with the file name |
| `Draft.MooseConfigurator.LocalCfgFile` | moosecfg/core.py:149-157 | `local_cfg_file`: the working directory joined with `.` and the file name |
| `Draft.MooseConfigurator.LoadPlan` | moosecfg/core.py:170-177 | the tier objects and outcome of `load()`: system, user, then local iff `LOAD_LOCAL_CFG`, each loaded with `load_cfg_file`, stopping at the first raise |
| `Draft.MooseConfigurator.SystemCfgLoad` | moosecfg/core.py:107-111 | `_system_cfg` becomes the loaded system file, or stays when loading raises |
| `Draft.MooseConfigurator.UserCfgLoad` | moosecfg/core.py:133-137 | `_user_cfg` becomes the loaded user file, or stays when loading raises |
| `Draft.MooseConfigurator.LocalCfgLoad` | moosecfg/core.py:159-163 | `_local_cfg` becomes the loaded local file, or stays when loading raises |
| `Draft.MooseConfigurator.Load` | moosecfg/core.py:170-177 | loads system and user always, local iff `LOAD_LOCAL_CFG`, stopping at the first error |
| `Draft.MooseConfigurator.ObjUpdate` | moosecfg/core.py:64-68 | `obj` becomes `old obj` updated with the argument |
| `Draft.MooseConfigurator.ObjSetDefault` | moosecfg/core.py:70-75 | `obj` gets the key only when it was absent |
| `Draft.MooseConfigurator.SystemCfgUpdate` | moosecfg/core.py:113-116 | `obj` is updated with `_system_cfg` |
| `Draft.MooseConfigurator.UserCfgUpdate` | moosecfg/core.py:139-142 | `obj` is updated with `_user_cfg` |
| `Draft.MooseConfigurator.LocalCfgUpdate` | moosecfg/core.py:165-168 | `obj` is updated with `_local_cfg` |
| `Draft.MooseConfigurator.Update` | moosecfg/core.py:181-191 | `obj` becomes old + system + user + local, then + system again iff `SYSTEM_OVERRIDE` |
| `Draft.MooseConfigurator.InitObj` | moosecfg/core.py:50-57 | `obj` after `__init__`: merged with the loaded files iff `UPDATE_AT_INIT` and loading passed, else unchanged |
| `Draft.MooseConfigurator.Initialize` | moosecfg/core.py:50-57 | the tier objects and outcome are those of `load()`, and `obj` is `InitObj`: updated iff `UPDATE_AT_INIT` and loading did not raise, otherwise unchanged |
| `Draft.TierFiles` | moosecfg/core.py:87-157 | the tier files are `/etc/<name>/<file_name>`, `<home>/.config/<name>/<file_name>` and `<cwd>/.<file_name>`, the local one always hidden |
| `Draft.LocalLoadedOnlyWhenEnabled` | moosecfg/core.py:176-177 | with `LOAD_LOCAL_CFG` off, `load()` keeps `_local_cfg` |
| `Draft.DefaultFlagsLeaveObjEmpty` | moosecfg/core.py:11-13 | with the module's default flags (`UPDATE_AT_INIT` false, `LOAD_LOCAL_CFG` true) `__init__` leaves `obj` empty, and a passing `load()` does load the local file |

## Left out

- HTTP sources (`MooseHttpYamlSource`, `MooseHttpJsonSource`): they do network I/O. Their `_res.status is 'OK'` test compares an int with a str, so it is never true.
- YAML parsing and dumping are done by an external library. They are the abstract `Codec`. `decode` returns None when the text is malformed or is not a mapping, and the model treats that as a decode error. That includes an empty file, where `safe_load` returns None. In `sources.py` the failure then comes at `.copy()`. In `core.py` the None is returned, and the error comes at the later `update()`. The model reports it at load time. So in the draft an empty or non-mapping file makes `load()` stop at that tier and skip the tiers after it, where `core.py:199` stores the None and goes on loading; and with `UPDATE_AT_INIT` off, the default, the Python `__init__` then never raises. A YAML list is also not a mapping, although `list.copy()` would accept it.
- Environment flags: `os.getenv` returns strings, so any set value is truthy, even `"False"`. The flags are plain booleans given to the constructor. Only `MOOSE_EXTENSION` and the `MOOSE_*` directory variables are read from an environment map.
- Path normalisation is not modelled: `os.path.abspath`, `expanduser`, `getcwd` and the `xdg` directories are given strings. `os.path.join` is `a + "/" + b`. So it does not model an absolute second argument resetting the path, a trailing slash on `a`, an empty `a` (`os.path.join('', b)` is `b`, so `MOOSE_LOCAL_CONFIG=""` gives a file relative to the working directory, where the model puts it under `/`), or `dirname` stripping repeated slashes.
- `os.mkdir` failing because the grandparent directory is missing, or with a permission error because the grandparent is not writable, is not modelled: `MakeDir` succeeds there. Neither is directory permission when a new file is created. A new file is readable and writable.
- `UPDATE_DIRS_AT_INIT` and `_init_dirs`: `MooseDirs()` is called with no name at class level (config.py:44), and `_init_dirs` passes keywords that `MooseDirs.__init__` does not take (config.py:196). Both calls raise. `dirs` is therefore a given record of the three config directories. Also, `environment` and `version` are stored but add no path segments.
- Class-level mutable state: in Python, `_obj`, `obj`, `meta` and the tier dicts are shared between instances, and so is `_joins`. The model gives each engine and source its own state. Only `Dirs.DirsClass` keeps the shared `_joins` list, because `MooseDirs` is written to rely on it.
- `MooseDirs` `append` as a list: joining a list would raise. `append` is a string, and "" stands for None.
- Logging and the `json.dumps` debug output.
- `moosecfg/secrets/*` is not part of this model. It is unfinished and cannot run.
- `moapp.py` and `tests/moapp.py` are print-only demo scripts and are not part of this model.
- `__repr__` and `__str__` of the sources are not modelled (string formatting only).
