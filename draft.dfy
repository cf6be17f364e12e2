/**
 The earlier draft of the engine (`moosecfg/core.py`): fixed tier files under
 `/etc/<name>`, `~/.config/<name>` and the working directory, loaded without
 readability gates, and merged with the same last-writer-wins fold.
 */
module Draft {
  import opened Values
  import opened Merge
  import opened Paths
  import opened Sources

  /** `__name__` of the module, the class-level default of `_name`. */
  const ModuleName := "moosecfg.core"
  /** `_MOOSE_CFG_FILE_EXTENSION`. */
  const DefaultExtension := "yml"

  /** `SYSTEM_OVERRIDE`, `LOAD_LOCAL_CFG`, `UPDATE_AT_INIT`. */
  datatype Flags = Flags(systemOverride: bool, loadLocalCfg: bool, updateAtInit: bool)

  /** The module's own defaults: no override, local loading on, no update at construction. */
  const DefaultFlags := Flags(false, true, false)

  /**
   `load_cfg_file(file)`: {} when `file` is not a regular file, else the
   decoded text; opening an unreadable file or decoding malformed text raises.
   */
  function LoadCfgFile(codec: Codec, entries: Entries, file: string): Result<Mapping, Error>
  {
    if file in entries && entries[file].RegularFile? then
      if !entries[file].readable then Err(PermissionDenied(file))
      else
        match codec.decode(entries[file].text)
        case None => Err(DecodeError(file))
        case Some(m) => Ok(m)
    else Ok(map[])
  }

  /** A load as a read effect: a raised error, or the new tier object. */
  function AsEffect(r: Result<Mapping, Error>): ReadEffect
  {
    match r
    case Ok(m) => Replaced(m)
    case Err(e) => Failed(e)
  }

  /** The draft loads a file exactly as the YAML source reads one: the two agree in this model; in the source they differ on an empty file (see README). */
  lemma LoadCfgFileMatchesYamlRead(codec: Codec, entries: Entries, file: string)
    ensures AsEffect(LoadCfgFile(codec, entries, file)) == ReadEffectOf(YamlFile, codec, file, entries)
    ensures !IsFile(entries, file) ==> LoadCfgFile(codec, entries, file) == Ok(map[])
  {
  }

  class MooseConfigurator {
    const name: string
    const extension: string
    const defaults: Mapping
    const flags: Flags
    /** The home directory (`expanduser('~')`) and `os.getcwd()`. */
    const home: string
    const cwd: string
    const codec: Codec
    var systemCfg: Mapping
    var userCfg: Mapping
    var localCfg: Mapping
    var obj: Mapping

    /**
     The part of `__init__` that cannot fail: store the arguments (a falsy one
     keeps the class default). `defaults` is stored and never merged into `obj`.
     Loading and updating are `Initialize`.
     */
    constructor (name: string, extension: string, defaults: Mapping, flags: Flags, home: string, cwd: string, codec: Codec)
      ensures this.name == (if name != "" then name else ModuleName)
      ensures this.extension == (if extension != "" then extension else DefaultExtension)
      ensures this.defaults == defaults && this.flags == flags && this.home == home && this.cwd == cwd
      ensures this.codec == codec
      ensures obj == map[] && systemCfg == map[] && userCfg == map[] && localCfg == map[]
    {
      this.name := if name != "" then name else ModuleName;
      this.extension := if extension != "" then extension else DefaultExtension;
      this.defaults := defaults;
      this.flags := flags;
      this.home := home;
      this.cwd := cwd;
      this.codec := codec;
      systemCfg, userCfg, localCfg := map[], map[], map[];
      obj := map[];
    }

    /** `file_name`: `<name>.<extension>`. */
    function FileName(): string
    {
      name + "." + extension
    }

    /** `system_cfg_path`, `system_cfg_file`: `/etc/<name>/<file_name>`. */
    function SystemCfgPath(): string
    {
      "/etc/" + name
    }

    function SystemCfgFile(): string
    {
      Join(SystemCfgPath(), FileName())
    }

    /** `user_cfg_path`, `user_cfg_file`: `~/.config/<name>/<file_name>`. */
    function UserCfgPath(): string
    {
      Join(Join(home, ".config"), name)
    }

    function UserCfgFile(): string
    {
      Join(UserCfgPath(), FileName())
    }

    /** `local_cfg_path`, `local_cfg_file`: `<cwd>/.<file_name>`, always hidden. */
    function LocalCfgPath(): string
    {
      cwd
    }

    function LocalCfgFile(): string
    {
      Join(LocalCfgPath(), "." + FileName())
    }

    function Cfgs(): TierObjects
      reads this
    {
      TierObjects(systemCfg, userCfg, localCfg)
    }

    /** The tier objects and the outcome that `load()` produces on `entries`. */
    function LoadPlan(entries: Entries): (TierObjects, Outcome)
      reads this
    {
      ReadInOrder(AsEffect(LoadCfgFile(codec, entries, SystemCfgFile())),
                  AsEffect(LoadCfgFile(codec, entries, UserCfgFile())),
                  if flags.loadLocalCfg then AsEffect(LoadCfgFile(codec, entries, LocalCfgFile())) else Kept,
                  Cfgs())
    }

    method SystemCfgLoad(fs: FileSystem) returns (r: Outcome)
      modifies this`systemCfg
      ensures var l := LoadCfgFile(codec, fs.entries, SystemCfgFile());
              r == OutcomeOf(AsEffect(l)) && systemCfg == ApplyRead(AsEffect(l), old(systemCfg))
    {
      var l := LoadCfgFile(codec, fs.entries, SystemCfgFile());
      if l.Err? {
        return Fail(l.error);
      }
      systemCfg := l.value;
      r := Pass;
    }

    method UserCfgLoad(fs: FileSystem) returns (r: Outcome)
      modifies this`userCfg
      ensures var l := LoadCfgFile(codec, fs.entries, UserCfgFile());
              r == OutcomeOf(AsEffect(l)) && userCfg == ApplyRead(AsEffect(l), old(userCfg))
    {
      var l := LoadCfgFile(codec, fs.entries, UserCfgFile());
      if l.Err? {
        return Fail(l.error);
      }
      userCfg := l.value;
      r := Pass;
    }

    method LocalCfgLoad(fs: FileSystem) returns (r: Outcome)
      modifies this`localCfg
      ensures var l := LoadCfgFile(codec, fs.entries, LocalCfgFile());
              r == OutcomeOf(AsEffect(l)) && localCfg == ApplyRead(AsEffect(l), old(localCfg))
    {
      var l := LoadCfgFile(codec, fs.entries, LocalCfgFile());
      if l.Err? {
        return Fail(l.error);
      }
      localCfg := l.value;
      r := Pass;
    }

    /** `load()`: system and user always, local iff `LOAD_LOCAL_CFG`; a raising load stops the rest. */
    method Load(fs: FileSystem) returns (r: Outcome)
      modifies this`systemCfg, this`userCfg, this`localCfg
      ensures (Cfgs(), r) == old(LoadPlan(fs.entries))
    {
      r := SystemCfgLoad(fs);
      if r.Fail? {
        return;
      }
      r := UserCfgLoad(fs);
      if r.Fail? {
        return;
      }
      if flags.loadLocalCfg {
        r := LocalCfgLoad(fs);
      }
    }

    /** `_obj_update(m)`: `obj.update(m)`. */
    method ObjUpdate(m: Mapping)
      modifies this`obj
      ensures obj == Merge.Update(old(obj), m)
    {
      obj := obj + m;
    }

    /** `_obj_setdefault(k, v)`: never overwrites an existing key. */
    method ObjSetDefault(k: string, v: Value)
      modifies this`obj
      ensures obj == SetDefault(old(obj), k, v)
    {
      if k !in obj {
        obj := obj[k := v];
      }
    }

    method SystemCfgUpdate()
      modifies this`obj
      ensures obj == Merge.Update(old(obj), systemCfg)
    {
      ObjUpdate(systemCfg);
    }

    method UserCfgUpdate()
      modifies this`obj
      ensures obj == Merge.Update(old(obj), userCfg)
    {
      ObjUpdate(userCfg);
    }

    method LocalCfgUpdate()
      modifies this`obj
      ensures obj == Merge.Update(old(obj), localCfg)
    {
      ObjUpdate(localCfg);
    }

    /** `update()`: system, user, local, then system again under `SYSTEM_OVERRIDE`. */
    method Update()
      modifies this`obj
      ensures obj == Merged(old(obj), systemCfg, userCfg, localCfg, flags.systemOverride)
    {
      SystemCfgUpdate();
      UserCfgUpdate();
      LocalCfgUpdate();
      if flags.systemOverride {
        SystemCfgUpdate();
      }
    }

    /** `obj` after `__init__` on `entries`: merged with the loaded files iff `UPDATE_AT_INIT` and loading passed. */
    function InitObj(entries: Entries): Mapping
      reads this
    {
      var plan := LoadPlan(entries);
      if plan.1.Pass? && flags.updateAtInit
      then Merged(obj, plan.0.sys, plan.0.usr, plan.0.loc, flags.systemOverride)
      else obj
    }

    /** The rest of `__init__`: `load()`, then `update()` iff `UPDATE_AT_INIT`, the only way `obj` changes here. */
    method Initialize(fs: FileSystem) returns (r: Outcome)
      modifies this`systemCfg, this`userCfg, this`localCfg, this`obj
      ensures var plan := old(LoadPlan(fs.entries));
              Cfgs() == plan.0 && r == plan.1 && obj == old(InitObj(fs.entries))
    {
      r := Load(fs);
      if r.Fail? {
        return;
      }
      if flags.updateAtInit {
        Update();
      }
    }
  }

  /**
   The tier files: `/etc/<name>/<file_name>`, `<home>/.config/<name>/<file_name>`
   and `<cwd>/.<file_name>`; only the local one is dot-prefixed, unconditionally.
   */
  lemma TierFiles(d: MooseConfigurator)
    requires '/' !in d.name && '/' !in d.extension && d.home != "" && d.cwd != ""
    ensures BaseName(d.SystemCfgFile()) == d.FileName() && DirName(d.SystemCfgFile()) == "/etc/" + d.name
    ensures BaseName(d.UserCfgFile()) == d.FileName() && DirName(d.UserCfgFile()) == d.home + "/.config/" + d.name
    ensures BaseName(d.LocalCfgFile()) == "." + d.FileName() && DirName(d.LocalCfgFile()) == d.cwd
  {
    assert '/' !in d.FileName();
    assert '/' !in "." + d.FileName();
    BaseNameOfJoin(d.SystemCfgPath(), d.FileName());
    DirNameOfJoin(d.SystemCfgPath(), d.FileName());
    BaseNameOfJoin(d.UserCfgPath(), d.FileName());
    DirNameOfJoin(d.UserCfgPath(), d.FileName());
    assert d.UserCfgPath() == d.home + "/.config/" + d.name;
    BaseNameOfJoin(d.cwd, "." + d.FileName());
    DirNameOfJoin(d.cwd, "." + d.FileName());
  }

  /** `load()` touches the local tier only when `LOAD_LOCAL_CFG` is on. */
  lemma LocalLoadedOnlyWhenEnabled(d: MooseConfigurator, entries: Entries)
    requires !d.flags.loadLocalCfg
    ensures d.LoadPlan(entries).0.loc == d.localCfg
  {
  }

  /**
   Under the module's own flags (`UPDATE_AT_INIT` off) `__init__` leaves `obj`
   empty whatever the files hold, while `load()` still reads the local file.
   */
  lemma DefaultFlagsLeaveObjEmpty(d: MooseConfigurator, entries: Entries)
    requires d.flags == DefaultFlags && d.obj == map[]
    ensures d.InitObj(entries) == map[]
    ensures d.LoadPlan(entries).1.Pass? ==>
              d.LoadPlan(entries).0.loc == ApplyRead(AsEffect(LoadCfgFile(d.codec, entries, d.LocalCfgFile())), d.localCfg)
  {
  }
}
