/**
 The merge engine of moosecfg (`moosecfg/config.py`): one unified mapping
 seeded from defaults, three tier sources (system, user, local) read under
 readability gates, folded in fixed order with last-writer-wins, and the
 system tier re-applied last under `SYSTEM_OVERRIDE`.
 */
module Configurator {
  import opened Values
  import opened Merge
  import opened Paths
  import opened Sources

  /** `__name__` of the module, the class-level default of `_name`. */
  const ModuleName := "moosecfg.config"
  const ExtensionVar := "MOOSE_EXTENSION"
  const DefaultExtension := "cfg"

  /** The class-level switches, taken as booleans fixed at construction. */
  datatype Flags = Flags(updateCfgAtInit: bool, systemOverride: bool, localFileRead: bool, localFileHidden: bool)

  /** The directories the engine reads from `dirs`. */
  datatype ConfigDirs = ConfigDirs(systemConfig: string, userConfig: string, localConfig: string)

  /** One list of the `sources` table: the source class, then optional items (item 1: a system location). */
  datatype SourceSpec = SourceSpec(kind: SourceKind, extra: seq<string>)

  datatype SourceTable = SourceTable(system: SourceSpec, user: SourceSpec, local: SourceSpec)

  /** `filename`: `<name>.<extension>`. */
  function Filename(name: string, extension: string): string
  {
    name + "." + extension
  }

  /** `system_location`: item 1 of the system list when it has one, else the system directory joined with the file name. */
  function SystemLocation(dirs: ConfigDirs, sources: SourceTable, filename: string): string
  {
    if |sources.system.extra| > 0 then sources.system.extra[0] else Join(dirs.systemConfig, filename)
  }

  /** `user_location`: the user directory joined with the file name. */
  function UserLocation(dirs: ConfigDirs, filename: string): string
  {
    Join(dirs.userConfig, filename)
  }

  /** `local_location`: the local directory joined with the file name, dot-prefixed when `LOCAL_FILE_HIDDEN`. */
  function LocalLocation(dirs: ConfigDirs, flags: Flags, filename: string): string
  {
    Join(dirs.localConfig, if flags.localFileHidden then "." + filename else filename)
  }

  class MooseConfigurator {
    const name: string
    const environment: string
    const version: string
    const extension: string
    const defaults: Mapping
    const flags: Flags
    const dirs: ConfigDirs
    const sources: SourceTable
    var obj: Mapping
    var system: Source
    var user: Source
    var local: Source

    /** Three distinct sources, each at the location the engine computed for it. */
    ghost predicate Valid()
      reads this
    {
      && system != user && user != local && system != local
      && system.name == "system" && system.location == SystemLocation(dirs, sources, Filename(name, extension))
      && user.name == "user" && user.location == UserLocation(dirs, Filename(name, extension))
      && local.name == "local" && local.location == LocalLocation(dirs, flags, Filename(name, extension))
      && system.kind == sources.system.kind && user.kind == sources.user.kind && local.kind == sources.local.kind
    }

    /**
     The part of `__init__` that cannot fail: store the arguments (a falsy
     argument keeps the class default), create the three sources
     (`_init_sources`) and apply the defaults when there are any. Reading and
     updating are `Initialize`.
     */
    constructor (name: string, environment: string, version: string, extension: string, defaults: Mapping,
                 flags: Flags, env: map<string, string>, dirs: ConfigDirs, sources: SourceTable, codec: Codec)
      ensures Valid()
      ensures this.name == (if name != "" then name else ModuleName)
      ensures this.environment == environment && this.version == version
      ensures this.extension == (if extension != "" then extension
                                 else if ExtensionVar in env then env[ExtensionVar] else DefaultExtension)
      ensures this.defaults == defaults && this.flags == flags && this.dirs == dirs && this.sources == sources
      ensures obj == SetDefaults(map[], defaults)
      ensures fresh(system) && fresh(user) && fresh(local)
      ensures system.obj == map[] && user.obj == map[] && local.obj == map[]
      ensures system.meta == map[] && user.meta == map[] && local.meta == map[]
      ensures system.codec == codec && user.codec == codec && local.codec == codec
    {
      var fullName := if name != "" then name else ModuleName;
      var ext := if extension != "" then extension
                 else if ExtensionVar in env then env[ExtensionVar] else DefaultExtension;
      var file := Filename(fullName, ext);
      this.name := fullName;
      this.environment := environment;
      this.version := version;
      this.extension := ext;
      this.defaults := defaults;
      this.flags := flags;
      this.dirs := dirs;
      this.sources := sources;
      // _init_sources
      system := new Source("system", SystemLocation(dirs, sources, file), sources.system.kind, codec);
      user := new Source("user", UserLocation(dirs, file), sources.user.kind, codec);
      local := new Source("local", LocalLocation(dirs, flags, file), sources.local.kind, codec);
      new;
      obj := map[];
      if defaults != map[] {
        UpdateFromDefaults();
      }
    }

    /** `_obj_update(m)`: `obj.update(m)`. */
    method ObjUpdate(m: Mapping)
      modifies this`obj
      ensures obj == Merge.Update(old(obj), m)
    {
      obj := obj + m;
    }

    /** `_obj_setdefault(k, v)`: `obj.setdefault(k, v)`. */
    method ObjSetDefault(k: string, v: Value)
      modifies this`obj
      ensures obj == SetDefault(old(obj), k, v)
    {
      if k !in obj {
        obj := obj[k := v];
      }
    }

    /** `update_from_defaults`: `setdefault` for every default key, in whatever order the keys come. */
    method UpdateFromDefaults()
      modifies this`obj
      ensures obj == SetDefaults(old(obj), defaults)
    {
      var todo := defaults.Keys;
      ghost var done: set<string> := {};
      while todo != {}
        invariant todo + done == defaults.Keys && todo !! done
        invariant obj == SetDefaults(old(obj), map k | k in done :: defaults[k])
        decreases todo
      {
        var k :| k in todo;
        SetDefaultsStep(old(obj), map j | j in done :: defaults[j], k, defaults[k]);
        assert (map j | j in done :: defaults[j])[k := defaults[k]] == map j | j in done + {k} :: defaults[j];
        ObjSetDefault(k, defaults[k]);
        todo := todo - {k};
        done := done + {k};
      }
      assert (map k | k in done :: defaults[k]) == defaults;
    }

    /** The tier objects, system first. */
    function Tiers(): TierObjects
      reads this, system, user, local
    {
      TierObjects(system.obj, user.obj, local.obj)
    }

    /** What one gated `read()` call does: nothing unless the source is readable and the tier is enabled. */
    static function Gated(src: Source, enabled: bool, entries: Entries): ReadEffect
    {
      if src.IsReadable(entries) && enabled then ReadEffectOf(src.kind, src.codec, src.location, entries) else Kept
    }

    /** The tier objects and the outcome that `read()` produces on `entries`. */
    function ReadPlan(entries: Entries): (TierObjects, Outcome)
      reads this, system, user, local
    {
      ReadInOrder(Gated(system, true, entries), Gated(user, true, entries),
                  Gated(local, flags.localFileRead, entries), Tiers())
    }

    /**
     `read()`: system iff readable, user iff readable, local iff readable and
     `LOCAL_FILE_READ`, in that order; a raising read stops the rest.
     */
    method Read(fs: FileSystem) returns (r: Outcome)
      requires Valid()
      modifies system`obj, user`obj, local`obj
      ensures (Tiers(), r) == old(ReadPlan(fs.entries))
    {
      r := Pass;
      if system.IsReadable(fs.entries) {
        r := system.Read(fs);
        if r.Fail? {
          return;
        }
      }
      if user.IsReadable(fs.entries) {
        r := user.Read(fs);
        if r.Fail? {
          return;
        }
      }
      if local.IsReadable(fs.entries) && flags.localFileRead {
        r := local.Read(fs);
      }
    }

    /** `update_from_source(src)`: fold the source's object into `obj`. */
    method UpdateFromSource(src: Source)
      modifies this`obj
      ensures obj == Merge.Update(old(obj), src.obj)
    {
      ObjUpdate(src.obj);
    }

    /** `update()`: system, user, local, then system again under `SYSTEM_OVERRIDE`. */
    method Update()
      modifies this`obj
      ensures obj == Merged(old(obj), system.obj, user.obj, local.obj, flags.systemOverride)
    {
      UpdateFromSource(system);
      UpdateFromSource(user);
      UpdateFromSource(local);
      if flags.systemOverride {
        UpdateFromSource(system);
      }
    }

    /** The filesystem and the outcome that `write()` produces on `entries`. */
    function WritePlan(entries: Entries): (Entries, Outcome)
      reads this, system, user, local
    {
      var s := if system.IsWritable(entries)
               then WriteEffectOf(system.kind, system.codec, system.location, system.obj, system.meta, entries)
               else (entries, Pass);
      if s.1.Fail? then s
      else
        var u := if user.IsWritable(s.0)
                 then WriteEffectOf(user.kind, user.codec, user.location, user.obj, user.meta, s.0)
                 else (s.0, Pass);
        if u.1.Fail? then u
        else if local.IsWritable(u.0) && flags.localFileRead
        then WriteEffectOf(local.kind, local.codec, local.location, local.obj, local.meta, u.0)
        else (u.0, Pass)
    }

    /**
     `write()`: system iff writable, user iff writable, local iff writable and
     `LOCAL_FILE_READ`; it changes the filesystem only, never `obj` or a tier object.
     */
    method Write(fs: FileSystem) returns (r: Outcome)
      requires Valid()
      modifies fs
      ensures (fs.entries, r) == old(WritePlan(fs.entries))
      ensures obj == old(obj) && Tiers() == old(Tiers())
    {
      r := Pass;
      if system.IsWritable(fs.entries) {
        r := system.Write(fs);
        if r.Fail? {
          return;
        }
      }
      if user.IsWritable(fs.entries) {
        r := user.Write(fs);
        if r.Fail? {
          return;
        }
      }
      if local.IsWritable(fs.entries) && flags.localFileRead {
        r := local.Write(fs);
      }
    }

    /** The rest of `__init__`: `read()`, then `update()` iff `UPDATE_CFG_AT_INIT`; a raising read skips the update. */
    method Initialize(fs: FileSystem) returns (r: Outcome)
      requires Valid()
      modifies this`obj, system`obj, user`obj, local`obj
      ensures var plan := old(ReadPlan(fs.entries));
              Tiers() == plan.0 && r == plan.1
              && obj == if r.Pass? && flags.updateCfgAtInit
                        then Merged(old(obj), plan.0.sys, plan.0.usr, plan.0.loc, flags.systemOverride)
                        else old(obj)
    {
      r := Read(fs);
      if r.Fail? {
        return;
      }
      if flags.updateCfgAtInit {
        Update();
      }
    }
  }

  /**
   The file names: the user location ends in `<name>.<extension>` and so does
   the system one unless the `sources` table names a location; the local one
   ends in `.<name>.<extension>` when hidden and `<name>.<extension>` otherwise.
   */
  lemma LocationFileNames(dirs: ConfigDirs, sources: SourceTable, flags: Flags, name: string, extension: string)
    requires '/' !in name && '/' !in extension
    ensures var file := Filename(name, extension);
            && BaseName(UserLocation(dirs, file)) == file
            && (|sources.system.extra| == 0 ==> BaseName(SystemLocation(dirs, sources, file)) == file)
            && (|sources.system.extra| > 0 ==> SystemLocation(dirs, sources, file) == sources.system.extra[0])
            && BaseName(LocalLocation(dirs, flags, file)) == if flags.localFileHidden then "." + file else file
  {
    var file := Filename(name, extension);
    assert '/' !in file;
    assert '/' !in "." + file;
    BaseNameOfJoin(dirs.userConfig, file);
    BaseNameOfJoin(dirs.systemConfig, file);
    BaseNameOfJoin(dirs.localConfig, file);
    BaseNameOfJoin(dirs.localConfig, "." + file);
  }

  /**
   A tier that is not read keeps its object: an unreadable source, and the
   local source when `LOCAL_FILE_READ` is off, contribute nothing new.
   */
  lemma UnreadTiersKeepTheirObjects(c: MooseConfigurator, entries: Entries)
    ensures !c.system.IsReadable(entries) ==> c.ReadPlan(entries).0.sys == c.system.obj
    ensures !c.user.IsReadable(entries) ==> c.ReadPlan(entries).0.usr == c.user.obj
    ensures !(c.local.IsReadable(entries) && c.flags.localFileRead) ==> c.ReadPlan(entries).0.loc == c.local.obj
  {
  }

  /** Because every read is gated by `is_readable`, `read()` can only raise on a malformed file. */
  lemma GatedReadFailsOnlyOnDecode(c: MooseConfigurator, entries: Entries)
    requires c.ReadPlan(entries).1.Fail?
    ensures c.ReadPlan(entries).1.error.DecodeError?
  {
  }

  /**
   A missing local file, with local reading on or off: the local tier stays {}
   through `read()`, so the merge without override is the old object, then
   system, then user.
   */
  lemma MissingLocalFileContributesNothing(c: MooseConfigurator, entries: Entries)
    requires c.local.obj == map[] && c.local.location !in entries
    ensures var t := c.ReadPlan(entries).0;
            t.loc == map[] && Merged(c.obj, t.sys, t.usr, t.loc, false) == Update(Update(c.obj, t.sys), t.usr)
  {
  }

  /** With no writable source, `write()` leaves the filesystem exactly as it was. */
  lemma NothingWritableWritesNothing(c: MooseConfigurator, entries: Entries)
    requires !c.system.IsWritable(entries) && !c.user.IsWritable(entries) && !c.local.IsWritable(entries)
    ensures c.WritePlan(entries) == (entries, Pass)
  {
  }
}
