/**
 The directory helper of moosecfg (`MooseDirs`): per-tier base directories
 taken from `MOOSE_*` environment variables or fixed defaults, a class-level
 list of path segments that every instance appends to, and the file names
 `<name>.cfg`, `<name>.db` and `<name>.cache`.
 */
module Dirs {
  import opened Paths

  const EnvPrefix := "MOOSE"

  datatype Tier = System | User | Local
  datatype Kind = Config | Data | Cache

  function TierWord(t: Tier): string
  {
    match t
    case System => "SYSTEM"
    case User => "USER"
    case Local => "LOCAL"
  }

  function KindWord(k: Kind): string
  {
    match k
    case Config => "CONFIG"
    case Data => "DATA"
    case Cache => "CACHE"
  }

  /** The environment variable that overrides one base directory: `MOOSE_<TIER>_<KIND>`. */
  function EnvVar(t: Tier, k: Kind): string
  {
    EnvPrefix + "_" + TierWord(t) + "_" + KindWord(k)
  }

  /** The file extension per kind: `config_ext`, `data_ext`, `cache_ext`. */
  function Extension(k: Kind): string
  {
    match k
    case Config => "cfg"
    case Data => "db"
    case Cache => "cache"
  }

  /** What the platform supplies: the working directory and the XDG base directories. */
  datatype Platform = Platform(cwd: string, xdgConfigHome: string, xdgDataHome: string, xdgCacheHome: string)

  /** The base directory used when its environment variable is not set. */
  function DefaultBase(t: Tier, k: Kind, platform: Platform): string
  {
    match (t, k)
    case (System, Config) => "/etc"
    case (System, Data) => "/var/run"
    case (System, Cache) => "/tmp"
    case (User, Config) => platform.xdgConfigHome
    case (User, Data) => platform.xdgDataHome
    case (User, Cache) => platform.xdgCacheHome
    case (Local, Config) => platform.cwd
    case (Local, Data) => Join(platform.cwd, "data")
    case (Local, Cache) => Join(platform.cwd, ".cache")
  }

  /** `os.getenv(key, default)`. */
  function GetEnv(env: map<string, string>, key: string, default: string): string
  {
    if key in env then env[key] else default
  }

  /** A base directory: the value of `MOOSE_<TIER>_<KIND>` when it is set, otherwise the default. */
  function BaseDir(env: map<string, string>, platform: Platform, t: Tier, k: Kind): string
  {
    GetEnv(env, EnvVar(t, k), DefaultBase(t, k, platform))
  }

  /** The override variables have the names the library documents, and the system config root is `/etc`. */
  lemma BaseDirVariables(env: map<string, string>, platform: Platform)
    ensures EnvVar(System, Config) == "MOOSE_SYSTEM_CONFIG"
    ensures EnvVar(User, Config) == "MOOSE_USER_CONFIG"
    ensures EnvVar(Local, Config) == "MOOSE_LOCAL_CONFIG"
    ensures "MOOSE_SYSTEM_CONFIG" !in env ==> BaseDir(env, platform, System, Config) == "/etc"
    ensures "MOOSE_SYSTEM_CONFIG" in env ==> BaseDir(env, platform, System, Config) == env["MOOSE_SYSTEM_CONFIG"]
    ensures "MOOSE_LOCAL_CONFIG" !in env ==> BaseDir(env, platform, Local, Config) == platform.cwd
  {
  }

  /**
   The class object of `MooseDirs`: its class-level attributes, shared by all
   instances. `joins` is the class-level `_joins` list that every constructor
   appends to; the base directories are read from the environment once.
   */
  class DirsClass {
    var joins: seq<string>
    const env: map<string, string>
    const platform: Platform
    const localHidden: bool

    constructor (env: map<string, string>, platform: Platform, localHidden: bool)
      ensures joins == []
      ensures this.env == env && this.platform == platform && this.localHidden == localHidden
    {
      this.env := env;
      this.platform := platform;
      this.localHidden := localHidden;
      joins := [];
    }
  }

  class MooseDirs {
    const name: string
    const cls: DirsClass

    /**
     `MooseDirs(name, append)`: appends `name`, then `append` when it is truthy,
     to the shared list, so the list only grows and later instances see the
     names of earlier ones.
     */
    constructor (cls: DirsClass, name: string, append: string)
      modifies cls
      ensures this.name == name && this.cls == cls
      ensures cls.joins == old(cls.joins) + [name] + (if append != "" then [append] else [])
    {
      this.name := name;
      this.cls := cls;
      new;
      cls.joins := cls.joins + [name];
      if append != "" {
        cls.joins := cls.joins + [append];
      }
    }

    /** `_join(location)`: joins every shared segment onto `location`, in list order. */
    method JoinLocation(location: string) returns (r: string)
      ensures r == JoinAll(location, cls.joins)
    {
      r := location;
      var i := 0;
      while i < |cls.joins|
        invariant 0 <= i <= |cls.joins|
        invariant r == JoinAll(location, cls.joins[..i])
      {
        assert cls.joins[..i + 1][..i] == cls.joins[..i];
        r := Join(r, cls.joins[i]);
        i := i + 1;
      }
      assert cls.joins[..i] == cls.joins;
    }

    function Base(t: Tier, k: Kind): string
    {
      BaseDir(cls.env, cls.platform, t, k)
    }

    /**
     The directory of one tier and kind: `system_config`, `user_data`, ... pass
     the base through `_join`; the local directories are the bare base.
     */
    function Location(t: Tier, k: Kind): string
      reads cls
    {
      if t == Local then Base(t, k) else JoinAll(Base(t, k), cls.joins)
    }

    /** `<name>.<ext>`, with a leading dot for the local config file when `local_hidden`. */
    function FileName(t: Tier, k: Kind): string
    {
      (if t == Local && k == Config && cls.localHidden then "." else "") + name + "." + Extension(k)
    }

    lemma FileNameIsLastComponent(t: Tier, k: Kind)
      ensures '/' !in name ==> BaseName(Join(Location(t, k), FileName(t, k))) == FileName(t, k)
    {
      if '/' !in name {
        assert '/' !in Extension(k);
        assert '/' !in FileName(t, k);
        BaseNameOfJoin(Location(t, k), FileName(t, k));
      }
    }

    /**
     The file of one tier and kind (`system_config_file`, `local_cache_file`, ...):
     the base directory, then the shared segments unless the tier is local, then
     the file name as the last component.
     */
    function File(t: Tier, k: Kind): (r: string)
      reads cls
      ensures r == JoinAll(Base(t, k), (if t == Local then [] else cls.joins) + [FileName(t, k)])
      ensures '/' !in name ==> BaseName(r) == FileName(t, k)
    {
      var segs := if t == Local then [] else cls.joins;
      JoinAllConcat(Base(t, k), segs, [FileName(t, k)]);
      assert JoinAll(JoinAll(Base(t, k), segs), [FileName(t, k)])
          == Join(JoinAll(JoinAll(Base(t, k), segs), []), FileName(t, k));
      FileNameIsLastComponent(t, k);
      Join(Location(t, k), FileName(t, k))
    }
  }
}
