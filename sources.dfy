/**
 Configuration sources: the base source (always readable, never writable,
 reading and writing do nothing) and the YAML file source, over a model of
 the filesystem (a map from path to entry) and an abstract YAML codec.
 */
module Sources {
  import opened Values
  import opened Merge
  import opened Paths

  /** What a path names: a regular file with its access bits and text, or a directory. */
  datatype Entry = RegularFile(readable: bool, writable: bool, text: string) | Directory

  type Entries = map<string, Entry>

  /** The exceptions the file operations raise. */
  datatype Error =
    | PermissionDenied(path: string)  // open() without read or write access
    | DecodeError(path: string)       // the text does not decode to a mapping
    | FileExists(path: string)        // os.mkdir on an existing path
    | NoSuchPath(path: string)        // os.mkdir('')
    | IsADirectory(path: string)      // open(directory, 'w')

  datatype Outcome = Pass | Fail(error: Error)

  /**
   The YAML library, taken as given: `decode` is `yaml.safe_load` (None when the
   text is malformed or is not a mapping, including an empty file, which
   `safe_load` turns into None), `encode` is `yaml.safe_dump`.
   */
  datatype Codec = Codec(decode: string -> Option<Mapping>, encode: Mapping -> string)

  predicate IsFile(entries: Entries, p: string)
  {
    p in entries && entries[p].RegularFile?
  }

  predicate IsDir(entries: Entries, p: string)
  {
    p in entries && entries[p].Directory?
  }

  /** `os.mkdir(p)`: fails on "" and on a path that already exists. */
  function MakeDir(entries: Entries, p: string): (Entries, Outcome)
  {
    if p == "" then (entries, Fail(NoSuchPath(p)))
    else if p in entries then (entries, Fail(FileExists(p)))
    else (entries[p := Directory], Pass)
  }

  /**
   `open(p, 'w').write(text)`: replaces the text of a writable file, creates a
   new file, and fails on a directory or a file without write access.
   */
  function WriteText(entries: Entries, p: string, text: string): (Entries, Outcome)
  {
    if IsDir(entries, p) then (entries, Fail(IsADirectory(p)))
    else if IsFile(entries, p) then
      if entries[p].writable then (entries[p := RegularFile(entries[p].readable, true, text)], Pass)
      else (entries, Fail(PermissionDenied(p)))
    else (entries[p := RegularFile(true, true, text)], Pass)
  }

  /** The filesystem, the one piece of the outside world that sources change. */
  class FileSystem {
    var entries: Entries

    constructor (entries: Entries)
      ensures this.entries == entries
    {
      this.entries := entries;
    }

    method Mkdir(p: string) returns (r: Outcome)
      modifies this
      ensures (entries, r) == MakeDir(old(entries), p)
    {
      if p == "" {
        r := Fail(NoSuchPath(p));
      } else if p in entries {
        r := Fail(FileExists(p));
      } else {
        entries := entries[p := Directory];
        r := Pass;
      }
    }

    method Store(p: string, text: string) returns (r: Outcome)
      modifies this
      ensures (entries, r) == WriteText(old(entries), p, text)
    {
      if p in entries && entries[p].Directory? {
        r := Fail(IsADirectory(p));
      } else if p in entries {
        if entries[p].writable {
          entries := entries[p := RegularFile(entries[p].readable, true, text)];
          r := Pass;
        } else {
          r := Fail(PermissionDenied(p));
        }
      } else {
        entries := entries[p := RegularFile(true, true, text)];
        r := Pass;
      }
    }
  }

  /** The two source classes the engine instantiates: `MooseConfiguratorSource` and `MooseYamlSource`. */
  datatype SourceKind = BaseSource | YamlFile

  /** What one `read()` does to the source's object. */
  datatype ReadEffect = Kept | Replaced(m: Mapping) | Failed(error: Error)

  function ApplyRead(e: ReadEffect, prior: Mapping): Mapping
  {
    if e.Replaced? then e.m else prior
  }

  function OutcomeOf(e: ReadEffect): Outcome
  {
    if e.Failed? then Fail(e.error) else Pass
  }

  /**
   `read()`: the base source keeps its object; the YAML source replaces it with
   the decoded file, or with {} when the location is not a regular file.
   */
  function ReadEffectOf(kind: SourceKind, codec: Codec, location: string, entries: Entries): ReadEffect
  {
    if kind.BaseSource? then Kept
    else if !IsFile(entries, location) then Replaced(map[])
    else if !entries[location].readable then Failed(PermissionDenied(location))
    else
      match codec.decode(entries[location].text)
      case None => Failed(DecodeError(location))
      case Some(m) => Replaced(m)
  }

  /**
   `write()`: the base source does nothing; the YAML source creates the parent
   directory unless it is one already, then stores `obj` overlaid with `meta`.
   A failed `mkdir` stops the write; a failed store leaves the new directory.
   */
  function WriteEffectOf(kind: SourceKind, codec: Codec, location: string, obj: Mapping, meta: Mapping,
                         entries: Entries): (Entries, Outcome)
  {
    if kind.BaseSource? then (entries, Pass)
    else
      var dir := DirName(location);
      var made := if IsDir(entries, dir) then (entries, Pass) else MakeDir(entries, dir);
      if made.1.Fail? then made
      else WriteText(made.0, location, codec.encode(Update(obj, meta)))
  }

  /** The base source leaves both its object and the filesystem alone. */
  lemma BaseSourceIsInert(codec: Codec, location: string, obj: Mapping, meta: Mapping, entries: Entries)
    ensures ReadEffectOf(BaseSource, codec, location, entries) == Kept
    ensures WriteEffectOf(BaseSource, codec, location, obj, meta, entries) == (entries, Pass)
  {
  }

  /** A YAML source whose location is missing or not a regular file reads as {}. */
  lemma ReadOfNonFileIsEmpty(codec: Codec, location: string, entries: Entries)
    requires !IsFile(entries, location)
    ensures ReadEffectOf(YamlFile, codec, location, entries) == Replaced(map[])
  {
  }

  class Source {
    const name: string
    const location: string
    const kind: SourceKind
    const codec: Codec
    var obj: Mapping
    var meta: Mapping

    /** `name` and `location` are exactly the constructor arguments; both mappings start empty. */
    constructor (name: string, location: string, kind: SourceKind, codec: Codec)
      ensures this.name == name && this.location == location && this.kind == kind && this.codec == codec
      ensures obj == map[] && meta == map[]
    {
      this.name := name;
      this.location := location;
      this.kind := kind;
      this.codec := codec;
      obj := map[];
      meta := map[];
    }

    /** `is_readable`: exists, is a regular file and has read access; always true for the base source. */
    function IsReadable(entries: Entries): (r: bool)
      ensures kind.BaseSource? ==> r
      ensures kind.YamlFile? ==> (r <==> IsFile(entries, location) && entries[location].readable)
    {
      if kind.BaseSource? then true
      else if location in entries then
        if entries[location].RegularFile? then entries[location].readable else false
      else false
    }

    /** `is_writable`: exists, is a regular file and has write access; never for the base source. */
    function IsWritable(entries: Entries): (r: bool)
      ensures kind.BaseSource? ==> !r
      ensures location !in entries ==> !r
      ensures kind.YamlFile? ==> (r <==> IsFile(entries, location) && entries[location].writable)
    {
      if kind.BaseSource? then false
      else if location in entries then
        if entries[location].RegularFile? then entries[location].writable else false
      else false
    }

    /** `read()`: replaces `obj` as `ReadEffectOf` says; never touches the filesystem. */
    method Read(fs: FileSystem) returns (r: Outcome)
      modifies this`obj
      ensures obj == ApplyRead(ReadEffectOf(kind, codec, location, fs.entries), old(obj))
      ensures r == OutcomeOf(ReadEffectOf(kind, codec, location, fs.entries))
    {
      if kind.BaseSource? {
        return Pass;
      }
      var data: Mapping := map[];
      if location in fs.entries && fs.entries[location].RegularFile? {
        var entry := fs.entries[location];
        if !entry.readable {
          return Fail(PermissionDenied(location));
        }
        var decoded := codec.decode(entry.text);
        if decoded.None? {
          return Fail(DecodeError(location));
        }
        data := decoded.value;
      }
      obj := data;
      r := Pass;
    }

    /** `write()`: changes the filesystem as `WriteEffectOf` says and leaves `obj` and `meta` alone. */
    method Write(fs: FileSystem) returns (r: Outcome)
      modifies fs
      ensures (fs.entries, r) == WriteEffectOf(kind, codec, location, obj, meta, old(fs.entries))
      ensures obj == old(obj) && meta == old(meta)
    {
      if kind.BaseSource? {
        return Pass;
      }
      var dir := DirName(location);
      if !(dir in fs.entries && fs.entries[dir].Directory?) {
        r := fs.Mkdir(dir);
        if r.Fail? {
          return;
        }
      }
      var data := obj + meta;
      r := fs.Store(location, codec.encode(data));
    }
  }

  /** Reading a source that reports itself readable can only fail on malformed contents. */
  lemma ReadableReadFailsOnlyOnDecode(src: Source, entries: Entries)
    requires src.IsReadable(entries)
    ensures ReadEffectOf(src.kind, src.codec, src.location, entries).Failed? ==>
              ReadEffectOf(src.kind, src.codec, src.location, entries).error == DecodeError(src.location)
  {
  }

  /**
   Writing a writable YAML source whose parent directory exists stores exactly
   the encoding of `obj` overlaid with `meta` (so `meta` keys win) and changes
   nothing else.
   */
  lemma WritableWriteStores(kind: SourceKind, codec: Codec, location: string, obj: Mapping, meta: Mapping, entries: Entries)
    requires kind.YamlFile?
    requires IsFile(entries, location) && entries[location].writable
    requires IsDir(entries, DirName(location))
    ensures WriteEffectOf(kind, codec, location, obj, meta, entries)
              == (entries[location := RegularFile(entries[location].readable, true, codec.encode(Update(obj, meta)))], Pass)
  {
  }

  /** When the parent directory is missing, `write()` creates it, whatever happens to the file itself. */
  lemma WriteCreatesMissingParent(codec: Codec, location: string, obj: Mapping, meta: Mapping, entries: Entries)
    requires DirName(location) != "" && DirName(location) !in entries
    ensures IsDir(WriteEffectOf(YamlFile, codec, location, obj, meta, entries).0, DirName(location))
  {
  }

  /**
   Round trip: after a successful `write()` of a YAML source whose file is new or
   readable, `read()` gives back `obj` overlaid with `meta`, for any codec that
   decodes what it encodes.
   */
  lemma WriteThenRead(codec: Codec, location: string, obj: Mapping, meta: Mapping, entries: Entries)
    requires location !in entries || (entries[location].RegularFile? && entries[location].readable)
    requires codec.decode(codec.encode(Update(obj, meta))) == Some(Update(obj, meta))
    requires WriteEffectOf(YamlFile, codec, location, obj, meta, entries).1 == Pass
    ensures ReadEffectOf(YamlFile, codec, location, WriteEffectOf(YamlFile, codec, location, obj, meta, entries).0)
              == Replaced(Update(obj, meta))
  {
  }

  /** The objects of the three tiers, in read order. */
  datatype TierObjects = TierObjects(sys: Mapping, usr: Mapping, loc: Mapping)

  /**
   Reading the system, user and local tiers in that order, where the first
   failure raises and so stops the remaining reads.
   */
  function ReadInOrder(s: ReadEffect, u: ReadEffect, l: ReadEffect, prior: TierObjects): (r: (TierObjects, Outcome))
    ensures r.1 == Pass <==> !s.Failed? && !u.Failed? && !l.Failed?
    ensures r.1.Fail? ==> r.1.error == (if s.Failed? then s.error else if u.Failed? then u.error else l.error)
    ensures r.0.sys == (if s.Failed? then prior.sys else ApplyRead(s, prior.sys))
    ensures r.0.usr == (if s.Failed? || u.Failed? then prior.usr else ApplyRead(u, prior.usr))
    ensures r.0.loc == (if s.Failed? || u.Failed? || l.Failed? then prior.loc else ApplyRead(l, prior.loc))
  {
    if s.Failed? then (prior, Fail(s.error))
    else
      var afterSys := prior.(sys := ApplyRead(s, prior.sys));
      if u.Failed? then (afterSys, Fail(u.error))
      else
        var afterUsr := afterSys.(usr := ApplyRead(u, prior.usr));
        if l.Failed? then (afterUsr, Fail(l.error))
        else (afterUsr.(loc := ApplyRead(l, prior.loc)), Pass)
  }
}
