/** The data-directory guard of `main` (cmd/cbft/main.go:79-105): what happens
    to the configured data directory, decided from the outcome of one stat. */
module DataDir {
  import opened Wrappers

  /** What os.Stat reported for the data directory. */
  datatype StatResult =
    | Exists(isDir: bool)          // stat succeeded; IsDir() of the result
    | NotExist                     // os.IsNotExist(err)
    | StatFailed(cause: string)    // any other stat error

  /** Why the guard halts startup. */
  datatype DirError =
    | CannotCreate(cause: string)  // os.Mkdir of the default directory failed
    | DoesNotExist                 // missing, and not the default directory
    | CannotAccess(cause: string)  // stat failed for another reason
    | NotADirectory                // exists but is not a directory

  /** What the guard decides to do once stat has answered. */
  datatype Decision =
    | UseAsIs
    | CreateDefault(mode: int)
    | Refuse(err: DirError)

  /** The outcome of the guard once the create (if any) has answered. */
  datatype Outcome =
    | Continue(created: bool)
    | Fatal(err: DirError)

  /** Unix permission bits 0700, the mode the default directory is created with. */
  const DirMode: int := 448

  /** The decision table over stat outcome, is-directory and is-default. */
  function Decide(stat: StatResult, dataDir: string, defaultDir: string): (d: Decision)
    ensures d == UseAsIs <==> stat == Exists(true)
    ensures d.CreateDefault? <==> stat == NotExist && dataDir == defaultDir
    ensures d.CreateDefault? ==> d.mode == DirMode
    ensures d == Refuse(NotADirectory) <==> stat == Exists(false)
    ensures d == Refuse(DoesNotExist) <==> stat == NotExist && dataDir != defaultDir
    ensures d.Refuse? && d.err.CannotAccess? <==> stat.StatFailed?
    ensures stat.StatFailed? ==> d == Refuse(CannotAccess(stat.cause))
    ensures !(d.Refuse? && d.err.CannotCreate?)
  {
    match stat
    case StatFailed(cause) => Refuse(CannotAccess(cause))
    case NotExist => if dataDir == defaultDir then CreateDefault(DirMode) else Refuse(DoesNotExist)
    case Exists(isDir) => if isDir then UseAsIs else Refuse(NotADirectory)
  }

  /** The whole guard; `mkdir` is the error os.Mkdir would return, consulted
      only when the decision is to create the default directory. */
  function Guard(stat: StatResult, dataDir: string, defaultDir: string, mkdir: Option<string>): (o: Outcome)
    ensures o == Continue(false) <==> stat == Exists(true)
    ensures o == Continue(true) <==> stat == NotExist && dataDir == defaultDir && mkdir.None?
    ensures o.Fatal? && o.err.CannotCreate? <==> stat == NotExist && dataDir == defaultDir && mkdir.Some?
    ensures o.Fatal? && o.err.CannotCreate? ==> o.err.cause == mkdir.value
    ensures o.Fatal? && !o.err.CannotCreate? ==> Decide(stat, dataDir, defaultDir) == Refuse(o.err)
  {
    match Decide(stat, dataDir, defaultDir)
    case UseAsIs => Continue(false)
    case CreateDefault(_) => if mkdir.None? then Continue(true) else Fatal(CannotCreate(mkdir.value))
    case Refuse(e) => Fatal(e)
  }

  /** A file system reduced to what the guard can observe: which paths exist
      and whether each is a directory (with its mode). */
  datatype Entry = Directory(mode: int) | RegularFile
  type FileSystem = map<string, Entry>

  /** os.Stat on the reduced file system (it has no access errors). */
  function Stat(fs: FileSystem, path: string): (r: StatResult)
    ensures r.NotExist? <==> path !in fs
    ensures r.Exists? ==> r.isDir == fs[path].Directory?
  {
    if path in fs then Exists(fs[path].Directory?) else NotExist
  }

  /** The guard run against a file system: the outcome and the file system after it. */
  function GuardOn(fs: FileSystem, dataDir: string, defaultDir: string, mkdir: Option<string>): (r: (FileSystem, Outcome))
    ensures r.1 == Guard(Stat(fs, dataDir), dataDir, defaultDir, mkdir)
    ensures r.1 == Continue(true) ==> r.0 == fs[dataDir := Directory(DirMode)]
    ensures r.1 != Continue(true) ==> r.0 == fs
  {
    var o := Guard(Stat(fs, dataDir), dataDir, defaultDir, mkdir);
    if o == Continue(true) then (fs[dataDir := Directory(DirMode)], o) else (fs, o)
  }

  /** After a successful guard the data directory is an existing directory, and
      running the guard again continues without creating anything. */
  lemma GuardIdempotent(fs: FileSystem, dataDir: string, defaultDir: string, mkdir: Option<string>, mkdir2: Option<string>)
    requires GuardOn(fs, dataDir, defaultDir, mkdir).1.Continue?
    ensures var fs' := GuardOn(fs, dataDir, defaultDir, mkdir).0;
      dataDir in fs' && fs'[dataDir].Directory? &&
      GuardOn(fs', dataDir, defaultDir, mkdir2) == (fs', Continue(false))
  {
  }

  /** A directory that is not the default one is never created. */
  lemma NonDefaultNeverCreated(fs: FileSystem, dataDir: string, defaultDir: string, mkdir: Option<string>)
    requires dataDir != defaultDir
    ensures GuardOn(fs, dataDir, defaultDir, mkdir).0 == fs
    ensures dataDir !in fs ==> GuardOn(fs, dataDir, defaultDir, mkdir).1 == Fatal(DoesNotExist)
  {
  }

  /** The guard never touches a path other than the data directory. */
  lemma OnlyDataDirChanges(fs: FileSystem, dataDir: string, defaultDir: string, mkdir: Option<string>, other: string)
    requires other != dataDir
    ensures var fs' := GuardOn(fs, dataDir, defaultDir, mkdir).0;
      (other in fs' <==> other in fs) && (other in fs ==> fs'[other] == fs[other])
  {
  }
}
