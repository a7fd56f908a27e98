/** The `main` function of the cbft command (cmd/cbft/main.go:46-170): the
    fixed order of startup stages, the exit taken at each, and the two
    string rules it applies to flags (the tag list and the address it
    announces). Every collaborator is an oracle whose answer MainEnv holds. */
module Startup {
  import opened Wrappers
  import opened Text
  import opened DataDir
  import opened Server

  /** The parsed command-line flags main reads. */
  datatype Flags = Flags(
    help: bool, version: bool,
    dataDir: string, cfgConnect: string, bindHttp: string, register: string,
    tags: string, container: string, weight: int,
    staticDir: string, staticETag: string, server: string)

  /** cmd.MainCfg's error: the distinguished bind-address error, or any other. */
  datatype CfgError = BindHttpInUse | CfgFailed(cause: string)

  /** The answers of main's collaborators; an Option holds the error, None for nil. */
  datatype MainEnv = MainEnv(
    msgRing: Option<string>,        // cbgt.NewMsgRing
    stat: StatResult,               // os.Stat(dataDir)
    mkdir: Option<string>,          // os.Mkdir(dataDir, 0700)
    cfg: Option<CfgError>,          // cmd.MainCfg
    uuid: Result<string, string>,   // cmd.MainUUID
    start: StartEnv,                // MainStart's collaborators
    listen: Option<string>)         // http.ListenAndServe; None: serves for ever

  /** The stages of startup, in the only order they run. */
  datatype Stage = MsgRing | CheckDataDir | OpenCfg | LoadUuid | Start | Listen

  const Pipeline: seq<Stage> := [MsgRing, CheckDataDir, OpenCfg, LoadUuid, Start, Listen]

  /** Why main halts through log.Fatal. */
  datatype Fatal =
    | RingFailed(cause: string)
    | DataDirFailed(dirErr: DirError)
    | BindConflict
    | CfgUnavailable(cfgConnect: string, cause: string)
    | UuidFailed(cause: string)
    | StartFailed(startErr: StartError)
    | ListenFailed(bindHttp: string, cause: string)

  /** How the process ends: an explicit os.Exit, a fatal log, the index panic
      on an empty bind address, or serving with the announced address. */
  datatype Exit = Exited(code: int) | Halted(reason: Fatal) | Panicked | Serving(url: string)

  /** The stage each fatal error belongs to. */
  function FailedStage(f: Fatal): Stage {
    match f
    case RingFailed(_) => MsgRing
    case DataDirFailed(_) => CheckDataDir
    case BindConflict => OpenCfg
    case CfgUnavailable(_, _) => OpenCfg
    case UuidFailed(_) => LoadUuid
    case StartFailed(_) => Start
    case ListenFailed(_, _) => Listen
  }

  /** The address announced to the operator for a bind address (main.go:154-160):
      a bare ":port" and the wildcard "0.0.0.0:port" are shown as
      "localhost:port"; anything else is shown as it is. */
  function DisplayAddress(bindHttp: string): (u: string)
    requires bindHttp != []
    ensures bindHttp[0] == ':' ==> u == "localhost" + bindHttp
    ensures bindHttp[0] != ':' && HasPrefix(bindHttp, "0.0.0.0:") ==> u == "localhost" + bindHttp[7..]
    ensures bindHttp[0] != ':' && !HasPrefix(bindHttp, "0.0.0.0:") ==> u == bindHttp
    ensures u != [] && u[0] != ':' && !HasPrefix(u, "0.0.0.0:")
  {
    var u := if bindHttp[0] == ':' then "localhost" + bindHttp else bindHttp;
    assert bindHttp[0] == ':' ==> u[0] == 'l';
    if HasPrefix(u, "0.0.0.0:") then
      assert HasPrefix(u[7..], ":");
      "localhost" + u[7..]
    else u
  }

  /** The port suffix is kept: both local forms of ":port" show as "localhost:port". */
  lemma DisplayKeepsPort(port: string)
    ensures DisplayAddress(":" + port) == "localhost:" + port
    ensures DisplayAddress("0.0.0.0:" + port) == "localhost:" + port
  {
    var w := "0.0.0.0:" + port;
    assert w[..8] == "0.0.0.0:";
    assert w[7..] == ":" + port;
  }

  /** Rewriting an announced address again changes nothing. */
  lemma DisplayIdempotent(bindHttp: string)
    requires bindHttp != []
    ensures DisplayAddress(DisplayAddress(bindHttp)) == DisplayAddress(bindHttp)
  {
  }

  /** The tag list given to the manager (main.go:130-133): none for an empty
      flag, otherwise the comma-separated pieces, empty pieces included. */
  function ParseTags(flag: string): (tags: seq<string>)
    ensures flag == "" <==> tags == []
    ensures flag != "" ==> Join(tags, ',') == flag && |tags| == Count(flag, ',') + 1
    ensures forall i :: 0 <= i < |tags| ==> ',' !in tags[i]
  {
    if flag == "" then []
    else
      JoinSplit(flag, ',');
      SplitCount(flag, ',');
      SplitPiecesFree(flag, ',');
      Split(flag, ',')
  }

  /** Any non-empty list of comma-free tags is what some flag parses to. */
  lemma TagsRoundTrip(tags: seq<string>)
    requires |tags| >= 1 && forall i :: 0 <= i < |tags| ==> ',' !in tags[i]
    requires Join(tags, ',') != ""
    ensures ParseTags(Join(tags, ',')) == tags
  {
    SplitJoin(tags, ',');
  }

  /** Every stage before MainStart lets startup go on. */
  predicate PreludePasses(flags: Flags, defaultDataDir: string, env: MainEnv) {
    && !flags.help && !flags.version
    && env.msgRing.None?
    && Guard(env.stat, flags.dataDir, defaultDataDir, env.mkdir).Continue?
    && env.cfg.None?
    && env.uuid.Success?
  }

  /** The part of main before MainStart (main.go:49-128): help and version,
      then the log ring, the data directory, the cfg and the uuid. `halt` is
      how the process ends if it ends here; `trace` lists the stages entered;
      `mkdirMode` the mode of the os.Mkdir call, if one was made. */
  method Prelude(flags: Flags, defaultDataDir: string, env: MainEnv)
    returns (halt: Option<Exit>, trace: seq<Stage>, mkdirMode: Option<int>)
    ensures flags.help ==> halt == Some(Exited(2)) && trace == []
    ensures !flags.help && flags.version ==> halt == Some(Exited(0)) && trace == []
    ensures trace <= Pipeline[..4]
    ensures !flags.help && !flags.version ==> |trace| >= 1
    ensures halt.None? <==> PreludePasses(flags, defaultDataDir, env)
    ensures halt.None? ==> trace == Pipeline[..4]
    ensures halt.Some? && halt.value.Halted? ==> |trace| >= 1 && trace[|trace| - 1] == FailedStage(halt.value.reason)
    ensures halt.Some? ==> halt.value == Exited(2) || halt.value == Exited(0) || halt.value.Halted?
    ensures halt.Some? && halt.value.Exited? ==> trace == []
    // the log ring
    ensures MsgRing in trace && env.msgRing.Some? ==> halt == Some(Halted(RingFailed(env.msgRing.value)))
    ensures CheckDataDir in trace <==> MsgRing in trace && env.msgRing.None?
    // the data directory
    ensures mkdirMode.Some? <==>
      CheckDataDir in trace && Decide(env.stat, flags.dataDir, defaultDataDir).CreateDefault?
    ensures mkdirMode.Some? ==> mkdirMode.value == DirMode && flags.dataDir == defaultDataDir
    ensures CheckDataDir in trace && Guard(env.stat, flags.dataDir, defaultDataDir, env.mkdir).Fatal? ==>
      halt == Some(Halted(DataDirFailed(Guard(env.stat, flags.dataDir, defaultDataDir, env.mkdir).err)))
    ensures OpenCfg in trace <==>
      CheckDataDir in trace && Guard(env.stat, flags.dataDir, defaultDataDir, env.mkdir).Continue?
    // the cfg and the uuid
    ensures OpenCfg in trace && env.cfg == Some(BindHttpInUse) ==> halt == Some(Halted(BindConflict))
    ensures OpenCfg in trace && env.cfg.Some? && env.cfg.value.CfgFailed? ==>
      halt == Some(Halted(CfgUnavailable(flags.cfgConnect, env.cfg.value.cause)))
    ensures LoadUuid in trace <==> OpenCfg in trace && env.cfg.None?
    ensures LoadUuid in trace && env.uuid.Failure? ==> halt == Some(Halted(UuidFailed(env.uuid.error)))
  {
    trace, mkdirMode := [], None;
    if flags.help {
      return Some(Exited(2)), trace, mkdirMode;
    }
    if flags.version {
      return Some(Exited(0)), trace, mkdirMode;
    }

    trace := trace + [MsgRing];
    if env.msgRing.Some? {
      return Some(Halted(RingFailed(env.msgRing.value))), trace, mkdirMode;
    }

    trace := trace + [CheckDataDir];
    match Decide(env.stat, flags.dataDir, defaultDataDir) {
      case UseAsIs =>
      case CreateDefault(mode) =>
        mkdirMode := Some(mode);
        if env.mkdir.Some? {
          return Some(Halted(DataDirFailed(CannotCreate(env.mkdir.value)))), trace, mkdirMode;
        }
      case Refuse(e) =>
        return Some(Halted(DataDirFailed(e))), trace, mkdirMode;
    }

    trace := trace + [OpenCfg];
    if env.cfg.Some? {
      var reason := if env.cfg.value == BindHttpInUse then BindConflict
                    else CfgUnavailable(flags.cfgConnect, env.cfg.value.cause);
      return Some(Halted(reason)), trace, mkdirMode;
    }

    trace := trace + [LoadUuid];
    if env.uuid.Failure? {
      return Some(Halted(UuidFailed(env.uuid.error))), trace, mkdirMode;
    }
    halt := None;
  }

  /** main: the prelude, then MainStart, then either the unregistered-node
      exit or the listener. `trace` lists the stages entered; `mkdirMode` the
      mode of the os.Mkdir call, if one was made; `startCalls` the calls
      MainStart made. */
  method RunMain(flags: Flags, defaultDataDir: string, env: MainEnv)
    returns (exit: Exit, trace: seq<Stage>, mkdirMode: Option<int>, startCalls: seq<Call>)
    ensures flags.help ==> exit == Exited(2) && trace == []
    ensures !flags.help && flags.version ==> exit == Exited(0) && trace == []
    ensures trace <= Pipeline
    ensures exit.Halted? ==> |trace| >= 1 && trace[|trace| - 1] == FailedStage(exit.reason)
    ensures exit.Exited? ==> exit.code == 0 || exit.code == 2
    ensures mkdirMode.Some? ==> mkdirMode.value == DirMode && flags.dataDir == defaultDataDir
    ensures Start in trace <==> PreludePasses(flags, defaultDataDir, env)
    ensures exit == Exited(2) <==> flags.help
    ensures !flags.help && !flags.version && Start !in trace ==> exit.Halted?
    // the stages before MainStart, each halting with its own error
    ensures MsgRing in trace && env.msgRing.Some? ==> exit == Halted(RingFailed(env.msgRing.value))
    ensures CheckDataDir in trace <==> MsgRing in trace && env.msgRing.None?
    ensures mkdirMode.Some? <==>
      CheckDataDir in trace && Decide(env.stat, flags.dataDir, defaultDataDir).CreateDefault?
    ensures CheckDataDir in trace && Guard(env.stat, flags.dataDir, defaultDataDir, env.mkdir).Fatal? ==>
      exit == Halted(DataDirFailed(Guard(env.stat, flags.dataDir, defaultDataDir, env.mkdir).err))
    ensures OpenCfg in trace <==>
      CheckDataDir in trace && Guard(env.stat, flags.dataDir, defaultDataDir, env.mkdir).Continue?
    ensures OpenCfg in trace && env.cfg == Some(BindHttpInUse) ==> exit == Halted(BindConflict)
    ensures OpenCfg in trace && env.cfg.Some? && env.cfg.value.CfgFailed? ==>
      exit == Halted(CfgUnavailable(flags.cfgConnect, env.cfg.value.cause))
    ensures LoadUuid in trace <==> OpenCfg in trace && env.cfg.None?
    ensures LoadUuid in trace && env.uuid.Failure? ==> exit == Halted(UuidFailed(env.uuid.error))
    // MainStart
    ensures Start !in trace ==> startCalls == []
    ensures Start in trace && ValidateServer(flags.server, env.start).err.Some? ==>
      exit == Halted(StartFailed(ValidateServer(flags.server, env.start).err.value)) &&
      startCalls == ValidateServer(flags.server, env.start).calls
    ensures Start in trace && ValidateServer(flags.server, env.start).err.None? ==>
      NewManager(env.uuid.value, ParseTags(flags.tags), flags.container, flags.weight,
                 flags.bindHttp, flags.dataDir, flags.server) in startCalls
    ensures Start in trace && !StartSucceeds(flags.server, env.start) ==> exit.Halted? && exit.reason.StartFailed?
    ensures Start in trace && ValidateServer(flags.server, env.start).err.None? && env.start.managerStart.Some? ==>
      exit == Halted(StartFailed(ManagerStartFailed(env.start.managerStart.value)))
    ensures Start in trace && ValidateServer(flags.server, env.start).err.None? && env.start.managerStart.None? &&
            env.start.nsStatus.Some? ==>
      exit == Halted(StartFailed(NsStatusFailed(env.start.nsStatus.value)))
    // after MainStart
    ensures !flags.help && !flags.version ==>
      (exit == Exited(0) <==> Start in trace && StartSucceeds(flags.server, env.start) && flags.register == "unknown")
    ensures exit == Exited(0) ==> Listen !in trace
    ensures exit == Panicked <==>
      Start in trace && StartSucceeds(flags.server, env.start) && flags.register != "unknown" && flags.bindHttp == ""
    ensures Listen in trace <==>
      Start in trace && StartSucceeds(flags.server, env.start) && flags.register != "unknown" && flags.bindHttp != ""
    ensures Listen in trace && env.listen.Some? ==> exit == Halted(ListenFailed(flags.bindHttp, env.listen.value))
    ensures exit.Serving? <==> Listen in trace && env.listen.None?
    ensures exit.Serving? ==> trace == Pipeline && exit.url == DisplayAddress(flags.bindHttp)
  {
    var halt;
    halt, trace, mkdirMode := Prelude(flags, defaultDataDir, env);
    startCalls := [];
    if halt.Some? {
      return halt.value, trace, mkdirMode, startCalls;
    }
    assert trace == [MsgRing, CheckDataDir, OpenCfg, LoadUuid];

    var tail;
    exit, tail, startCalls := Launch(flags, env.uuid.value, env.start, env.listen);
    trace := trace + tail;
  }

  /** The part of main from MainStart on (main.go:130-170): the tags, MainStart,
      the unregistered-node exit, the displayed address and the listener.
      `tail` lists the stages entered from Start on. */
  method Launch(flags: Flags, uuid: string, env: StartEnv, listen: Option<string>)
    returns (exit: Exit, tail: seq<Stage>, startCalls: seq<Call>)
    ensures tail == [Start] || tail == [Start, Listen]
    ensures exit.Halted? ==> tail[|tail| - 1] == FailedStage(exit.reason)
    ensures exit.Exited? ==> exit.code == 0
    ensures ValidateServer(flags.server, env).err.Some? ==>
      exit == Halted(StartFailed(ValidateServer(flags.server, env).err.value)) &&
      startCalls == ValidateServer(flags.server, env).calls
    ensures ValidateServer(flags.server, env).err.None? ==>
      NewManager(uuid, ParseTags(flags.tags), flags.container, flags.weight,
                 flags.bindHttp, flags.dataDir, flags.server) in startCalls
    ensures !StartSucceeds(flags.server, env) ==> exit.Halted? && exit.reason.StartFailed?
    ensures ValidateServer(flags.server, env).err.None? && env.managerStart.Some? ==>
      exit == Halted(StartFailed(ManagerStartFailed(env.managerStart.value)))
    ensures ValidateServer(flags.server, env).err.None? && env.managerStart.None? && env.nsStatus.Some? ==>
      exit == Halted(StartFailed(NsStatusFailed(env.nsStatus.value)))
    ensures exit == Exited(0) <==> StartSucceeds(flags.server, env) && flags.register == "unknown"
    ensures exit == Panicked <==>
      StartSucceeds(flags.server, env) && flags.register != "unknown" && flags.bindHttp == ""
    ensures Listen in tail <==>
      StartSucceeds(flags.server, env) && flags.register != "unknown" && flags.bindHttp != ""
    ensures Listen in tail && listen.Some? ==> exit == Halted(ListenFailed(flags.bindHttp, listen.value))
    ensures exit.Serving? <==> Listen in tail && listen.None?
    ensures exit.Serving? ==> exit.url == DisplayAddress(flags.bindHttp)
  {
    var tags := ParseTags(flags.tags);
    tail := [Start];
    var router, err, calls := MainStart(uuid, tags, flags.container, flags.weight,
                                        flags.bindHttp, flags.dataDir, flags.staticDir, flags.staticETag,
                                        flags.server, flags.register, env);
    startCalls := calls;
    if err.Some? {
      return Halted(StartFailed(err.value)), tail, startCalls;
    }
    if flags.register == "unknown" {
      return Exited(0), tail, startCalls;
    }

    // u[0] on an empty bind address is an index-out-of-range panic.
    if flags.bindHttp == "" {
      return Panicked, tail, startCalls;
    }
    var u := DisplayAddress(flags.bindHttp);

    tail := tail + [Listen];
    if listen.Some? {
      return Halted(ListenFailed(flags.bindHttp, listen.value)), tail, startCalls;
    }
    exit := Serving(u);
  }
}
