/**
 * The session state of one `redo` process and how it is passed to child processes through
 * the environment (src/env.rs:56-397): decoding (`Env::inherit`), bootstrapping
 * (`Env::init`, `Env::init_no_state`) and the two late mutations.
 */
module Session {
  import opened Wrappers
  import opened RedoErrors
  import opened Tristate
  import opened Codec
  import opened Paths
  import opened Resolver
  import opened SearchPath

  const OUTSIDE_DO := "must be run from inside a .do"
  const NOT_DEFINED := "NOT_DEFINED"

  /** `RedoPathBuf::try_from` on a raw value: which strings are valid targets (src/helpers.rs is not part of this model). */
  type TargetCheck = string -> bool

  /** Everything `Env::inherit` reads from the environment, field by field. */
  datatype Settings = Settings(
    base: string,
    pwd: string,
    target: string,
    depth: string,
    debug: Int32,
    debugLocks: bool,
    debugPids: bool,
    locksBroken: bool,
    verbose: Int32,
    xtrace: Int32,
    keepGoing: bool,
    log: Int32,
    logInode: string,
    color: Int32,
    pretty: Int32,
    shuffle: bool,
    startdir: string,
    runid: Option<Int64>,
    unlocked: bool,
    noOob: bool)

  predicate SpacesOnly(s: string) {
    forall i :: 0 <= i < |s| ==> s[i] == ' '
  }

  /**
   * The decoding part of `Env::inherit` (src/env.rs:230-270): a usage error outside a
   * session, `InvalidTarget` for a target that is not a valid path, an error for a depth
   * that is not all spaces, and otherwise every field read with its default.
   */
  function Decode(vars: Environ, isRedoPath: TargetCheck): (r: Result<Settings, RedoError>)
    ensures !GetBool(vars, REDO) ==> r == Failure(Usage(OUTSIDE_DO))
    ensures r.Failure? && r.error.Usage? ==> !GetBool(vars, REDO)
    ensures r.Success? <==> GetBool(vars, REDO) && isRedoPath(GetRaw(vars, TARGET)) && SpacesOnly(GetRaw(vars, DEPTH))
    ensures GetBool(vars, REDO) && !isRedoPath(GetRaw(vars, TARGET)) ==> r == Failure(InvalidTarget(GetRaw(vars, TARGET)))
    ensures r.Failure? && r.error.MalformedDepth? ==> !SpacesOnly(r.error.depth) && r.error.depth == GetRaw(vars, DEPTH)
    ensures GetBool(vars, REDO) && isRedoPath(GetRaw(vars, TARGET)) && !SpacesOnly(GetRaw(vars, DEPTH)) ==>
      r == Failure(MalformedDepth(GetRaw(vars, DEPTH)))
    ensures r.Success? ==> SpacesOnly(r.value.depth) && r.value.depth == GetRaw(vars, DEPTH)
    ensures r.Success? ==> r.value.base == GetRaw(vars, BASE) && r.value.startdir == GetRaw(vars, STARTDIR)
    ensures r.Success? ==> (r.value.runid.None? <==> GetInt(vars, RUNID, 0) == 0)
    ensures r.Success? && r.value.runid.Some? ==> r.value.runid.value == GetInt(vars, RUNID, 0)
    ensures r.Success? ==> r.value.unlocked == GetBool(vars, UNLOCKED) && r.value.noOob == GetBool(vars, NO_OOB)
  {
    if !GetBool(vars, REDO) then Failure(Usage(OUTSIDE_DO))
    else
      var target := GetRaw(vars, TARGET);
      if !isRedoPath(target) then Failure(InvalidTarget(target))
      else
        var depth := GetRaw(vars, DEPTH);
        if !SpacesOnly(depth) then Failure(MalformedDepth(depth))
        else Success(Fields(vars))
  }

  /** The field-by-field reads of `Env::inherit` (src/env.rs:233-264), each with its default. */
  function Fields(vars: Environ): (s: Settings)
    ensures s.depth == GetRaw(vars, DEPTH) && s.target == GetRaw(vars, TARGET)
    ensures s.base == GetRaw(vars, BASE) && s.startdir == GetRaw(vars, STARTDIR)
    ensures s.runid.None? <==> GetInt(vars, RUNID, 0) == 0
    ensures s.runid.Some? ==> s.runid.value == GetInt(vars, RUNID, 0)
    ensures s.unlocked == GetBool(vars, UNLOCKED) && s.noOob == GetBool(vars, NO_OOB)
    ensures s.pwd == GetRaw(vars, PWD) && s.logInode == GetRaw(vars, LOG_INODE)
    ensures s.debugLocks == GetBool(vars, DEBUG_LOCKS) && s.debugPids == GetBool(vars, DEBUG_PIDS)
    ensures s.locksBroken == GetBool(vars, LOCKS_BROKEN) && s.keepGoing == GetBool(vars, KEEP_GOING)
    ensures s.shuffle == GetBool(vars, SHUFFLE)
    ensures s.debug == WrapI32(GetInt(vars, DEBUG, 0)) && s.verbose == WrapI32(GetInt(vars, VERBOSE, 0))
    ensures s.xtrace == WrapI32(GetInt(vars, XTRACE, 0)) && s.log == WrapI32(GetInt(vars, LOG, 1))
    ensures s.color == WrapI32(GetInt(vars, COLOR, 0)) && s.pretty == WrapI32(GetInt(vars, PRETTY, 0))
  {
    var runid := GetInt(vars, RUNID, 0);
    Settings(
      base := GetRaw(vars, BASE),
      pwd := GetRaw(vars, PWD),
      target := GetRaw(vars, TARGET),
      depth := GetRaw(vars, DEPTH),
      debug := WrapI32(GetInt(vars, DEBUG, 0)),
      debugLocks := GetBool(vars, DEBUG_LOCKS),
      debugPids := GetBool(vars, DEBUG_PIDS),
      locksBroken := GetBool(vars, LOCKS_BROKEN),
      verbose := WrapI32(GetInt(vars, VERBOSE, 0)),
      xtrace := WrapI32(GetInt(vars, XTRACE, 0)),
      keepGoing := GetBool(vars, KEEP_GOING),
      log := WrapI32(GetInt(vars, LOG, 1)),
      logInode := GetRaw(vars, LOG_INODE),
      color := WrapI32(GetInt(vars, COLOR, 0)),
      pretty := WrapI32(GetInt(vars, PRETTY, 0)),
      shuffle := GetBool(vars, SHUFFLE),
      startdir := GetRaw(vars, STARTDIR),
      runid := if runid == 0 then None else Some(runid),
      unlocked := GetBool(vars, UNLOCKED),
      noOob := GetBool(vars, NO_OOB))
  }

  /**
   * The tri-state levels as decoded: an unset `REDO_LOG` reads as Auto, an unset
   * `REDO_COLOR` or `REDO_PRETTY` as Off, and a set one as its `i64` value cut to `i32`.
   */
  lemma DecodedLevels(vars: Environ, isRedoPath: TargetCheck)
    requires Decode(vars, isRedoPath).Success?
    ensures var s := Decode(vars, isRedoPath).value;
      && (LOG !in vars ==> FromLevel(s.log) == Auto)
      && (COLOR !in vars ==> FromLevel(s.color) == Off)
      && (PRETTY !in vars ==> FromLevel(s.pretty) == Off)
      && (LOG in vars && ParseI64(vars[LOG]).Some? ==> s.log == WrapI32(ParseI64(vars[LOG]).value))
      && (COLOR in vars && ParseI64(vars[COLOR]).Some? ==> s.color == WrapI32(ParseI64(vars[COLOR]).value))
      && (PRETTY in vars && ParseI64(vars[PRETTY]).Some? ==> s.pretty == WrapI32(ParseI64(vars[PRETTY]).value))
  {
  }

  /**
   * `get_int(..) as i32` keeps only the low 32 bits: `REDO_LOG=4294967296` decodes to
   * level 0, so logging reads as Off, not On.
   */
  lemma LogLevelWraps(vars: Environ, isRedoPath: TargetCheck)
    requires Decode(vars, isRedoPath).Success?
    requires LOG in vars && vars[LOG] == IntString(0x1_0000_0000)
    ensures FromLevel(Decode(vars, isRedoPath).value.log) == Off
  {
    ParseIntString(0x1_0000_0000);
  }

  /** `REDO_UNLOCKED` and `REDO_NO_OOB` as `inherit` leaves them: set to the empty string. */
  function ClearNonInheritable(vars: Environ): (r: Environ)
    ensures !GetBool(r, UNLOCKED) && !GetBool(r, NO_OOB)
    ensures forall k :: k != UNLOCKED && k != NO_OOB ==> GetRaw(r, k) == GetRaw(vars, k)
  {
    vars[UNLOCKED := ""][NO_OOB := ""]
  }

  /**
   * The environment re-exports the session: a child decoding `vars` obtains the settings
   * `s`, except the two flags that are not inherited.
   */
  ghost predicate Agrees(vars: Environ, s: Settings, isRedoPath: TargetCheck) {
    Decode(vars, isRedoPath) == Success(s.(unlocked := false, noOob := false))
  }

  /** After `inherit` clears the two flags, a child decodes the same settings without them. */
  lemma InheritedAgrees(vars: Environ, isRedoPath: TargetCheck)
    requires Decode(vars, isRedoPath).Success?
    ensures Agrees(ClearNonInheritable(vars), Decode(vars, isRedoPath).value, isRedoPath)
  {
  }

  /** The effect of `mark_locks_broken` on the session: locks broken, logging forced off, nothing else. */
  function LocksBroken(s: Settings): (r: Settings)
    ensures r.locksBroken && FromLevel(r.log) == Off
    ensures r.(locksBroken := s.locksBroken, log := s.log) == s
  {
    s.(locksBroken := true, log := 0)
  }

  /** The effect of `mark_locks_broken` on the environment. */
  function LocksBrokenVars(vars: Environ): (r: Environ)
    ensures GetBool(r, LOCKS_BROKEN) && GetInt(r, LOG, 1) == 0
    ensures forall k :: k != LOCKS_BROKEN && k != LOG ==> GetRaw(r, k) == GetRaw(vars, k)
  {
    ParseIntString(0);
    vars[LOCKS_BROKEN := "1"][LOG := "0"]
  }

  /** Marking locks broken twice is the same as marking them once. */
  lemma LocksBrokenIdempotent(s: Settings, vars: Environ)
    ensures LocksBroken(LocksBroken(s)) == LocksBroken(s)
    ensures LocksBrokenVars(LocksBrokenVars(vars)) == LocksBrokenVars(vars)
  {
  }

  /** After `mark_locks_broken`, a child decodes locks broken and logging off, and the rest unchanged. */
  lemma LocksBrokenAgrees(vars: Environ, s: Settings, isRedoPath: TargetCheck)
    requires Agrees(vars, s, isRedoPath)
    ensures Agrees(LocksBrokenVars(vars), LocksBroken(s), isRedoPath)
  {
    var c := LocksBrokenVars(vars);
    assert GetRaw(c, REDO) == GetRaw(vars, REDO);
    assert GetRaw(c, BASE) == GetRaw(vars, BASE);
    assert GetRaw(c, PWD) == GetRaw(vars, PWD);
    assert GetRaw(c, TARGET) == GetRaw(vars, TARGET);
    assert GetRaw(c, DEPTH) == GetRaw(vars, DEPTH);
    assert GetRaw(c, DEBUG) == GetRaw(vars, DEBUG);
    assert GetRaw(c, DEBUG_LOCKS) == GetRaw(vars, DEBUG_LOCKS);
    assert GetRaw(c, DEBUG_PIDS) == GetRaw(vars, DEBUG_PIDS);
    assert GetRaw(c, VERBOSE) == GetRaw(vars, VERBOSE);
    assert GetRaw(c, XTRACE) == GetRaw(vars, XTRACE);
    assert GetRaw(c, KEEP_GOING) == GetRaw(vars, KEEP_GOING);
    assert GetRaw(c, LOG_INODE) == GetRaw(vars, LOG_INODE);
    assert GetRaw(c, COLOR) == GetRaw(vars, COLOR);
    assert GetRaw(c, PRETTY) == GetRaw(vars, PRETTY);
    assert GetRaw(c, SHUFFLE) == GetRaw(vars, SHUFFLE);
    assert GetRaw(c, STARTDIR) == GetRaw(vars, STARTDIR);
    assert GetRaw(c, RUNID) == GetRaw(vars, RUNID);
    assert GetRaw(c, UNLOCKED) == GetRaw(vars, UNLOCKED);
    assert GetRaw(c, NO_OOB) == GetRaw(vars, NO_OOB);
  }

  /** The effect of `fill_runid(runid)` on the environment: `REDO_RUNID` holds its decimal form. */
  function RunidVars(vars: Environ, runid: Int64): (r: Environ)
    ensures GetInt(r, RUNID, 0) == runid
    ensures forall k :: k != RUNID ==> GetRaw(r, k) == GetRaw(vars, k)
  {
    GetIntAfterWrite(vars, RUNID, runid, 0);
    vars[RUNID := IntString(runid)]
  }

  /**
   * After `fill_runid(runid)`, a child decodes the same run id, except that a run id of 0
   * is read back as no run id at all.
   */
  lemma RunidAgrees(vars: Environ, s: Settings, runid: Int64, isRedoPath: TargetCheck)
    requires Agrees(vars, s, isRedoPath)
    ensures runid != 0 ==> Agrees(RunidVars(vars, runid), s.(runid := Some(runid)), isRedoPath)
    ensures runid == 0 ==> Agrees(RunidVars(vars, runid), s.(runid := None), isRedoPath)
  {
    var c := RunidVars(vars, runid);
    RunidFields(vars, runid);
    assert GetRaw(c, REDO) == GetRaw(vars, REDO);
    assert GetRaw(c, TARGET) == GetRaw(vars, TARGET);
    assert GetRaw(c, DEPTH) == GetRaw(vars, DEPTH);
  }

  /** Writing `REDO_RUNID` changes only the run id among the decoded fields. */
  lemma RunidFields(vars: Environ, runid: Int64)
    ensures Fields(RunidVars(vars, runid)) == Fields(vars).(runid := if runid == 0 then None else Some(runid))
  {
    var c := RunidVars(vars, runid);
    assert GetRaw(c, BASE) == GetRaw(vars, BASE);
    assert GetRaw(c, PWD) == GetRaw(vars, PWD);
    assert GetRaw(c, TARGET) == GetRaw(vars, TARGET);
    assert GetRaw(c, DEPTH) == GetRaw(vars, DEPTH);
    assert GetRaw(c, DEBUG) == GetRaw(vars, DEBUG);
    assert GetRaw(c, DEBUG_LOCKS) == GetRaw(vars, DEBUG_LOCKS);
    assert GetRaw(c, DEBUG_PIDS) == GetRaw(vars, DEBUG_PIDS);
    assert GetRaw(c, LOCKS_BROKEN) == GetRaw(vars, LOCKS_BROKEN);
    assert GetRaw(c, VERBOSE) == GetRaw(vars, VERBOSE);
    assert GetRaw(c, XTRACE) == GetRaw(vars, XTRACE);
    assert GetRaw(c, KEEP_GOING) == GetRaw(vars, KEEP_GOING);
    assert GetRaw(c, LOG) == GetRaw(vars, LOG);
    assert GetRaw(c, LOG_INODE) == GetRaw(vars, LOG_INODE);
    assert GetRaw(c, COLOR) == GetRaw(vars, COLOR);
    assert GetRaw(c, PRETTY) == GetRaw(vars, PRETTY);
    assert GetRaw(c, SHUFFLE) == GetRaw(vars, SHUFFLE);
    assert GetRaw(c, STARTDIR) == GetRaw(vars, STARTDIR);
    assert GetRaw(c, UNLOCKED) == GetRaw(vars, UNLOCKED);
    assert GetRaw(c, NO_OOB) == GetRaw(vars, NO_OOB);
  }

  /**
   * `init_no_state`'s preparation (src/env.rs:212-219): `REDO` and `REDO_BASE` are set to
   * `NOT_DEFINED` where they are unset or empty, and every other variable is left alone.
   */
  function NoStateVars(vars: Environ): (r: Environ)
    ensures GetBool(r, REDO) && GetBool(r, BASE)
    ensures GetRaw(r, REDO) == if GetBool(vars, REDO) then GetRaw(vars, REDO) else NOT_DEFINED
    ensures GetRaw(r, BASE) == if GetBool(vars, BASE) then GetRaw(vars, BASE) else NOT_DEFINED
    ensures forall k :: k != REDO && k != BASE ==> GetRaw(r, k) == GetRaw(vars, k)
  {
    var v := if GetBool(vars, REDO) then vars else vars[REDO := NOT_DEFINED];
    if GetBool(v, BASE) then v else v[BASE := NOT_DEFINED]
  }

  /** The toplevel bootstrap's effect on the environment (src/env.rs:125-133). */
  function ToplevelVars(vars: Environ, exe: Components, dirs: seq<Components>): (r: Environ)
    ensures GetBool(r, REDO) && GetRaw(r, REDO) == PathString(exe)
    ensures GetRaw(r, PATH) == SearchPathPrefix(dirs) + GetRaw(vars, PATH)
    ensures forall k :: k != PATH && k != REDO ==> GetRaw(r, k) == GetRaw(vars, k)
  {
    vars[PATH := SearchPathPrefix(dirs) + GetRaw(vars, PATH)][REDO := PathString(exe)]
  }

  /**
   * The new `PATH` lists the search directories, in order, ahead of the old entries,
   * provided no directory's text contains `:`.
   */
  lemma ToplevelPathEntries(vars: Environ, exe: Components, dirs: seq<Components>)
    requires forall i :: 0 <= i < |dirs| ==> ':' !in PathString(dirs[i])
    ensures SplitSearchPath(GetRaw(ToplevelVars(vars, exe, dirs), PATH))
      == PathStrings(dirs) + SplitSearchPath(GetRaw(vars, PATH))
  {
    SplitPrepended(dirs, GetRaw(vars, PATH));
  }

  /** The environment after `init` records the base directory and the starting directory. */
  function BaseVars(vars: Environ, base: Components, cwd: Components): (r: Environ)
    ensures GetBool(r, BASE) && GetRaw(r, BASE) == PathString(base) && GetRaw(r, STARTDIR) == PathString(cwd)
    ensures forall k :: k != BASE && k != STARTDIR ==> GetRaw(r, k) == GetRaw(vars, k)
  {
    vars[BASE := PathString(base)][STARTDIR := PathString(cwd)]
  }

  /** The process environment, which every operation of a process reads and writes. */
  class ProcessEnv {
    var vars: Environ

    constructor (vars: Environ)
      ensures this.vars == vars
    {
      this.vars := vars;
    }
  }

  /**
   * The session state of one process: the inherited settings, whether this process started
   * the session, and the directory of helper links it owns, if any.
   */
  class Env {
    var isToplevel: bool
    var settings: Settings
    var linksDir: Option<Components>

    constructor (isToplevel: bool, settings: Settings, linksDir: Option<Components>)
      ensures this.isToplevel == isToplevel && this.settings == settings && this.linksDir == linksDir
    {
      this.isToplevel := isToplevel;
      this.settings := settings;
      this.linksDir := linksDir;
    }

    /** `Env::log` (src/env.rs:333-342): stored 0 is Off, 1 is Auto, anything else On. */
    function Log(): (r: OptionalBool)
      reads this
      ensures r == Off <==> settings.log == 0
      ensures r == Auto <==> settings.log == 1
    {
      FromLevel(settings.log)
    }

    /** `Env::color` (src/env.rs:349-358): stored 0 is Off, 1 is Auto, anything else On. */
    function Color(): (r: OptionalBool)
      reads this
      ensures r == Off <==> settings.color == 0
      ensures r == Auto <==> settings.color == 1
    {
      FromLevel(settings.color)
    }

    /** `Env::pretty` (src/env.rs:360-369): stored 0 is Off, 1 is Auto, anything else On. */
    function Pretty(): (r: OptionalBool)
      reads this
      ensures r == Off <==> settings.pretty == 0
      ensures r == Auto <==> settings.pretty == 1
    {
      FromLevel(settings.pretty)
    }

    /**
     * `Env::inherit` (src/env.rs:227-275): decode the environment; on success clear
     * `REDO_UNLOCKED` and `REDO_NO_OOB` while the new session keeps the values read.
     */
    static method Inherit(pe: ProcessEnv, isRedoPath: TargetCheck) returns (r: Result<Env, RedoError>)
      modifies pe
      ensures Decode(old(pe.vars), isRedoPath).Failure? ==>
        r == Failure(Decode(old(pe.vars), isRedoPath).error) && pe.vars == old(pe.vars)
      ensures Decode(old(pe.vars), isRedoPath).Success? ==>
        && r.Success? && fresh(r.value)
        && r.value.settings == Decode(old(pe.vars), isRedoPath).value
        && !r.value.isToplevel && r.value.linksDir.None?
        && pe.vars == ClearNonInheritable(old(pe.vars))
      ensures r.Success? ==> Agrees(pe.vars, r.value.settings, isRedoPath)
    {
      match Decode(pe.vars, isRedoPath)
      case Failure(e) =>
        r := Failure(e);
      case Success(s) =>
        InheritedAgrees(pe.vars, isRedoPath);
        pe.vars := pe.vars[UNLOCKED := ""];
        pe.vars := pe.vars[NO_OOB := ""];
        var env := new Env(false, s, None);
        r := Success(env);
    }

    /** `Env::mark_locks_broken` (src/env.rs:382-390). */
    method MarkLocksBroken(pe: ProcessEnv)
      modifies this, pe
      ensures settings == LocksBroken(old(settings))
      ensures pe.vars == LocksBrokenVars(old(pe.vars))
      ensures isToplevel == old(isToplevel) && linksDir == old(linksDir)
      ensures settings.locksBroken && Log() == Off
    {
      pe.vars := pe.vars[LOCKS_BROKEN := "1"];
      pe.vars := pe.vars[LOG := "0"];
      settings := settings.(locksBroken := true, log := 0);
    }

    /** `Env::fill_runid` (src/env.rs:392-396); a second call fails the source's assertion. */
    method FillRunid(pe: ProcessEnv, runid: Int64)
      requires settings.runid.None?
      modifies this, pe
      ensures settings == old(settings).(runid := Some(runid))
      ensures pe.vars == RunidVars(old(pe.vars), runid)
      ensures GetInt(pe.vars, RUNID, 0) == runid
      ensures isToplevel == old(isToplevel) && linksDir == old(linksDir)
    {
      settings := settings.(runid := Some(runid));
      pe.vars := pe.vars[RUNID := IntString(runid)];
    }

    /** `Env::init_no_state` (src/env.rs:211-224). */
    static method InitNoState(pe: ProcessEnv, isRedoPath: TargetCheck) returns (r: Result<Env, RedoError>)
      modifies pe
      ensures Decode(NoStateVars(old(pe.vars)), isRedoPath).Failure? ==>
        r == Failure(Decode(NoStateVars(old(pe.vars)), isRedoPath).error) && pe.vars == NoStateVars(old(pe.vars))
      ensures Decode(NoStateVars(old(pe.vars)), isRedoPath).Success? ==>
        && r.Success? && fresh(r.value)
        && r.value.settings == Decode(NoStateVars(old(pe.vars)), isRedoPath).value
        && r.value.isToplevel == !GetBool(old(pe.vars), REDO)
        && r.value.linksDir.None?
        && pe.vars == ClearNonInheritable(NoStateVars(old(pe.vars)))
      ensures r.Success? ==> Agrees(pe.vars, r.value.settings, isRedoPath)
      ensures r.Failure? ==> !r.error.Usage?
    {
      var isToplevel := PrepareNoState(pe);
      ghost var prepared := pe.vars;
      var inherited := Inherit(pe, isRedoPath);
      if inherited.Failure? {
        assert GetBool(prepared, REDO) && inherited.error == Decode(prepared, isRedoPath).error;
        return Failure(inherited.error);
      }
      var env := new Env(isToplevel, inherited.value.settings, None);
      r := Success(env);
    }

    /**
     * `Env::init` (src/env.rs:86-184): start the session where needed (`Started`), then
     * inherit it. The operating-system calls are inputs: the executable path and its
     * canonical form, the result of creating the helper-links directory, the working
     * directory, and the set of paths that exist.
     */
    static method Init(pe: ProcessEnv, targets: seq<PathName>,
                       exe: IoResult<Components>, canonical: IoResult<Components>,
                       linksDir: IoResult<Components>, cwd: IoResult<Components>,
                       fs: set<Components>, isRedoPath: TargetCheck)
      returns (r: Result<Env, RedoError>)
      modifies pe
      ensures var st := Started(old(pe.vars), targets, exe, canonical, linksDir, cwd, fs);
        if st.outcome.Failure? then r == Failure(st.outcome.error) && pe.vars == st.vars
        else if Decode(st.vars, isRedoPath).Failure? then
          r == Failure(Decode(st.vars, isRedoPath).error) && pe.vars == st.vars
        else
          && r.Success? && fresh(r.value)
          && r.value.settings == Decode(st.vars, isRedoPath).value
          && r.value.isToplevel == !GetBool(old(pe.vars), REDO)
          && r.value.linksDir == st.outcome.value
          && pe.vars == ClearNonInheritable(st.vars)
      ensures r.Success? ==> Agrees(pe.vars, r.value.settings, isRedoPath)
      ensures r.Failure? ==> !r.error.Usage?
    {
      var isToplevel := !GetBool(pe.vars, REDO);
      ghost var st := Started(pe.vars, targets, exe, canonical, linksDir, cwd, fs);
      StartedSession(pe.vars, targets, exe, canonical, linksDir, cwd, fs);
      var links := Prepare(pe, targets, exe, canonical, linksDir, cwd, fs);
      if links.Failure? {
        return Failure(links.error);
      }
      var inherited := Inherit(pe, isRedoPath);
      if inherited.Failure? {
        return Failure(inherited.error);
      }
      var env := new Env(isToplevel, inherited.value.settings, links.value);
      r := Success(env);
    }
  }

  /** The first half of `init_no_state`: mark the session as started where it is not. */
  method PrepareNoState(pe: ProcessEnv) returns (isToplevel: bool)
    modifies pe
    ensures pe.vars == NoStateVars(old(pe.vars))
    ensures isToplevel == !GetBool(old(pe.vars), REDO)
  {
    isToplevel := false;
    if !GetBool(pe.vars, REDO) {
      pe.vars := pe.vars[REDO := NOT_DEFINED];
      isToplevel := true;
    }
    if !GetBool(pe.vars, BASE) {
      pe.vars := pe.vars[BASE := NOT_DEFINED];
    }
  }

  /** The owned helper-links directory as a list of zero or one directories. */
  function LinksList(links: Option<Components>): (r: seq<Components>)
    ensures |r| <= 1 && (r == [] <==> links.None?)
  {
    if links.Some? then [links.value] else []
  }

  /** The environment `init` leaves before it inherits, and the owned helper-links directory or the error. */
  datatype Startup = Startup(vars: Environ, outcome: Result<Option<Components>, RedoError>)

  /**
   * The operating-system calls the bootstrap makes all succeed: the executable path and its
   * canonical form, and the links directory unless a candidate holds `redo-unlocked`.
   */
  predicate BootstrapOk(exe: IoResult<Components>, canonical: IoResult<Components>,
                        linksDir: IoResult<Components>, fs: set<Components>)
  {
    exe.IoOk? && canonical.IoOk? &&
    (AnyUnlocked(Candidates(ExeDirs(exe.value, canonical.value)), fs) || linksDir.IoOk?)
  }

  /**
   * The toplevel bootstrap of `Env::init` (src/env.rs:90-133): the executable's directories
   * give the candidates; unless one holds `redo-unlocked`, a helper-links directory is
   * created and appended; the search directories are prepended to `PATH` and the
   * executable is recorded in `REDO`. Every error happens before the environment changes.
   */
  function Bootstrapped(vars: Environ, exe: IoResult<Components>, canonical: IoResult<Components>,
                        linksDir: IoResult<Components>, fs: set<Components>): (r: Startup)
    ensures forall k :: k != PATH && k != REDO ==> GetRaw(r.vars, k) == GetRaw(vars, k)
    ensures r.outcome.Failure? ==> r.vars == vars && r.outcome.error.Opaque?
    ensures r.outcome.Success? <==> BootstrapOk(exe, canonical, linksDir, fs)
    ensures exe.IoErr? ==> r.outcome == Failure(Opaque(exe.reason))
    ensures exe.IoOk? && canonical.IoErr? ==> r.outcome == Failure(Opaque(canonical.reason))
    ensures exe.IoOk? && canonical.IoOk? && linksDir.IoErr? &&
            !AnyUnlocked(Candidates(ExeDirs(exe.value, canonical.value)), fs) ==>
              r.outcome == Failure(Opaque(linksDir.reason))
    ensures r.outcome.Success? ==>
      && exe.IoOk? && canonical.IoOk?
      && var tries := Candidates(ExeDirs(exe.value, canonical.value));
         && (r.outcome.value.None? <==> AnyUnlocked(tries, fs))
         && (r.outcome.value.Some? ==> linksDir == IoOk(r.outcome.value.value))
         && GetBool(r.vars, REDO) && GetRaw(r.vars, REDO) == PathString(exe.value)
         && GetRaw(r.vars, PATH) == SearchPathPrefix(Dedup(tries) + LinksList(r.outcome.value)) + GetRaw(vars, PATH)
  {
    if exe.IoErr? then Startup(vars, Failure(Opaque(exe.reason)))
    else if canonical.IoErr? then Startup(vars, Failure(Opaque(canonical.reason)))
    else
      var tries := Candidates(ExeDirs(exe.value, canonical.value));
      if AnyUnlocked(tries, fs) then
        assert Dedup(tries) + LinksList(None) == Dedup(tries);
        Startup(ToplevelVars(vars, exe.value, Dedup(tries)), Success(None))
      else if linksDir.IoErr? then Startup(vars, Failure(Opaque(linksDir.reason)))
      else Startup(ToplevelVars(vars, exe.value, Dedup(tries) + [linksDir.value]), Success(Some(linksDir.value)))
  }

  /** The environment after the bootstrap step, which only a process outside a session performs. */
  function Booted(vars: Environ, exe: IoResult<Components>, canonical: IoResult<Components>,
                  linksDir: IoResult<Components>, fs: set<Components>): Startup
  {
    if GetBool(vars, REDO) then Startup(vars, Success(None))
    else Bootstrapped(vars, exe, canonical, linksDir, fs)
  }

  /**
   * `Env::init` up to `inherit` (src/env.rs:86-178): bootstrap outside a session, then,
   * unless an ancestor recorded one, resolve the base directory from the working directory
   * and record it with the working directory. A failure keeps what was already written.
   */
  function Started(vars: Environ, targets: seq<PathName>,
                   exe: IoResult<Components>, canonical: IoResult<Components>,
                   linksDir: IoResult<Components>, cwd: IoResult<Components>, fs: set<Components>): Startup
  {
    var booted := Booted(vars, exe, canonical, linksDir, fs);
    if booted.outcome.Failure? || GetBool(booted.vars, BASE) then booted
    else if cwd.IoErr? then Startup(booted.vars, Failure(Opaque(cwd.reason)))
    else
      match BaseFor(targets, cwd.value, fs)
      case Failure(e) => Startup(booted.vars, Failure(e))
      case Success(b) => Startup(BaseVars(booted.vars, b, cwd.value), booted.outcome)
  }

  /** A successful start leaves a session that `inherit` accepts the marker of; a failure is never a usage error. */
  lemma StartedSession(vars: Environ, targets: seq<PathName>,
                       exe: IoResult<Components>, canonical: IoResult<Components>,
                       linksDir: IoResult<Components>, cwd: IoResult<Components>, fs: set<Components>)
    ensures var st := Started(vars, targets, exe, canonical, linksDir, cwd, fs);
      && (st.outcome.Success? ==> GetBool(st.vars, REDO) && GetBool(st.vars, BASE))
      && (st.outcome.Failure? ==> st.outcome.error.Opaque? || st.outcome.error.InvalidTarget?)
  {
    if cwd.IoOk? {
      BaseForFails(targets, cwd.value, fs);
    }
  }

  /**
   * A start succeeds exactly when the bootstrap's calls succeed (outside a session) and,
   * without a recorded base, the working directory is known and every target has a parent.
   * The working directory is asked for before any target is looked at.
   */
  lemma StartedSucceeds(vars: Environ, targets: seq<PathName>,
                        exe: IoResult<Components>, canonical: IoResult<Components>,
                        linksDir: IoResult<Components>, cwd: IoResult<Components>, fs: set<Components>)
    ensures var st := Started(vars, targets, exe, canonical, linksDir, cwd, fs);
      st.outcome.Success? <==>
        && (GetBool(vars, REDO) || BootstrapOk(exe, canonical, linksDir, fs))
        && (GetBool(vars, BASE) || (cwd.IoOk? && forall i :: 0 <= i < |targets| ==> targets[i].parts != []))
    ensures (GetBool(vars, REDO) || BootstrapOk(exe, canonical, linksDir, fs)) && !GetBool(vars, BASE) && cwd.IoErr? ==>
      Started(vars, targets, exe, canonical, linksDir, cwd, fs).outcome == Failure(Opaque(cwd.reason))
  {
    var booted := Booted(vars, exe, canonical, linksDir, fs);
    assert GetRaw(booted.vars, BASE) == GetRaw(vars, BASE);
    if cwd.IoOk? {
      BaseForFails(targets, cwd.value, fs);
    }
  }

  /** Inside a session `init` keeps `REDO` and `PATH` and owns no links directory. */
  lemma StartedKeepsSession(vars: Environ, targets: seq<PathName>,
                            exe: IoResult<Components>, canonical: IoResult<Components>,
                            linksDir: IoResult<Components>, cwd: IoResult<Components>, fs: set<Components>)
    requires GetBool(vars, REDO)
    ensures var st := Started(vars, targets, exe, canonical, linksDir, cwd, fs);
      && GetRaw(st.vars, REDO) == GetRaw(vars, REDO) && GetRaw(st.vars, PATH) == GetRaw(vars, PATH)
      && (st.outcome.Success? ==> st.outcome.value.None?)
  {
  }

  /** Below a base recorded by an ancestor, `init` keeps `REDO_BASE` and `REDO_STARTDIR`. */
  lemma StartedKeepsBase(vars: Environ, targets: seq<PathName>,
                         exe: IoResult<Components>, canonical: IoResult<Components>,
                         linksDir: IoResult<Components>, cwd: IoResult<Components>, fs: set<Components>)
    requires GetBool(vars, BASE)
    ensures var st := Started(vars, targets, exe, canonical, linksDir, cwd, fs);
      GetRaw(st.vars, BASE) == GetRaw(vars, BASE) && GetRaw(st.vars, STARTDIR) == GetRaw(vars, STARTDIR)
  {
  }

  /**
   * A toplevel start records the executable, owns a links directory exactly when no
   * candidate holds `redo-unlocked`, and prefixes `PATH` with the distinct candidates and
   * then that directory.
   */
  lemma StartedToplevel(vars: Environ, targets: seq<PathName>,
                        exe: IoResult<Components>, canonical: IoResult<Components>,
                        linksDir: IoResult<Components>, cwd: IoResult<Components>, fs: set<Components>)
    requires !GetBool(vars, REDO)
    requires Started(vars, targets, exe, canonical, linksDir, cwd, fs).outcome.Success?
    ensures exe.IoOk? && canonical.IoOk?
    ensures var st := Started(vars, targets, exe, canonical, linksDir, cwd, fs);
      var tries := Candidates(ExeDirs(exe.value, canonical.value));
      && (st.outcome.value.None? <==> AnyUnlocked(tries, fs))
      && (st.outcome.value.Some? ==> linksDir == IoOk(st.outcome.value.value))
      && GetRaw(st.vars, REDO) == PathString(exe.value)
      && GetRaw(st.vars, PATH) == SearchPathPrefix(Dedup(tries) + LinksList(st.outcome.value)) + GetRaw(vars, PATH)
  {
    var st := Started(vars, targets, exe, canonical, linksDir, cwd, fs);
    var booted := Booted(vars, exe, canonical, linksDir, fs);
    assert booted == Bootstrapped(vars, exe, canonical, linksDir, fs);
    assert st.outcome == booted.outcome;
    if !GetBool(booted.vars, BASE) {
      assert st.vars == BaseVars(booted.vars, BaseFor(targets, cwd.value, fs).value, cwd.value);
    }
    assert GetRaw(st.vars, PATH) == GetRaw(booted.vars, PATH) && GetRaw(st.vars, REDO) == GetRaw(booted.vars, REDO);
  }

  /**
   * Without a recorded base, a successful start records the resolved base of the targets
   * and the working directory.
   */
  lemma StartedBase(vars: Environ, targets: seq<PathName>,
                    exe: IoResult<Components>, canonical: IoResult<Components>,
                    linksDir: IoResult<Components>, cwd: IoResult<Components>, fs: set<Components>)
    requires !GetBool(vars, BASE)
    requires Started(vars, targets, exe, canonical, linksDir, cwd, fs).outcome.Success?
    ensures cwd.IoOk? && BaseFor(targets, cwd.value, fs).Success?
    ensures var st := Started(vars, targets, exe, canonical, linksDir, cwd, fs);
      && GetRaw(st.vars, BASE) == PathString(BaseFor(targets, cwd.value, fs).value)
      && GetRaw(st.vars, STARTDIR) == PathString(cwd.value)
  {
    var booted := Booted(vars, exe, canonical, linksDir, fs);
    assert GetRaw(booted.vars, BASE) == GetRaw(vars, BASE);
  }

  /** `init` writes only `PATH`, `REDO`, `REDO_BASE` and `REDO_STARTDIR` before it inherits. */
  lemma StartedFrame(vars: Environ, targets: seq<PathName>,
                     exe: IoResult<Components>, canonical: IoResult<Components>,
                     linksDir: IoResult<Components>, cwd: IoResult<Components>, fs: set<Components>, k: string)
    requires k != PATH && k != REDO && k != BASE && k != STARTDIR
    ensures GetRaw(Started(vars, targets, exe, canonical, linksDir, cwd, fs).vars, k) == GetRaw(vars, k)
  {
    var booted := Booted(vars, exe, canonical, linksDir, fs);
    assert GetRaw(booted.vars, k) == GetRaw(vars, k);
  }

  /** The bootstrap of `Env::init` (src/env.rs:90-133) as the process performs it. */
  method Bootstrap(pe: ProcessEnv, exe: IoResult<Components>, canonical: IoResult<Components>,
                   linksDir: IoResult<Components>, fs: set<Components>)
    returns (r: Result<Option<Components>, RedoError>)
    modifies pe
    ensures var st := Bootstrapped(old(pe.vars), exe, canonical, linksDir, fs);
      pe.vars == st.vars && r == st.outcome
  {
    if exe.IoErr? {
      return Failure(Opaque(exe.reason));
    }
    if canonical.IoErr? {
      return Failure(Opaque(canonical.reason));
    }
    var tryNames := Candidates(ExeDirs(exe.value, canonical.value));
    var dirs, foundUnlocked := SelectSearchDirs(tryNames, fs);
    var links: Option<Components> := None;
    if !foundUnlocked {
      if linksDir.IoErr? {
        return Failure(Opaque(linksDir.reason));
      }
      dirs := dirs + [linksDir.value];
      links := Some(linksDir.value);
    }
    var newPath := JoinSearchPath(dirs, GetRaw(pe.vars, PATH));
    pe.vars := pe.vars[PATH := newPath];
    pe.vars := pe.vars[REDO := PathString(exe.value)];
    r := Success(links);
  }

  /**
   * The base-directory part of `Env::init` (src/env.rs:135-178) as the process performs
   * it: the parent directories of the targets, their common ancestor with the working
   * directory, and the walk up to the nearest `.redo` marker.
   */
  method EstablishBase(pe: ProcessEnv, targets: seq<PathName>, cwd: IoResult<Components>, fs: set<Components>)
    returns (r: Result<Option<Components>, RedoError>)
    modifies pe
    ensures cwd.IoErr? ==> r == Failure(Opaque(cwd.reason)) && pe.vars == old(pe.vars)
    ensures cwd.IoOk? && BaseFor(targets, cwd.value, fs).Failure? ==>
      r == Failure(BaseFor(targets, cwd.value, fs).error) && pe.vars == old(pe.vars)
    ensures cwd.IoOk? && BaseFor(targets, cwd.value, fs).Success? ==>
      r.Success? && pe.vars == BaseVars(old(pe.vars), BaseFor(targets, cwd.value, fs).value, cwd.value)
  {
    if cwd.IoErr? {
      return Failure(Opaque(cwd.reason));
    }
    var dir := cwd.value;
    var dirs := ParentDirs(EffectiveTargets(targets), dir);
    if dirs.Failure? {
      return Failure(dirs.error);
    }
    var orig := CommonAll(dirs.value + [dir]);
    var base := FindBase(orig, fs);
    pe.vars := pe.vars[BASE := PathString(base)];
    pe.vars := pe.vars[STARTDIR := PathString(dir)];
    r := Success(None);
  }

  /** `Env::init` up to `inherit` (src/env.rs:86-178) as the process performs it. */
  method Prepare(pe: ProcessEnv, targets: seq<PathName>,
                 exe: IoResult<Components>, canonical: IoResult<Components>,
                 linksDir: IoResult<Components>, cwd: IoResult<Components>, fs: set<Components>)
    returns (r: Result<Option<Components>, RedoError>)
    modifies pe
    ensures var st := Started(old(pe.vars), targets, exe, canonical, linksDir, cwd, fs);
      pe.vars == st.vars && r == st.outcome
  {
    ghost var booted := Booted(pe.vars, exe, canonical, linksDir, fs);
    r := Success(None);
    if !GetBool(pe.vars, REDO) {
      r := Bootstrap(pe, exe, canonical, linksDir, fs);
      if r.Failure? {
        return;
      }
    }
    assert pe.vars == booted.vars && r == booted.outcome;
    if !GetBool(pe.vars, BASE) {
      var established := EstablishBase(pe, targets, cwd, fs);
      if established.Failure? {
        return Failure(established.error);
      }
    }
  }
}
