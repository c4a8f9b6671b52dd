# redo-rs session layer, modelled in Dafny

redo-rs runs a build as a tree of `redo` processes. A parent passes the build session to
its children through environment variables, and `src/env.rs` is the layer that does this:

- it starts a session when no parent did (`Env::init`, `Env::init_no_state`);
- it decodes the session from the environment (`Env::inherit`);
- it updates the session where a process learns something new (`mark_locks_broken`, `fill_runid`);
- it reads integers, booleans and tri-state flags from the environment (`get_int`, `get_bool`, `OptionalBool`).

The model treats the process environment as a finite map from names to values, held by
the `ProcessEnv` object that every operation of a process reads and writes. The filesystem
appears only as the set of paths that exist. A path is a sequence of components.
Operating-system calls become inputs of the operations:

- the executable path (`current_exe`);
- its canonical form (`canonicalize`);
- the helper-links directory or the error from creating it (`make_redo_links_dir`);
- the working directory (`current_dir`).

Validity of a `REDO_TARGET` value (`RedoPathBuf::try_from`) is a predicate parameter,
because `src/helpers.rs` is not part of this model.

Files:

- `wrappers.dfy`: `Option`, `Result`, the error kinds and the result of an operating-system call.
- `optional_bool.dfy` (module `Tristate`): the tri-state flag and its conversions.
- `codec.dfy` (module `Codec`): variable names, the raw read, `get_bool`, `get_int` with an `i64` parser, and `as i32`.
- `paths.dfy` (module `Paths`): paths, parents, and the longest common ancestor (`common_path_all`).
- `resolver.dfy` (module `Resolver`): the base-directory resolution of `init`, with its two loops.
- `search_path.dfy` (module `SearchPath`): the candidate search directories, their de-duplication and the `redo-unlocked` probe, and the new `PATH`.
- `session.dfy` (module `Session`): the decoded settings, and the `Env` class with `inherit`, the mutators, `init` and `init_no_state`.

The central invariant is `Session.Agrees(vars, s, isRedoPath)`. A child process that decodes
`vars` obtains the settings `s`, except for the two flags that are not inherited
(`REDO_UNLOCKED`, `REDO_NO_OOB`). `inherit`, `init` and `init_no_state` establish it.
`mark_locks_broken` preserves it (`LocksBrokenAgrees`), and so does `fill_runid`
(`RunidAgrees`), except that a run id of 0 is read back as no run id.

`init` is stated against the specification function `Session.Started`: the environment
before `inherit`, plus the owned links directory or the error. The `Started*` lemmas state
what that environment holds.

Two behaviours of the code differ from what a reader might expect, and the model states
what the code does:

- One might expect every stored level other than 0 and 1 to read as On. But the levels
  `log`, `color` and `pretty` are stored as `get_int(..) as i32`, which keeps only the low
  32 bits of the `i64`. So `REDO_LOG=4294967296` decodes to level 0 and reads as Off
  (`Session.LogLevelWraps`).
- One might expect targets `a/b/out` and `a/c/out` run from `/proj` to give the base
  `/proj/a`, the common ancestor of their directories. But the working directory joins
  the common ancestor (src/env.rs:157), so the base is `/proj`
  (`Resolver.TwoSiblingTargetsFromProj`).

## Model

| member | source | states |
|---|---|---|
| Tristate.OptionalBool.UnwrapOr | src/env.rs:420-428 | On gives true, Off gives false, Auto gives the default |
| Tristate.OptionalBool.UnwrapOrElse | src/env.rs:430-438 | Auto gives the closure's value; otherwise true exactly for On |
| Tristate.OptionalBool.ToOption | src/env.rs:468-476 | None exactly for Auto; otherwise Some(true) exactly for On |
| Tristate.OptionalBool.Level | src/env.rs:411-417 | the `repr(u8)` discriminant is at most 2 |
| Tristate.DefaultFlag | src/env.rs:441-446 | the default flag defers to every default and converts to None (it is Auto) |
| Tristate.FromOption | src/env.rs:458-466 | Auto exactly for None; Some(b) gives a flag that unwraps to b whatever the default |
| Tristate.FromLevel | src/env.rs:333-342 | stored 0 is Off, 1 is Auto, every other integer (negative or above 2) is On, in both directions |
| Tristate.UnwrapOrElseIsUnwrapOr | src/env.rs:419-438 | `unwrap_or_else(f)` equals `unwrap_or(f())` for every flag |
| Tristate.OptionRoundTrips | src/env.rs:458-476 | the two `Option<bool>` conversions are mutual inverses |
| Tristate.LevelRoundTrip | src/env.rs:411-417 | decoding a flag's discriminant gives the flag back |
| Codec.GetRaw | src/env.rs:235-236 | the value when the variable is set, else the empty string |
| Codec.GetBool | src/env.rs:406-408 | true exactly when the variable is set and non-empty |
| Codec.ParseI64 | src/env.rs:402 | a parse needs a sign or digit first, a negative result needs `-`, and every in-range digit string parses to its value |
| Codec.GetInt | src/env.rs:399-404 | the default when the variable is unset or does not parse, else the parsed value |
| Codec.WrapI32 | src/env.rs:244 | `as i32` differs from its input by a multiple of 2^32 and keeps every `i32` value |
| Codec.NatStringDigits | src/env.rs:395 | the decimal form of a natural number is non-empty digits whose value is the number |
| Codec.ParseIntString | src/env.rs:395-402 | parsing the decimal form of an `i64` gives the number back |
| Codec.GetIntAfterWrite | src/env.rs:392-404 | a variable written with an `i64`'s decimal form reads back as that number |
| Codec.ReadsOfOtherKeys | src/env.rs:399-408 | writing one variable leaves the raw, boolean and integer reads of every other variable unchanged |
| Paths.Parent | src/env.rs:145 | none exactly for an empty path; otherwise the path minus its last component, same rootedness |
| Paths.ParentDir | src/env.rs:169-173 | none exactly at the root; otherwise a prefix one component shorter |
| Paths.PathString | src/env.rs:176-177 | a recorded directory's text starts with `/` |
| Paths.CommonPrefix | src/env.rs:154-159 | the common path of two paths is a prefix of both |
| Paths.CommonAll | src/env.rs:154-159 | the common path of a non-empty list is a prefix of each member |
| Paths.CommonPrefixLongest | src/env.rs:154-159 | every common prefix of two paths is a prefix of their common path |
| Paths.CommonAllLongest | src/env.rs:154-159 | every prefix of all members is a prefix of their common path |
| Paths.CommonPrefixSelf | src/env.rs:154-159 | the common path of a path with itself is the path |
| Resolver.MarkedAncestorIsNearest | src/env.rs:160-176 | a found directory is a marked ancestor-or-self with no deeper marked ancestor; nothing is found exactly when no ancestor up to the root is marked |
| Resolver.FindBase | src/env.rs:160-176 | the upward walk returns the nearest marked ancestor-or-self, else the starting directory, and always an ancestor-or-self |
| Resolver.ParentDirs | src/env.rs:143-153 | the loop computes the parent directories or the first invalid target, as `ParentDirsOf` |
| Resolver.ParentDirsOfMeaning | src/env.rs:143-153 | success exactly when every target has a parent; the i-th result is the absolute parent of the i-th target; a failure carries the first target without a parent |
| Resolver.EffectiveTargets | src/env.rs:136-141 | no targets means the single target `all`; otherwise the targets as given |
| Resolver.BaseForMeaning | src/env.rs:135-177 | the base is the deepest marked ancestor-or-self of the common ancestor of the parent directories and cwd, else that common ancestor, which is the longest common prefix |
| Resolver.BaseForFails | src/env.rs:143-153 | resolution fails exactly when some target has no parent, with `InvalidTarget` |
| Resolver.NoTargetsStartAtCwd | src/env.rs:136-141 | with no targets, the walk starts at the working directory |
| Resolver.TwoSiblingTargetsFromProj | src/env.rs:154-177 | `a/b/out` and `a/c/out` from `/proj` with no marker resolve to `/proj` |
| SearchPath.ExeDirs | src/env.rs:92-96 | the executable's directory first, then the canonical form's directory, each present exactly when that path has a parent; equal directories are both kept |
| SearchPath.Candidates | src/env.rs:97-108 | the `../lib/redo` variants, then the `../redo` variants, then the directories themselves, in order |
| SearchPath.Dedup | src/env.rs:112-119 | the same elements, each once |
| SearchPath.DedupOfPrefix | src/env.rs:112-119 | first occurrences are kept: de-duplicating a prefix gives a prefix of the result |
| SearchPath.SelectSearchDirs | src/env.rs:110-119 | the loop keeps the first occurrence of each candidate, and finds `redo-unlocked` exactly when some candidate holds it |
| SearchPath.JoinSearchPath | src/env.rs:125-131 | the new `PATH` is each directory followed by `:`, then the old `PATH` |
| SearchPath.SplitPrepended | src/env.rs:125-131 | the new `PATH` reads back as the directories, in order, then the old entries, when no directory contains `:` |
| Session.Decode | src/env.rs:227-270 | a usage error exactly when `REDO` is unset or empty; `InvalidTarget` for an invalid target; with a valid target, `MalformedDepth` carrying the depth exactly when it is not all spaces; on success the depth, run id (None exactly for 0), base, start directory and both flags as read |
| Session.Fields | src/env.rs:233-264 | depth, target, base and start directory are the raw values; run id None exactly when it reads as 0; `PWD` and the log inode raw; the seven flags as `get_bool` reads them; the six levels as `get_int` with their defaults, cut to `i32` |
| Session.DecodedLevels | src/env.rs:251-254 | unset `REDO_LOG` reads Auto, unset `REDO_COLOR` and `REDO_PRETTY` read Off; set ones are the parsed value cut to `i32` |
| Session.LogLevelWraps | src/env.rs:251 | `REDO_LOG=4294967296` reads as Off |
| Session.ClearNonInheritable | src/env.rs:271-273 | both flags read as unset and no other variable changes |
| Session.InheritedAgrees | src/env.rs:227-275 | after the clearing, a child decodes the same session without the two flags |
| Session.LocksBroken | src/env.rs:388-389 | locks broken and logging Off, every other setting unchanged |
| Session.LocksBrokenVars | src/env.rs:383-386 | `REDO_LOCKS_BROKEN` is set and `REDO_LOG` reads 0, no other variable changes |
| Session.LocksBrokenIdempotent | src/env.rs:382-390 | marking locks broken twice is marking them once, in the session and in the environment |
| Session.LocksBrokenAgrees | src/env.rs:382-390 | after marking, a child decodes locks broken and logging off, the rest unchanged |
| Session.RunidVars | src/env.rs:395 | `REDO_RUNID` reads back as the run id, no other variable changes |
| Session.RunidAgrees | src/env.rs:392-396 | after `fill_runid`, a child decodes the new run id, or none for run id 0 |
| Session.NoStateVars | src/env.rs:212-219 | `REDO` and `REDO_BASE` become `NOT_DEFINED` only where unset or empty, nothing else changes |
| Session.ToplevelVars | src/env.rs:125-133 | `REDO` holds the executable, `PATH` is the directories then the old `PATH`, nothing else changes |
| Session.ToplevelPathEntries | src/env.rs:125-132 | the new `PATH` lists the search directories ahead of the old entries |
| Session.BaseVars | src/env.rs:176-177 | `REDO_BASE` and `REDO_STARTDIR` hold the base and the working directory, nothing else changes |
| Session.Env.Log | src/env.rs:333-342 | stored 0 is Off, 1 is Auto, anything else On |
| Session.Env.Color | src/env.rs:349-358 | stored 0 is Off, 1 is Auto, anything else On |
| Session.Env.Pretty | src/env.rs:360-369 | stored 0 is Off, 1 is Auto, anything else On |
| Session.Env.Inherit | src/env.rs:227-275 | a decode error leaves the environment alone; on success the settings are the decoded ones, the session is not toplevel, the two flags are cleared, and the environment agrees with the settings |
| Session.Env.MarkLocksBroken | src/env.rs:382-390 | session and environment become `LocksBroken` of the old ones, logging reads Off |
| Session.Env.FillRunid | src/env.rs:392-396 | requires no run id; sets it, and `REDO_RUNID` reads back as it |
| Session.Env.InitNoState | src/env.rs:210-224 | inherits from `NoStateVars` of the environment, toplevel exactly when `REDO` was unset or empty, never a usage error |
| Session.PrepareNoState | src/env.rs:212-219 | the environment becomes `NoStateVars`, toplevel exactly when `REDO` was unset or empty |
| Session.Env.Init | src/env.rs:86-184 | a start error or decode error is returned; otherwise the session inherits `Started`, toplevel exactly when `REDO` was unset or empty, owns the links directory `Started` gives, agrees with the environment; never a usage error |
| Session.Bootstrapped | src/env.rs:89-133 | succeeds exactly when the executable path and its canonical form are obtained and either a candidate holds `redo-unlocked` or the links directory is created; the first failing call's error is returned (executable, then canonical form, then links directory) and changes nothing; success records the executable, owns a links directory exactly when no candidate holds `redo-unlocked`, and prefixes `PATH` with the distinct candidates then that directory |
| Session.StartedSession | src/env.rs:86-178 | a successful start leaves `REDO` and `REDO_BASE` set; a failure is an OS error or `InvalidTarget` |
| Session.StartedSucceeds | src/env.rs:86-178 | a start succeeds exactly when the bootstrap succeeds or a session exists, and a base is recorded or the working directory is known and every target has a parent; a failing working directory is reported before any target |
| Session.StartedKeepsSession | src/env.rs:89-134 | inside a session `REDO` and `PATH` are kept and no links directory is owned |
| Session.StartedKeepsBase | src/env.rs:135-178 | a recorded base keeps `REDO_BASE` and `REDO_STARTDIR` |
| Session.StartedToplevel | src/env.rs:89-134 | a toplevel start records the executable, owns links exactly when no candidate holds `redo-unlocked`, and prefixes `PATH` |
| Session.StartedBase | src/env.rs:135-178 | without a recorded base, success records the resolved base of the targets and the working directory |
| Session.StartedFrame | src/env.rs:86-178 | only `PATH`, `REDO`, `REDO_BASE` and `REDO_STARTDIR` change before `inherit` |
| Session.Bootstrap | src/env.rs:89-133 | the process environment and the result are those of `Bootstrapped` |
| Session.EstablishBase | src/env.rs:135-178 | an OS or target error changes nothing; success records `BaseFor`'s base and the working directory |
| Session.Prepare | src/env.rs:86-178 | the process environment and the result are those of `Started` |

## Left out

- Reading and writing the real process environment: the model reads and writes a map field instead. `env::var` fails on values that are not Unicode, where `var_os` does not; that difference is not modelled, and every value is a string.
- `current_exe`, `canonicalize`, `current_dir`: their results are inputs, and a failure is an opaque error.
- `make_redo_links_dir` (src/env.rs:186-208), which creates a temporary directory of symbolic links. It is an input: the directory, or the error from creating it.
- The `Rc<TempDir>` that removes the links directory when the last session object is dropped: resource lifetime, not modelled.
- `helpers::abs_path` and `RedoPath` normalisation: a relative target's parent is appended to the working directory as it is. Components such as `..` are compared as written, as `Path` equality does.
- `RedoPathBuf::try_from`: its validity check is a predicate parameter of `inherit`.
- Error values: the usage error and the depth error are plain message errors in the source. Here they are the kinds `Usage` and `MalformedDepth`, and the message text is not modelled.
- The trivial accessors and setters (`is_toplevel()`, `base()`, `set_debug_locks`, ...): they only read or write a field of `settings`.
- The `Display` impl of `OptionalBool`: text formatting only.
- Passing the environment to child processes at spawn time: operating-system behaviour. The `Agrees` invariant states what a child decodes from the map it is given.
- Session.Env.FillRunid: the source's `assert!(self.runid.is_none())` panics on a second call. Here it is a precondition, so the panic path is not modelled.
- Session.Env.Init: a failure after the bootstrap leaves `PATH` and `REDO` written, as in the source. Cleanup of the links directory on that path is not modelled.
