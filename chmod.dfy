/** The chmod call of the union filesystem: the FUSE entry point, the
  * handle-based route, the path-based route under its identity and
  * configuration guards, the action-policy call and the loop that replicates
  * chmod on every selected branch.
  *
  * The environment is passed in explicitly: the native `chmod` and `fchmod`
  * are functions from their arguments to the (return value, errno) pair they
  * report, the action policy is a function from the branch list to either a
  * failure errno or the selected base paths, and `error::calc` is the
  * parameter `errorCalc`. Every observable effect (guard taken or released,
  * policy consulted, native call issued) is returned as an `Event` trace.
  */
module Chmod {
  import opened ErrorCalc

  datatype Option<T> = None | Some(value: T)

  type Path = string

  /** The path FUSE passes in: a C string, `None` for a NULL pointer. */
  type FusePath = Option<Path>

  /** `mode_t`, a 32-bit unsigned value passed through untouched. */
  newtype Mode = x: int | 0 <= x < 0x1_0000_0000

  /** The caller's identity from the FUSE context. */
  datatype Caller = Caller(uid: nat, gid: nat)

  /** A branch of the union; only its base path matters to chmod. */
  datatype Branch = Branch(basepath: Path)

  /** What the action policy reports: it returned -1 with `errno` set, or it
    * filled the list of base paths to act on, in its own order.
    */
  datatype PolicyResult = PolicyError(errno: int) | Selected(basepaths: seq<Path>)

  type ActionPolicy = (seq<Branch>, FusePath, nat) -> PolicyResult

  /** The configuration snapshot read under the branch lock. */
  datatype Config = Config(branches: seq<Branch>, chmodPolicy: ActionPolicy, minfreespace: nat)

  /** The open-file record that `ffi->fh` points to. */
  datatype FileInfo = FileInfo(fd: int)

  /** Native `chmod` on the full path built from a base path and the FUSE
    * path (the joining itself is opaque), and native `fchmod`.
    */
  type NativeChmod = (Path, FusePath, Mode) -> BranchOutcome
  type NativeFchmod = (int, Mode) -> BranchOutcome

  /** Observable effects of one call, in the order they happen. */
  datatype Event =
    | IdentitySet(caller: Caller)
    | ReadLocked
    | PolicyCalled(branches: seq<Branch>, fusepath: FusePath, minfreespace: nat)
    | BranchChmod(basepath: Path, fusepath: FusePath, mode: Mode, errorIn: int)
    | DescriptorChmod(fd: int, mode: Mode)
    | ReadUnlocked
    | IdentityGuardReleased

  /** The outcome of the native call on each base path, in order. */
  function Outcomes(native: NativeChmod, basepaths: seq<Path>, fusepath: FusePath, mode: Mode)
    : seq<BranchOutcome>
  {
    seq(|basepaths|, i requires 0 <= i < |basepaths| => native(basepaths[i], fusepath, mode))
  }

  /** `chmod_loop_core`: chmod one branch and fold its outcome into the
    * accumulator.
    */
  function ChmodLoopCore(basepath: Path, fusepath: FusePath, mode: Mode, error: int,
                         native: NativeChmod, errorCalc: CalcFn): (r: int)
    ensures CalcContract(errorCalc) && Succeeded(native(basepath, fusepath, mode)) ==> r == 0
    ensures CalcContract(errorCalc) && error == 0 ==> r == 0
    ensures CalcContract(errorCalc) && !Succeeded(native(basepath, fusepath, mode)) && error != 0 ==>
              r == native(basepath, fusepath, mode).errno
  {
    Accumulate(errorCalc, error, native(basepath, fusepath, mode))
  }

  /** The trace `chmod_loop` leaves: one native chmod per base path, in order,
    * each with the same FUSE path and mode and with the accumulator built
    * from the branches before it.
    */
  function LoopTrace(basepaths: seq<Path>, fusepath: FusePath, mode: Mode,
                     native: NativeChmod, errorCalc: CalcFn): seq<Event>
  {
    var outs := Outcomes(native, basepaths, fusepath, mode);
    seq(|basepaths|, i requires 0 <= i < |basepaths| =>
      BranchChmod(basepaths[i], fusepath, mode, Fold(errorCalc, NoResult, outs[..i])))
  }

  /** Each step of the trace receives what the previous step returned, the
    * first receives the sentinel, and the fold over all of them is what the
    * last step returned.
    */
  lemma LoopTraceChained(basepaths: seq<Path>, fusepath: FusePath, mode: Mode,
                         native: NativeChmod, errorCalc: CalcFn)
    ensures var t := LoopTrace(basepaths, fusepath, mode, native, errorCalc);
            (|t| > 0 ==> t[0].errorIn == NoResult) &&
            (forall i :: 0 < i < |t| ==>
               t[i].errorIn == ChmodLoopCore(basepaths[i - 1], fusepath, mode, t[i - 1].errorIn, native, errorCalc)) &&
            Fold(errorCalc, NoResult, Outcomes(native, basepaths, fusepath, mode)) ==
              (if t == [] then NoResult
               else ChmodLoopCore(basepaths[|t| - 1], fusepath, mode, t[|t| - 1].errorIn, native, errorCalc))
  {
    var t := LoopTrace(basepaths, fusepath, mode, native, errorCalc);
    var outs := Outcomes(native, basepaths, fusepath, mode);
    forall i | 0 < i < |t|
      ensures t[i].errorIn == ChmodLoopCore(basepaths[i - 1], fusepath, mode, t[i - 1].errorIn, native, errorCalc)
    {
      assert outs[..i][..i - 1] == outs[..i - 1];
    }
    if t != [] {
      assert outs[..|t|] == outs;
      assert outs[..|t|][..|t| - 1] == outs[..|t| - 1];
    }
  }

  /** `chmod_loop`: run the branch step on every base path, in order, with no
    * early exit, threading the accumulator from -1, and return its negation.
    */
  method ChmodLoop(basepaths: seq<Path>, fusepath: FusePath, mode: Mode,
                   native: NativeChmod, errorCalc: CalcFn)
    returns (r: int, events: seq<Event>)
    ensures events == LoopTrace(basepaths, fusepath, mode, native, errorCalc)
    ensures |events| == |basepaths|
    ensures forall i :: 0 <= i < |events| ==>
              events[i].BranchChmod? && events[i].basepath == basepaths[i] &&
              events[i].fusepath == fusepath && events[i].mode == mode
    ensures |events| > 0 ==> events[0].errorIn == NoResult
    ensures forall i :: 0 < i < |events| ==>
              events[i].errorIn == ChmodLoopCore(basepaths[i - 1], fusepath, mode, events[i - 1].errorIn, native, errorCalc)
    ensures r == -Fold(errorCalc, NoResult, Outcomes(native, basepaths, fusepath, mode))
    ensures basepaths == [] ==> r == 1
  {
    ghost var outs := Outcomes(native, basepaths, fusepath, mode);
    ghost var trace := LoopTrace(basepaths, fusepath, mode, native, errorCalc);
    var error := NoResult;
    events := [];
    for i := 0 to |basepaths|
      invariant error == Fold(errorCalc, NoResult, outs[..i])
      invariant events == trace[..i]
    {
      events := events + [BranchChmod(basepaths[i], fusepath, mode, error)];
      assert outs[..i + 1][..i] == outs[..i];
      error := ChmodLoopCore(basepaths[i], fusepath, mode, error, native, errorCalc);
    }
    assert outs[..|basepaths|] == outs;
    assert trace[..|basepaths|] == trace;
    LoopTraceChained(basepaths, fusepath, mode, native, errorCalc);
    r := -error;
  }

  /** Result of the action-policy call: the policy's negated errno, or the
    * loop's result over the selected base paths.
    */
  function ActionResult(policy: ActionPolicy, branches: seq<Branch>, minfreespace: nat,
                        fusepath: FusePath, mode: Mode, native: NativeChmod, errorCalc: CalcFn): int
  {
    match policy(branches, fusepath, minfreespace)
    case PolicyError(e) => -e
    case Selected(bps) => -Fold(errorCalc, NoResult, Outcomes(native, bps, fusepath, mode))
  }

  /** Trace of the action-policy call: the policy, then the loop if any. */
  function ActionTrace(policy: ActionPolicy, branches: seq<Branch>, minfreespace: nat,
                       fusepath: FusePath, mode: Mode, native: NativeChmod, errorCalc: CalcFn): seq<Event>
  {
    [PolicyCalled(branches, fusepath, minfreespace)] +
    match policy(branches, fusepath, minfreespace)
    case PolicyError(_) => []
    case Selected(bps) => LoopTrace(bps, fusepath, mode, native, errorCalc)
  }

  /** The first `local::chmod`: ask the action policy for base paths; on
    * failure return the negated errno at once, otherwise replicate.
    */
  method ActionChmod(policy: ActionPolicy, branches: seq<Branch>, minfreespace: nat,
                     fusepath: FusePath, mode: Mode, native: NativeChmod, errorCalc: CalcFn)
    returns (r: int, events: seq<Event>)
    ensures r == ActionResult(policy, branches, minfreespace, fusepath, mode, native, errorCalc)
    ensures events == ActionTrace(policy, branches, minfreespace, fusepath, mode, native, errorCalc)
    ensures events[0] == PolicyCalled(branches, fusepath, minfreespace)
    ensures forall i :: 1 <= i < |events| ==> events[i].BranchChmod?
    ensures policy(branches, fusepath, minfreespace).PolicyError? ==>
              r == -policy(branches, fusepath, minfreespace).errno && |events| == 1
    ensures policy(branches, fusepath, minfreespace).Selected? ==>
              |events| == 1 + |policy(branches, fusepath, minfreespace).basepaths|
  {
    var selection := policy(branches, fusepath, minfreespace);
    events := [PolicyCalled(branches, fusepath, minfreespace)];
    match selection
    case PolicyError(e) =>
      r := -e;
    case Selected(bps) =>
      var steps;
      r, steps := ChmodLoop(bps, fusepath, mode, native, errorCalc);
      events := events + steps;
  }

  /** Guards bracket the path-based route: the identity switch and the read
    * lock are taken first, released in reverse order last, and only the
    * policy and branch calls happen in between.
    */
  predicate Guarded(events: seq<Event>, caller: Caller) {
    |events| >= 4 &&
    events[0] == IdentitySet(caller) && events[1] == ReadLocked &&
    events[|events| - 2] == ReadUnlocked && events[|events| - 1] == IdentityGuardReleased &&
    forall i :: 2 <= i < |events| - 2 ==> events[i].PolicyCalled? || events[i].BranchChmod?
  }

  /** The second `local::chmod`: switch to the caller's identity, take the
    * branch lock for reading, run the action-policy call on the
    * configuration, and release both on the way out, whichever way it ends.
    */
  method GuardedChmod(caller: Caller, config: Config, fusepath: FusePath, mode: Mode,
                      native: NativeChmod, errorCalc: CalcFn)
    returns (r: int, events: seq<Event>)
    ensures r == ActionResult(config.chmodPolicy, config.branches, config.minfreespace,
                              fusepath, mode, native, errorCalc)
    ensures events == [IdentitySet(caller), ReadLocked] +
                      ActionTrace(config.chmodPolicy, config.branches, config.minfreespace,
                                  fusepath, mode, native, errorCalc) +
                      [ReadUnlocked, IdentityGuardReleased]
    ensures Guarded(events, caller)
    ensures events[2] == PolicyCalled(config.branches, fusepath, config.minfreespace)
  {
    var inner;
    r, inner := ActionChmod(config.chmodPolicy, config.branches, config.minfreespace,
                            fusepath, mode, native, errorCalc);
    events := [IdentitySet(caller), ReadLocked] + inner + [ReadUnlocked, IdentityGuardReleased];
  }

  /** `local::fchmod`: chmod through the stored descriptor; 0 on success,
    * the negated errno when the native call returned -1.
    */
  function Fchmod(fi: FileInfo, mode: Mode, fnative: NativeFchmod): (r: int)
    ensures r == ReturnCode(Aggregate([fnative(fi.fd, mode)]))
  {
    var o := fnative(fi.fd, mode);
    if o.rv == -1 then -o.errno else 0
  }

  /** On one branch with the same native outcome, the path-based loop and
    * the handle-based route report the same code.
    */
  lemma SingleBranchMatchesHandle(basepath: Path, fusepath: FusePath, mode: Mode, fi: FileInfo,
                                  native: NativeChmod, fnative: NativeFchmod, errorCalc: CalcFn)
    requires CalcContract(errorCalc)
    requires native(basepath, fusepath, mode) == fnative(fi.fd, mode)
    ensures -Fold(errorCalc, NoResult, Outcomes(native, [basepath], fusepath, mode)) == Fchmod(fi, mode, fnative)
  {
    var outs := Outcomes(native, [basepath], fusepath, mode);
    assert outs[..0] == [];
    var o := outs[0];
    assert errorCalc(o.rv, NoResult, o.errno) == (if o.rv == -1 then o.errno else 0);
  }

  /** `mergerfs::fuse::chmod`: a NULL path with an open handle goes to the
    * handle route alone; every other call takes the guarded path route.
    */
  method FuseChmod(fusepath: FusePath, mode: Mode, ffi: Option<FileInfo>, caller: Caller,
                   config: Config, native: NativeChmod, fnative: NativeFchmod, errorCalc: CalcFn)
    returns (r: int, events: seq<Event>)
    ensures fusepath.None? && ffi.Some? ==>
              r == Fchmod(ffi.value, mode, fnative) &&
              events == [DescriptorChmod(ffi.value.fd, mode)]
    ensures !(fusepath.None? && ffi.Some?) ==>
              r == ActionResult(config.chmodPolicy, config.branches, config.minfreespace,
                                fusepath, mode, native, errorCalc) &&
              Guarded(events, caller) &&
              events[2..|events| - 2] == ActionTrace(config.chmodPolicy, config.branches, config.minfreespace,
                                                     fusepath, mode, native, errorCalc)
  {
    if fusepath.None? && ffi.Some? {
      r := Fchmod(ffi.value, mode, fnative);
      events := [DescriptorChmod(ffi.value.fd, mode)];
      return;
    }
    r, events := GuardedChmod(caller, config, fusepath, mode, native, errorCalc);
  }

  /** What the whole path route reports, in the terms of the reference
    * aggregate: the policy's negated errno, success when any selected branch
    * succeeded, and otherwise the negated errno of the last branch. An empty
    * selection reports 1, the negated sentinel.
    */
  lemma PathRouteReports(config: Config, fusepath: FusePath, mode: Mode,
                         native: NativeChmod, errorCalc: CalcFn)
    requires CalcContract(errorCalc)
    ensures var sel := config.chmodPolicy(config.branches, fusepath, config.minfreespace);
            var r := ActionResult(config.chmodPolicy, config.branches, config.minfreespace,
                                  fusepath, mode, native, errorCalc);
            match sel
            case PolicyError(e) => r == -e
            case Selected(bps) =>
              var outs := Outcomes(native, bps, fusepath, mode);
              (bps == [] ==> r == 1) &&
              (bps != [] && FailuresCarryErrno(outs[..|outs| - 1]) ==> r == ReturnCode(Aggregate(outs)))
  {
    var sel := config.chmodPolicy(config.branches, fusepath, config.minfreespace);
    if sel.Selected? {
      var outs := Outcomes(native, sel.basepaths, fusepath, mode);
      if sel.basepaths != [] && FailuresCarryErrno(outs[..|outs| - 1]) {
        FoldMatchesAggregate(errorCalc, outs);
      }
    }
  }
}
