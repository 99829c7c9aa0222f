# chmod in the mergerfs union filesystem, modelled in Dafny

mergerfs presents several directory trees ("branches") as one mount. This
project models its `chmod` call from `src/chmod.cpp`. The FUSE entry point
`mergerfs::fuse::chmod` takes one of two routes:

- A NULL path with an open file handle goes to the handle route,
  `local::fchmod`. It calls native `fchmod` on the descriptor stored in the
  handle's `FileInfo` and touches nothing else.
- Every other call takes the path route. The caller's uid/gid is switched in
  (`ugid::Set`) and the branch lock is read-locked (`ReadGuard`). Then the
  configured action policy is asked for base paths. If it fails, the call
  returns `-errno`. Otherwise `chmod_loop` runs native `chmod` on every
  selected branch, in the policy's order, without stopping at a failure. It
  threads an accumulator through `error::calc(rv, prev, errno)`, seeded with
  -1, and returns the negated accumulator.

Everything outside the file becomes an explicit input:

- Native `chmod` and `fchmod` are functions from their arguments to the
  `BranchOutcome(rv, errno)` they report.
- The action policy is a function from the branch list, FUSE path and
  minimum free space to `PolicyError(errno)` or `Selected(basepaths)`.
- `error::calc` is the function parameter `errorCalc`.

Each call returns its result code and an `Event` trace. The trace records
the identity guard taken and released, lock and unlock, the policy call, each
branch chmod together with the accumulator passed to it, and the descriptor
chmod.

`error::calc` is declared in `errno.hpp`, which is not part of this model.
Its intended contract is the predicate `ErrorCalc.CalcContract`:

- a success (`rv != -1`) yields 0;
- a failure keeps an accumulator that is already 0;
- otherwise a failure takes the current errno.

Every lemma that needs the contract takes it as an explicit `requires`.
`IntendedCalc` is one function that meets it. Under this contract the loop
agrees with an independent reference aggregate, `ErrorCalc.Aggregate`:
success if any branch succeeded, otherwise the errno of the last branch. This
needs every failed native call before the last to have set a nonzero errno.
The lemma `ZeroErrnoMasksFailure` shows what happens otherwise.

`local::chmod` (src/chmod.cpp:84-88) does not check for an empty selection,
so `chmod_loop` returns 1, the negated sentinel. That is a positive code
handed back to FUSE. `ChmodLoop` and `PathRouteReports` state this.

Files: `error_calc.dfy` (module `ErrorCalc`: the accumulator, the fold and
the reference aggregate) and `chmod.dfy` (module `Chmod`: the call itself).

## Model

| member | source | states |
|---|---|---|
| `ErrorCalc.IntendedCalcMeetsContract` | src/chmod.cpp:53 | the assumed contract of `error::calc` can be met, so no lemma that assumes it is vacuous |
| `ErrorCalc.FoldAfterSuccess` | src/chmod.cpp:64-68 | once any branch has succeeded, the accumulator is 0 from any seed, whatever fails later (success dominates) |
| `ErrorCalc.FoldAllFailed` | src/chmod.cpp:64-68 | if every branch failed, every failure but the last set a nonzero errno, and the seed is nonzero, the accumulator ends at the errno of the last branch (last failure wins) |
| `ErrorCalc.FoldMatchesAggregate` | src/chmod.cpp:64-70 | for a non-empty selection whose failures before the last set a nonzero errno, the negated accumulator seeded with -1 is the code of the reference aggregate: 0 if any branch succeeded, else minus the last branch's errno |
| `ErrorCalc.FoldZeroIffSucceeded` | src/chmod.cpp:64-70 | when every failure set a nonzero errno, the accumulator ends at 0 if and only if some branch succeeded, an empty run included |
| `ErrorCalc.ZeroErrnoMasksFailure` | src/chmod.cpp:53 | a failure that leaves errno 0 zeroes the accumulator, and a later failure keeps it 0, so all branches fail yet the loop reports success |
| `Chmod.ChmodLoopCore` | src/chmod.cpp:41-54 | under the contract of `error::calc`, one branch step yields 0 if its native chmod succeeded or the incoming accumulator was 0, and otherwise that chmod's errno |
| `Chmod.LoopTraceChained` | src/chmod.cpp:64-68 | in the loop's trace the first step receives -1, every later step receives what the previous branch step returned, and the fold equals the last step's return |
| `Chmod.ChmodLoop` | src/chmod.cpp:56-71 | one native chmod per base path, in policy order, none skipped after a failure; each gets the same FUSE path and mode and the previous step's accumulator; the result is minus the left fold of `error::calc` from -1; an empty list returns 1 |
| `Chmod.ActionChmod` | src/chmod.cpp:73-89 | the policy is consulted first and once; on policy failure the result is minus its errno and no branch is touched; otherwise the loop over exactly the selected base paths follows |
| `Chmod.GuardedChmod` | src/chmod.cpp:91-107 | identity guard and read lock are taken before the policy call, and released in reverse order after the last branch step, on both the failure and the success path; the snapshot's branches, policy and minimum free space are what the policy receives |
| `Chmod.Fchmod` | src/chmod.cpp:109-122 | the handle route returns 0 when native fchmod did not return -1 and minus its errno when it did, which is the reference aggregate of that single outcome |
| `Chmod.SingleBranchMatchesHandle` | src/chmod.cpp:117-121 | for the same native outcome, the path loop over one branch and the handle route report the same code |
| `Chmod.FuseChmod` | src/chmod.cpp:129-145 | a NULL path with a handle runs only the descriptor chmod, with no policy, lock or identity switch; every other call, a NULL path without a handle included, runs the guarded path route |
| `Chmod.PathRouteReports` | src/chmod.cpp:75-89 | the path route reports minus the policy's errno on policy failure, 1 on an empty selection, and otherwise (failures before the last having set errno) the reference aggregate of the branch outcomes |

## Left out

- Native `chmod`/`fchmod` and the global `errno` are inputs. A native call's outcome depends only on its arguments, so a base path listed twice gets the same outcome both times.
- `fs::path::make` (joining base path and FUSE path) is opaque. A branch step is identified by the base path and FUSE path it receives.
- The internals of the action policy and of `error::calc` are not part of this model. Both are function parameters, and `error::calc`'s contract is an explicit assumption.
- `ugid::Set` and `ReadGuard` are events in the trace. Real identity switching, a failing identity switch, and concurrent writers on the branch lock are not modelled. The code does not check the identity switch either.
- `IdentityGuardReleased` marks the end of the `ugid::Set` guard's scope. That its destructor restores the earlier identity is decided in `ugid.hpp`, which is not part of this model; the restore is assumed from the guard's scope.
- A NULL `fusepath` with a NULL `ffi` goes to the policy and to `fs::path::make` (src/chmod.cpp:140-144, 49). In C++ building a `std::string` from a NULL `char*` is undefined behaviour. The model instead hands `None` to the policy and the native call as an ordinary value.
- `fuse_get_context`, `Config::get` and the cast of `ffi->fh` to `FileInfo*` are FUSE plumbing. The caller, the configuration snapshot and the `FileInfo` are inputs.
- Integers are unbounded. Negating an accumulator equal to `INT_MIN` cannot happen with real errno values and is not modelled.
- `mode_t` is passed through unchanged. Its bits are not interpreted.
