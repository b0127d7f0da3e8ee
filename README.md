# Launch_LocalSystem, modelled in Dafny

Launch_LocalSystem starts a program as the SYSTEM account. Its `main` does the following:

1. It finds the process `winlogon.exe` in a snapshot of the process table (`GetWinlogonPid`).
2. It opens its own access token and enables `SeDebugPrivilege` on it (`EnablePrivilege`).
3. It opens winlogon's process and that process's token.
4. It duplicates the token as a primary token.
5. It starts the program named on its command line with `CreateProcessAsUser`.

Every failure prints a report, closes by hand the handles acquired so far and exits with 1. Success closes all six handles and exits with 0.

This project models that sequential core. Every Win32 call is a method of the oracle class `Win32.Os`, and the call's outcome is a parameter (`CallResult`: success flag and last-error value). `Os` records four things:

- the ghost set of open handles; each successful acquisition yields a fresh `Handle` object tagged with its role;
- a ghost log of acquisitions and releases, by role;
- the thread's last-error value;
- what was printed, which privilege records reached the kernel, and which command lines were started.

The files are:

- `kernel.dfy` (module `Win32`):
  - the oracle `Os` and the Win32 records (`TOKEN_PRIVILEGES`, `PROCESS_INFORMATION`);
  - `Replay`, which plays a handle log against the set of roles held;
  - `Balanced`, which says the log is leak-free and free of double closes.
- `names.dfy` (module `CaseInsensitive`): `_stricmp` on ASCII C strings.
- `locator.dfy` (module `ProcessLocator`): `GetWinlogonPid` with its do-while scan, and the reference definition `WinlogonPidOf`.
- `privilege.dfy` (module `PrivilegeElevator`): `EnablePrivilege`, and the three-way classification of its failures.
- `launcher.dfy` (module `LaunchLocalSystem`):
  - `main` as the methods `Run`, `EscalateAndOpenWinlogon`, `DuplicateWinlogonToken` and `LaunchAndRelease`;
  - the pure specification `Expected`, built from the phase functions `WithOwnToken`, `WithWinlogonProcess` and `WithPrimaryToken`;
  - the lemmas about that specification.

Each method of `main` is proved to produce exactly what `Expected` (or its phase function) says:

- the exit code;
- the handle log;
- the printed lines;
- the privilege records;
- the started programs;
- the open-handle set, which ends as it began.

The lemmas then prove that `Expected` is balanced on every path, that the exit code is 0 exactly when every call succeeds, and the ordering facts below.

## Model

| member | source | states |
|---|---|---|
| LaunchLocalSystem.Run | main.c:121-165 | main up to the own token, then the rest: exit code, handle log, output, privilege records and launched programs equal `Expected(args, env)`; the set of open handles is the same at exit as at entry |
| LaunchLocalSystem.EscalateAndOpenWinlogon | main.c:167-179 | with the own token open and owned: enables the debug privilege, opens winlogon's process, continues; every result equals `WithOwnToken`, and the own token is no longer open |
| LaunchLocalSystem.DuplicateWinlogonToken | main.c:181-196 | with own token and winlogon process owned: opens winlogon's token and duplicates it; results equal `WithWinlogonProcess`, both owned handles closed, no privilege record sent |
| LaunchLocalSystem.LaunchAndRelease | main.c:198-229 | with the four handles owned: creates the process; results equal `WithPrimaryToken`, and all four handles (and the two new ones) are closed |
| LaunchLocalSystem.UsageOpensNothing | main.c:124-141 | fewer than two arguments: exit 1, the banner only, no handle acquired or released, no privilege record, nothing started |
| LaunchLocalSystem.ExitCodeReflectsOutcome | main.c:124-229 | the exit code is 0 or 1, and 0 exactly when there is a program argument and every call succeeds, process creation included |
| LaunchLocalSystem.RunIsBalanced | main.c:149-229 | on every path each handle acquired is released exactly once after its acquisition, none is released that was not acquired, none is left open |
| LaunchLocalSystem.OwnTokenPhaseBalanced | main.c:167-226 | from the privilege step on, starting with only the own token held, every path releases everything it acquires and the own token |
| LaunchLocalSystem.WinlogonProcessPhaseBalanced | main.c:181-226 | from opening winlogon's token on, with own token and winlogon process held, every path ends holding nothing |
| LaunchLocalSystem.PrimaryTokenPhaseBalanced | main.c:198-226 | from process creation on, with the four handles held, both paths release them and the new process and thread handles |
| LaunchLocalSystem.NotFoundTouchesNoToken | main.c:149-155 | when no winlogon pid is found: exit 1, only the snapshot ever appears in the handle log, no privilege record, nothing started |
| LaunchLocalSystem.LocateBeforeOwnToken | main.c:149-162 | whenever the own token is opened, a pid was found first and the log begins snapshot opened, snapshot closed, own token opened |
| LaunchLocalSystem.PrivilegeBeforeProcessAccess | main.c:167-174 | winlogon's process is opened only after the privilege step succeeded, and then exactly one record, enabling the debug privilege's LUID, was sent |
| LaunchLocalSystem.LaunchOnlyOnSuccess | main.c:198-229 | the new process and thread handles are opened and closed, and a program is started, exactly on the path that exits 0; that program is argv[1] |
| LaunchLocalSystem.LaunchOnlyOnSuccessWithOwnToken | main.c:167-229 | the same launch-only-on-success property for the part of main after the own token is open |
| LaunchLocalSystem.LaunchOnlyOnSuccessWithWinlogonProcess | main.c:181-229 | the same property for the part of main after winlogon's process is open |
| LaunchLocalSystem.OneLinePerRun | main.c:121-229 | every run prints one final line, except that when no pid is found the locator's own report, if any, comes before the "not found" line |
| ProcessLocator.GetWinlogonPid | main.c:83-111 | returns `LocatedPid`; logs an open and a close of the snapshot exactly when it was created; prints the failing call's report; leaves the open set unchanged |
| ProcessLocator.ScanForWinlogon | main.c:95-104 | the do-while with `break` returns `WinlogonPidOf(entries)`: the pid of the first entry whose name is winlogon.exe up to case, else 0 |
| ProcessLocator.WinlogonPidOfFirstMatch | main.c:95-100 | if entry k is the first named winlogon.exe up to case, the scan answers entry k's pid |
| ProcessLocator.WinlogonPidOfNoMatch | main.c:95-104 | if no entry is named winlogon.exe up to case, the scan answers 0 |
| ProcessLocator.WinlogonPidOfSound | main.c:95-104 | a nonzero answer is the pid of an entry so named, and no earlier entry is so named |
| ProcessLocator.LocatedPid | main.c:84-110 | a nonzero pid implies the snapshot was created and the first read succeeded |
| ProcessLocator.LocatedPidFirstMatch | main.c:84-110 | with the snapshot created and its first entry read, the answer is the id of the first entry named winlogon.exe up to case |
| ProcessLocator.LocatedPidZero | main.c:84-110 | the answer is 0 when the snapshot cannot be created, when the first read fails, and when no entry is named winlogon.exe up to case |
| ProcessLocator.LocatorReleasesSnapshot | main.c:85-109 | the snapshot's log is balanced, and it is acquired exactly when its creation succeeds |
| CaseInsensitive.Stricmp | main.c:98 | `_stricmp` over lowered ASCII characters: a string compares equal to itself, and a zero result means the first lowered characters (NUL at the end) agree |
| CaseInsensitive.StricmpZeroIff | main.c:98 | for C strings, `_stricmp(a, b) == 0` exactly when a and b are equal up to the case of ASCII letters |
| PrivilegeElevator.Classify | main.c:56-78 | TRUE only when lookup and adjust succeed and the last error is not ERROR_NOT_ALL_ASSIGNED; each failure kind exactly under its condition |
| PrivilegeElevator.PrivilegeRecord | main.c:62-64 | one entry, count 1, the looked-up LUID, attribute SE_PRIVILEGE_ENABLED exactly when enabling and 0 otherwise |
| PrivilegeElevator.PrivilegeOutput | main.c:56-76 | nothing printed exactly on success; the "token lacks the privilege" line exactly in the ERROR_NOT_ALL_ASSIGNED case |
| PrivilegeElevator.EnablePrivilege | main.c:52-79 | returns TRUE iff `Classify` says enabled; prints `PrivilegeOutput`; sends the record only when the lookup succeeded; leaves the adjust call's (or the lookup's) last error |
| Win32.Os.OpenHandle | main.c:162 | a granted acquisition yields a fresh handle with the requested role, added to the open set and logged; a refused one changes neither |
| Win32.Os.CloseHandle | main.c:109 | only an open handle may be closed; it leaves the open set and its release is logged |
| Win32.Os.LookupPrivilegeValue | main.c:57 | yields the privilege's LUID exactly when the call succeeds, and leaves the call's last error |
| Win32.Os.Process32First | main.c:95 | the first read succeeds exactly when the call succeeds and the snapshot has an entry |
| Win32.Os.AdjustTokenPrivileges | main.c:67 | the record reaches the kernel whether or not the call succeeds; success and last error are the kernel's answer |
| Win32.Os.CreateProcessAsUser | main.c:199-210 | on success two fresh, distinct handles (process and thread) are opened and logged, and the command line is started |
| Win32.Os.Say | main.c:153 | a fixed line (not found here; also the privilege line at main.c:74, the success line at main.c:228 and the banner) is appended to the output and nothing else changes |
| Win32.Os.PrintError | main.c:25-48 | prints one report naming the failing call and the current last-error code |

## Left out

- PrintError's message formatting (`FormatMessage`, `LocalAlloc`, `sprintf`) is modelled only as a report of the operation name and the error code. When `FormatMessage` fails, `lpMsgBuf` is never set and `strlen` reads it (main.c:27, 33-40). The model does not claim the reporter cannot crash.
- Console colours, the banner's text and `setlocale` (main.c:115-118, 122, 127-139) are console output with no effect on the handles. The banner is one `Usage` line.
- Win32 semantics are out of scope: access masks, impersonation levels, `SE_DEBUG_NAME` and the other `CreateProcessAsUser` parameters. Every call is an oracle that grants or refuses.
- Which pid, process or token a call reaches is not modelled. The model records the role of each handle, not the kernel object behind it.
- ProcessLocator.GetWinlogonPid: the last-error value is stated only on the paths that make no Process32Next call. When the scan runs, the final Process32Next call (main.c:104) sets the last error, for example to ERROR_NO_MORE_FILES at the end of the list. Process32Next is modelled as "there is a next entry", not as an oracle call, and nothing in `main` reads this value.
- CaseInsensitive.Stricmp: `_stricmp` is modelled with ASCII case folding only. The program sets the `ru_RU.UTF-8` locale, so its C library may fold more characters.
- `szExeFile` is truncated to `MAX_PATH` characters by the kernel. The model takes the names as the snapshot reports them.
- Process32Next failing for a reason other than the end of the list stops the scan. The model covers this because the snapshot's entry list can stand for the prefix the scan actually reaches.
- The launched process's lifetime and behaviour after main.c:221-222 are not modelled.
- LaunchLocalSystem.Run: `main` is modelled as four methods, split at main.c lines 167, 181 and 198. Each part owns the handles acquired before it, so each proof stays small. The calls and their order are the program's own.
- LaunchLocalSystem.Run: the last-error value `main` leaves behind is not stated. Nothing reads it after `main` returns.
- There is no concurrency in the program.
- Not every failure prints exactly one message. The code prints two when the snapshot cannot be created or its first entry cannot be read: the locator's report, then "not found" (main.c:87, 106, 153). The model follows the code; see `OneLinePerRun`.
