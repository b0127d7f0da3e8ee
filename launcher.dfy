/** main of Launch_LocalSystem: find winlogon.exe, enable SeDebugPrivilege on
    the program's own token, open winlogon's process and token, duplicate
    that token as a primary token and start the requested program with it.
    Each failure closes by hand the handles acquired so far and exits with
    1; success closes all six handles and exits with 0. */
module LaunchLocalSystem {
  import opened Win32
  import opened ProcessLocator
  import opened PrivilegeElevator

  /** Everything the platform answers during one run, call by call. */
  datatype OsResponses = OsResponses(
    snapshot: CallResult,           // CreateToolhelp32Snapshot
    entries: seq<ProcessEntry>,     // the process table as the snapshot lists it
    firstRead: CallResult,          // Process32First
    openOwnToken: CallResult,       // OpenProcessToken(GetCurrentProcess(), ...)
    lookupDebug: CallResult,        // LookupPrivilegeValue(NULL, SE_DEBUG_NAME, ...)
    debugLuid: Luid,                // the LUID it yields
    adjust: CallResult,             // AdjustTokenPrivileges
    openProcess: CallResult,        // OpenProcess(PROCESS_QUERY_INFORMATION, ...)
    openWinlogonToken: CallResult,  // OpenProcessToken(hProcess, TOKEN_DUPLICATE, ...)
    duplicate: CallResult,          // DuplicateTokenEx(..., TokenPrimary, ...)
    createProcess: CallResult)      // CreateProcessAsUser

  /** What one run does: exit code, handle acquisitions and releases,
      printed lines, privilege records sent to the kernel, command lines
      started. */
  datatype Outcome = Outcome(exitCode: int, trace: seq<Event>, output: seq<Message>,
                     adjustments: seq<TokenPrivileges>, launched: seq<string>)

  function WinlogonPid(env: OsResponses): DWord
  {
    LocatedPid(env.snapshot, env.entries, env.firstRead)
  }

  /** The run reaches its success message exactly when every call it makes
      succeeds. */
  predicate AllStepsSucceed(env: OsResponses)
  {
    WinlogonPid(env) != 0 && env.openOwnToken.ok &&
    Classify(env.lookupDebug, env.adjust) == Enabled &&
    env.openProcess.ok && env.openWinlogonToken.ok && env.duplicate.ok && env.createProcess.ok
  }

  /** Specification of main, branch by branch as the program runs, up to
      the point where its own token is open. */
  function Expected(args: seq<string>, env: OsResponses): Outcome
  {
    if |args| < 2 then Outcome(1, [], [Usage], [], [])
    else
      var t := LocatorTrace(env.snapshot);
      var out := LocatorOutput(env.snapshot, env.entries, env.firstRead);
      if WinlogonPid(env) == 0 then
        Outcome(1, t, out + [WinlogonNotFound], [], [])
      else if !env.openOwnToken.ok then
        Outcome(1, t, [ErrorReport("OpenProcessToken", env.openOwnToken.lastError)], [], [])
      else
        var rest := WithOwnToken(args[1], env);
        Outcome(rest.exitCode, t + [Open(OwnToken)] + rest.trace, rest.output, rest.adjustments, rest.launched)
  }

  /** The rest of main once its own token is open: every branch ends by
      closing that token. */
  function WithOwnToken(commandLine: string, env: OsResponses): Outcome
  {
    var adj := AdjustRequests(env.lookupDebug, env.debugLuid, true);
    if Classify(env.lookupDebug, env.adjust) != Enabled then
      Outcome(1, [Close(OwnToken)], PrivilegeOutput(env.lookupDebug, env.adjust), adj, [])
    else if !env.openProcess.ok then
      Outcome(1, [Close(OwnToken)], [ErrorReport("OpenProcess", env.openProcess.lastError)], adj, [])
    else
      var rest := WithWinlogonProcess(commandLine, env);
      Outcome(rest.exitCode, [Open(WinlogonProcess)] + rest.trace, rest.output, adj, rest.launched)
  }

  /** The rest of main once winlogon's process is open: every branch ends
      by closing it and then the own token. */
  function WithWinlogonProcess(commandLine: string, env: OsResponses): Outcome
  {
    if !env.openWinlogonToken.ok then
      Outcome(1, [Close(WinlogonProcess), Close(OwnToken)],
              [ErrorReport("OpenProcessToken", env.openWinlogonToken.lastError)], [], [])
    else if !env.duplicate.ok then
      Outcome(1, [Open(WinlogonToken), Close(WinlogonToken), Close(WinlogonProcess), Close(OwnToken)],
              [ErrorReport("DuplicateTokenEx", env.duplicate.lastError)], [], [])
    else
      var rest := WithPrimaryToken(commandLine, env);
      Outcome(rest.exitCode, [Open(WinlogonToken), Open(DuplicatedToken)] + rest.trace,
              rest.output, [], rest.launched)
  }

  /** The rest of main once the duplicated primary token exists: every
      branch ends by closing it, winlogon's token and process, and the own
      token, in that order. */
  function WithPrimaryToken(commandLine: string, env: OsResponses): Outcome
  {
    var release := [Close(DuplicatedToken), Close(WinlogonToken), Close(WinlogonProcess), Close(OwnToken)];
    if !env.createProcess.ok then
      Outcome(1, release, [ErrorReport("CreateProcessAsUser", env.createProcess.lastError)], [], [])
    else
      Outcome(0, [Open(NewProcess), Open(NewThread), Close(NewProcess), Close(NewThread)] + release,
              [LaunchedAsSystem], [], [commandLine])
  }

  method Run(os: Os, args: seq<string>, env: OsResponses) returns (exitCode: int)
    modifies os
    ensures os.open == old(os.open)
    ensures exitCode == Expected(args, env).exitCode
    ensures os.events == old(os.events) + Expected(args, env).trace
    ensures os.output == old(os.output) + Expected(args, env).output
    ensures os.adjustments == old(os.adjustments) + Expected(args, env).adjustments
    ensures os.launched == old(os.launched) + Expected(args, env).launched
  {
    if |args| < 2 {
      os.Say(Usage);
      return 1;
    }
    var winlogonPid := GetWinlogonPid(os, env.snapshot, env.entries, env.firstRead);
    if winlogonPid == 0 {
      os.Say(WinlogonNotFound);
      LogAppend(old(os.output), LocatorOutput(env.snapshot, env.entries, env.firstRead), [WinlogonNotFound]);
      return 1;
    }

    var hToken := os.OpenHandle(OwnToken, {}, env.openOwnToken);
    if hToken.None? {
      os.PrintError("OpenProcessToken");
      return 1;
    }

    exitCode := EscalateAndOpenWinlogon(os, hToken.value, args[1], env);
    LogAppend(old(os.events), LocatorTrace(env.snapshot), [Open(OwnToken)]);
    LogAppend(old(os.events), LocatorTrace(env.snapshot) + [Open(OwnToken)], WithOwnToken(args[1], env).trace);
  }

  /** main from the EnablePrivilege call to the OpenProcess call: the own
      token `hToken` is open and this part owns it. */
  method EscalateAndOpenWinlogon(os: Os, hToken: Handle, commandLine: string, env: OsResponses)
    returns (exitCode: int)
    requires hToken in os.open && hToken.role == OwnToken
    modifies os
    ensures os.open == old(os.open) - {hToken}
    ensures exitCode == WithOwnToken(commandLine, env).exitCode
    ensures os.events == old(os.events) + WithOwnToken(commandLine, env).trace
    ensures os.output == old(os.output) + WithOwnToken(commandLine, env).output
    ensures os.adjustments == old(os.adjustments) + WithOwnToken(commandLine, env).adjustments
    ensures os.launched == old(os.launched) + WithOwnToken(commandLine, env).launched
  {
    var privileged := EnablePrivilege(os, hToken, true, env.lookupDebug, env.debugLuid, env.adjust);
    if !privileged {
      os.CloseHandle(hToken);
      return 1;
    }

    var hProcess := os.OpenHandle(WinlogonProcess, {}, env.openProcess);
    if hProcess.None? {
      os.PrintError("OpenProcess");
      os.CloseHandle(hToken);
      return 1;
    }

    exitCode := DuplicateWinlogonToken(os, hToken, hProcess.value, commandLine, env);
    LogAppend(old(os.events), [Open(WinlogonProcess)], WithWinlogonProcess(commandLine, env).trace);
  }

  /** main from opening winlogon's token to duplicating it: the own token
      and winlogon's process are open and this part owns them. */
  method DuplicateWinlogonToken(os: Os, hToken: Handle, hProcess: Handle, commandLine: string,
                                env: OsResponses)
    returns (exitCode: int)
    requires hToken.role == OwnToken && hProcess.role == WinlogonProcess
    requires hToken in os.open && hProcess in os.open
    modifies os
    ensures os.open == old(os.open) - {hToken, hProcess}
    ensures exitCode == WithWinlogonProcess(commandLine, env).exitCode
    ensures os.events == old(os.events) + WithWinlogonProcess(commandLine, env).trace
    ensures os.output == old(os.output) + WithWinlogonProcess(commandLine, env).output
    ensures os.adjustments == old(os.adjustments)
    ensures os.launched == old(os.launched) + WithWinlogonProcess(commandLine, env).launched
  {
    var hWinlogonToken := os.OpenHandle(WinlogonToken, {hProcess}, env.openWinlogonToken);
    if hWinlogonToken.None? {
      os.PrintError("OpenProcessToken");
      os.CloseHandle(hProcess);
      os.CloseHandle(hToken);
      return 1;
    }

    var hDupToken := os.OpenHandle(DuplicatedToken, {hWinlogonToken.value}, env.duplicate);
    if hDupToken.None? {
      os.PrintError("DuplicateTokenEx");
      os.CloseHandle(hWinlogonToken.value);
      os.CloseHandle(hProcess);
      os.CloseHandle(hToken);
      return 1;
    }

    exitCode := LaunchAndRelease(os, hToken, hProcess, hWinlogonToken.value, hDupToken.value,
                                 commandLine, env);
    LogAppend(old(os.events), [Open(WinlogonToken)], [Open(DuplicatedToken)]);
    LogAppend(old(os.events), [Open(WinlogonToken), Open(DuplicatedToken)], WithPrimaryToken(commandLine, env).trace);
  }

  /** main from the CreateProcessAsUser call on: the four handles acquired
      so far are open and this part owns them. */
  method LaunchAndRelease(os: Os, hToken: Handle, hProcess: Handle, hWinlogonToken: Handle,
                          hDupToken: Handle, commandLine: string, env: OsResponses)
    returns (exitCode: int)
    requires hToken.role == OwnToken && hProcess.role == WinlogonProcess
    requires hWinlogonToken.role == WinlogonToken && hDupToken.role == DuplicatedToken
    requires {hToken, hProcess, hWinlogonToken, hDupToken} <= os.open
    modifies os
    ensures os.open == old(os.open) - {hToken, hProcess, hWinlogonToken, hDupToken}
    ensures exitCode == WithPrimaryToken(commandLine, env).exitCode
    ensures os.events == old(os.events) + WithPrimaryToken(commandLine, env).trace
    ensures os.output == old(os.output) + WithPrimaryToken(commandLine, env).output
    ensures os.adjustments == old(os.adjustments)
    ensures os.launched == old(os.launched) + WithPrimaryToken(commandLine, env).launched
  {
    var pi := os.CreateProcessAsUser(hDupToken, commandLine, env.createProcess);
    if pi.None? {
      os.PrintError("CreateProcessAsUser");
      os.CloseHandle(hDupToken);
      os.CloseHandle(hWinlogonToken);
      os.CloseHandle(hProcess);
      os.CloseHandle(hToken);
      return 1;
    }

    os.CloseHandle(pi.value.hProcess);
    os.CloseHandle(pi.value.hThread);
    os.CloseHandle(hDupToken);
    os.CloseHandle(hWinlogonToken);
    os.CloseHandle(hProcess);
    os.CloseHandle(hToken);
    os.Say(LaunchedAsSystem);
    return 0;
  }

  /** Without the program path, main prints its banner, exits with 1 and
      touches no handle. */
  lemma UsageOpensNothing(args: seq<string>, env: OsResponses)
    requires |args| < 2
    ensures Expected(args, env) == Outcome(1, [], [Usage], [], [])
  {
  }

  /** The exit code is 0 exactly when every step succeeds, process creation
      included, and 1 otherwise. */
  lemma ExitCodeReflectsOutcome(args: seq<string>, env: OsResponses)
    ensures Expected(args, env).exitCode in {0, 1}
    ensures Expected(args, env).exitCode == 0 <==> |args| >= 2 && AllStepsSucceed(env)
  {
  }

  /** From process creation on, the four handles already held are released
      and so are the two new ones, if any. */
  lemma PrimaryTokenPhaseBalanced(commandLine: string, env: OsResponses)
    ensures ReleasesAll({OwnToken, WinlogonProcess, WinlogonToken, DuplicatedToken},
                        WithPrimaryToken(commandLine, env).trace)
  {
    var held := {OwnToken, WinlogonProcess, WinlogonToken, DuplicatedToken};
    if env.createProcess.ok {
      var t := [Open(NewProcess), Open(NewThread), Close(NewProcess), Close(NewThread),
                Close(DuplicatedToken), Close(WinlogonToken), Close(WinlogonProcess), Close(OwnToken)];
      assert ReleasesAll(held, t);
      assert WithPrimaryToken(commandLine, env).trace == t;
    } else {
      assert ReleasesAll(held, [Close(DuplicatedToken), Close(WinlogonToken), Close(WinlogonProcess), Close(OwnToken)]);
    }
  }

  /** From the opening of winlogon's token on, that token, the duplicate
      and everything after them are released, and so are winlogon's process
      and the own token. */
  lemma WinlogonProcessPhaseBalanced(commandLine: string, env: OsResponses)
    ensures ReleasesAll({OwnToken, WinlogonProcess}, WithWinlogonProcess(commandLine, env).trace)
  {
    if env.openWinlogonToken.ok && env.duplicate.ok {
      var acquired := [Open(WinlogonToken), Open(DuplicatedToken)];
      assert Replay({OwnToken, WinlogonProcess}, acquired, 0).value ==
             {OwnToken, WinlogonProcess, WinlogonToken, DuplicatedToken};
      ReplayAppend({OwnToken, WinlogonProcess}, acquired, WithPrimaryToken(commandLine, env).trace, 0);
      PrimaryTokenPhaseBalanced(commandLine, env);
    } else if env.openWinlogonToken.ok {
      assert ReleasesAll({OwnToken, WinlogonProcess},
                         [Open(WinlogonToken), Close(WinlogonToken), Close(WinlogonProcess), Close(OwnToken)]);
    } else {
      assert ReleasesAll({OwnToken, WinlogonProcess}, [Close(WinlogonProcess), Close(OwnToken)]);
    }
  }

  /** From the privilege adjustment on, the own token is released on every
      path, as is everything acquired after it. */
  lemma OwnTokenPhaseBalanced(commandLine: string, env: OsResponses)
    ensures ReleasesAll({OwnToken}, WithOwnToken(commandLine, env).trace)
  {
    if Classify(env.lookupDebug, env.adjust) == Enabled && env.openProcess.ok {
      var acquired := [Open(WinlogonProcess)];
      assert Replay({OwnToken}, acquired, 0).value == {OwnToken, WinlogonProcess};
      ReplayAppend({OwnToken}, acquired, WithWinlogonProcess(commandLine, env).trace, 0);
      WinlogonProcessPhaseBalanced(commandLine, env);
    } else {
      assert ReleasesAll({OwnToken}, [Close(OwnToken)]);
    }
  }

  /** On every path, each handle main acquires is released exactly once,
      after its acquisition, nothing is released that was not acquired, and
      nothing is left open. */
  lemma {:induction false} RunIsBalanced(args: seq<string>, env: OsResponses)
    ensures Balanced(Expected(args, env).trace)
  {
    if |args| >= 2 && WinlogonPid(env) != 0 && env.openOwnToken.ok {
      var first := [Open(Snapshot), Close(Snapshot), Open(OwnToken)];
      assert Replay({}, first, 0).value == {OwnToken};
      assert LocatorTrace(env.snapshot) + [Open(OwnToken)] == first;
      ReplayAppend({}, first, WithOwnToken(args[1], env).trace, 0);
      OwnTokenPhaseBalanced(args[1], env);
    } else if |args| >= 2 && env.snapshot.ok {
      assert Balanced([Open(Snapshot), Close(Snapshot)]);
    }
  }

  /** When no winlogon.exe is found, main exits with 1 before opening any
      token or process: the snapshot is the only handle it ever held. */
  lemma NotFoundTouchesNoToken(args: seq<string>, env: OsResponses)
    requires |args| >= 2 && WinlogonPid(env) == 0
    ensures Expected(args, env).exitCode == 1
    ensures forall e | e in Expected(args, env).trace :: e.role == Snapshot
    ensures Expected(args, env).adjustments == [] && Expected(args, env).launched == []
  {
  }

  /** The process table is searched, and the snapshot released, before the
      program's own token is opened. */
  lemma LocateBeforeOwnToken(args: seq<string>, env: OsResponses)
    requires Open(OwnToken) in Expected(args, env).trace
    ensures WinlogonPid(env) != 0
    ensures Expected(args, env).trace[..3] == [Open(Snapshot), Close(Snapshot), Open(OwnToken)]
  {
  }

  /** Winlogon's process is opened only after the debug privilege was
      enabled, through exactly one single-entry record that switches it on. */
  lemma PrivilegeBeforeProcessAccess(args: seq<string>, env: OsResponses)
    requires Open(WinlogonProcess) in Expected(args, env).trace
    ensures Classify(env.lookupDebug, env.adjust) == Enabled
    ensures Expected(args, env).adjustments == [PrivilegeRecord(env.debugLuid, true)]
  {
  }

  /** The new process's handles are acquired and released, and a program
      is started, only on the path that exits with 0; the program is the one
      named on the command line. */
  lemma LaunchOnlyOnSuccess(args: seq<string>, env: OsResponses)
    ensures Open(NewProcess) in Expected(args, env).trace <==> Expected(args, env).exitCode == 0
    ensures Open(NewThread) in Expected(args, env).trace <==> Expected(args, env).exitCode == 0
    ensures Close(NewProcess) in Expected(args, env).trace <==> Expected(args, env).exitCode == 0
    ensures Close(NewThread) in Expected(args, env).trace <==> Expected(args, env).exitCode == 0
    ensures Expected(args, env).launched ==
            if Expected(args, env).exitCode == 0 then [args[1]] else []
  {
    if |args| >= 2 && WinlogonPid(env) != 0 && env.openOwnToken.ok {
      LaunchOnlyOnSuccessWithOwnToken(args[1], env);
      var first := LocatorTrace(env.snapshot) + [Open(OwnToken)];
      assert forall e | e in first :: e.role in {Snapshot, OwnToken};
    }
  }

  /** `o` acquires and releases the new process's handles, and starts
      `commandLine`, exactly when it exits with 0. */
  predicate LaunchesOnlyOnSuccess(o: Outcome, commandLine: string)
  {
    (Open(NewProcess) in o.trace <==> o.exitCode == 0) &&
    (Open(NewThread) in o.trace <==> o.exitCode == 0) &&
    (Close(NewProcess) in o.trace <==> o.exitCode == 0) &&
    (Close(NewThread) in o.trace <==> o.exitCode == 0) &&
    o.launched == if o.exitCode == 0 then [commandLine] else []
  }

  lemma LaunchOnlyOnSuccessWithOwnToken(commandLine: string, env: OsResponses)
    ensures LaunchesOnlyOnSuccess(WithOwnToken(commandLine, env), commandLine)
  {
    if Classify(env.lookupDebug, env.adjust) == Enabled && env.openProcess.ok {
      LaunchOnlyOnSuccessWithWinlogonProcess(commandLine, env);
      assert forall e | e in [Open(WinlogonProcess)] :: e.role == WinlogonProcess;
    }
  }

  lemma LaunchOnlyOnSuccessWithWinlogonProcess(commandLine: string, env: OsResponses)
    ensures LaunchesOnlyOnSuccess(WithWinlogonProcess(commandLine, env), commandLine)
  {
    if env.openWinlogonToken.ok && env.duplicate.ok {
      var first := [Open(WinlogonToken), Open(DuplicatedToken)];
      assert forall e | e in first :: e.role in {WinlogonToken, DuplicatedToken};
    }
  }

  /** Each run prints one final line, except that a failing snapshot or
      first read is reported by the locator before main reports that
      winlogon.exe was not found. */
  lemma OneLinePerRun(args: seq<string>, env: OsResponses)
    ensures |Expected(args, env).output| ==
            if |args| >= 2 && WinlogonPid(env) == 0
            then 1 + |LocatorOutput(env.snapshot, env.entries, env.firstRead)|
            else 1
    ensures |args| >= 2 && WinlogonPid(env) == 0 ==>
              Expected(args, env).output[|Expected(args, env).output| - 1] == WinlogonNotFound
  {
  }
}
