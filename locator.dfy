/** GetWinlogonPid: take a snapshot of the process table, walk it in order
    and return the id of the first process whose image name is
    "winlogon.exe" up to case; 0 stands for "not found", and also for a
    snapshot that could not be taken or whose first entry could not be
    read.  The snapshot handle is closed whenever it was created. */
module ProcessLocator {
  import opened Win32
  import opened CaseInsensitive

  const WINLOGON: CString := "winlogon.exe"

  /** The two fields of PROCESSENTRY32 the scan reads. */
  datatype ProcessEntry = ProcessEntry(exeFile: CString, processId: DWord)

  /** The test at the head of the scan: `_stricmp(pe.szExeFile, "winlogon.exe") == 0`. */
  predicate IsWinlogon(e: ProcessEntry)
  {
    Stricmp(e.exeFile, WINLOGON) == 0
  }

  /** Reference definition of the scan: the id of the first entry that
      passes the test, 0 when none does. */
  function WinlogonPidOf(entries: seq<ProcessEntry>): DWord
  {
    if entries == [] then 0
    else if IsWinlogon(entries[0]) then entries[0].processId
    else WinlogonPidOf(entries[1..])
  }

  /** The first entry named winlogon.exe (in any case) decides the answer. */
  lemma {:induction false} WinlogonPidOfFirstMatch(entries: seq<ProcessEntry>, k: nat)
    requires k < |entries| && SameIgnoringCase(entries[k].exeFile, WINLOGON)
    requires forall j | 0 <= j < k :: !SameIgnoringCase(entries[j].exeFile, WINLOGON)
    ensures WinlogonPidOf(entries) == entries[k].processId
    decreases k
  {
    StricmpZeroIff(entries[0].exeFile, WINLOGON);
    if k > 0 {
      assert !SameIgnoringCase(entries[0].exeFile, WINLOGON);
      var rest := entries[1..];
      assert rest[k - 1] == entries[k];
      forall j | 0 <= j < k - 1 ensures !SameIgnoringCase(rest[j].exeFile, WINLOGON) {
        assert rest[j] == entries[j + 1];
      }
      WinlogonPidOfFirstMatch(rest, k - 1);
    }
  }

  /** No entry named winlogon.exe (in any case): the answer is 0. */
  lemma {:induction false} WinlogonPidOfNoMatch(entries: seq<ProcessEntry>)
    requires forall j | 0 <= j < |entries| :: !SameIgnoringCase(entries[j].exeFile, WINLOGON)
    ensures WinlogonPidOf(entries) == 0
    decreases |entries|
  {
    if entries != [] {
      StricmpZeroIff(entries[0].exeFile, WINLOGON);
      var rest := entries[1..];
      forall j | 0 <= j < |rest| ensures !SameIgnoringCase(rest[j].exeFile, WINLOGON) {
        assert rest[j] == entries[j + 1];
      }
      WinlogonPidOfNoMatch(rest);
    }
  }

  /** A nonzero answer is the id of an entry named winlogon.exe, and no
      earlier entry has that name. */
  lemma {:induction false} WinlogonPidOfSound(entries: seq<ProcessEntry>)
    requires WinlogonPidOf(entries) != 0
    ensures exists k | 0 <= k < |entries| ::
              SameIgnoringCase(entries[k].exeFile, WINLOGON) &&
              WinlogonPidOf(entries) == entries[k].processId &&
              forall j | 0 <= j < k :: !SameIgnoringCase(entries[j].exeFile, WINLOGON)
    decreases |entries|
  {
    StricmpZeroIff(entries[0].exeFile, WINLOGON);
    if !IsWinlogon(entries[0]) {
      var rest := entries[1..];
      WinlogonPidOfSound(rest);
      var k :| 0 <= k < |rest| && SameIgnoringCase(rest[k].exeFile, WINLOGON) &&
               WinlogonPidOf(rest) == rest[k].processId &&
               forall j | 0 <= j < k :: !SameIgnoringCase(rest[j].exeFile, WINLOGON);
      assert rest[k] == entries[k + 1];
      forall j | 0 <= j < k + 1 ensures !SameIgnoringCase(entries[j].exeFile, WINLOGON) {
        if j > 0 { assert entries[j] == rest[j - 1]; }
      }
    } else {
      assert SameIgnoringCase(entries[0].exeFile, WINLOGON);
    }
  }

  /** The do-while of GetWinlogonPid, entered once Process32First has filled
      the first entry: test the current entry, stop at the first match,
      otherwise let Process32Next move on until it reports no more entries. */
  method ScanForWinlogon(entries: seq<ProcessEntry>) returns (pid: DWord)
    requires entries != []
    ensures pid == WinlogonPidOf(entries)
  {
    pid := 0;
    var i := 0;
    var more := true;
    while more
      invariant 0 <= i < |entries|
      invariant more ==> pid == 0 && WinlogonPidOf(entries[i..]) == WinlogonPidOf(entries)
      invariant !more ==> pid == WinlogonPidOf(entries)
      decreases |entries| - i, more
    {
      if IsWinlogon(entries[i]) {
        pid := entries[i].processId;
        break;
      }
      assert entries[i..][1..] == entries[i + 1..];
      more := i + 1 < |entries|;   // Process32Next
      if more {
        i := i + 1;
      }
    }
  }

  /** What GetWinlogonPid returns. */
  function LocatedPid(snapshot: CallResult, entries: seq<ProcessEntry>, firstRead: CallResult): (pid: DWord)
    ensures pid != 0 ==> snapshot.ok && FirstReadSucceeds(entries, firstRead)
  {
    if snapshot.ok && FirstReadSucceeds(entries, firstRead) then WinlogonPidOf(entries) else 0
  }

  /** The snapshot handle's life: created and closed, or never created. */
  function LocatorTrace(snapshot: CallResult): seq<Event>
  {
    if snapshot.ok then [Open(Snapshot), Close(Snapshot)] else []
  }

  /** What GetWinlogonPid prints: the failing call, if one failed. */
  function LocatorOutput(snapshot: CallResult, entries: seq<ProcessEntry>, firstRead: CallResult): seq<Message>
  {
    if !snapshot.ok then [ErrorReport("CreateToolhelp32Snapshot", snapshot.lastError)]
    else if !FirstReadSucceeds(entries, firstRead) then [ErrorReport("Process32First", firstRead.lastError)]
    else []
  }

  /** With the snapshot created and its first entry read, the locator
      answers the id of the first entry named winlogon.exe up to case. */
  lemma LocatedPidFirstMatch(snapshot: CallResult, entries: seq<ProcessEntry>, firstRead: CallResult, k: nat)
    requires snapshot.ok && FirstReadSucceeds(entries, firstRead)
    requires k < |entries| && SameIgnoringCase(entries[k].exeFile, WINLOGON)
    requires forall j | 0 <= j < k :: !SameIgnoringCase(entries[j].exeFile, WINLOGON)
    ensures LocatedPid(snapshot, entries, firstRead) == entries[k].processId
  {
    WinlogonPidOfFirstMatch(entries, k);
  }

  /** The locator answers 0 when the snapshot cannot be taken, when its
      first entry cannot be read, and when no entry is named winlogon.exe
      up to case. */
  lemma LocatedPidZero(snapshot: CallResult, entries: seq<ProcessEntry>, firstRead: CallResult)
    ensures !snapshot.ok ==> LocatedPid(snapshot, entries, firstRead) == 0
    ensures !FirstReadSucceeds(entries, firstRead) ==> LocatedPid(snapshot, entries, firstRead) == 0
    ensures (forall j | 0 <= j < |entries| :: !SameIgnoringCase(entries[j].exeFile, WINLOGON)) ==>
              LocatedPid(snapshot, entries, firstRead) == 0
  {
    if forall j | 0 <= j < |entries| :: !SameIgnoringCase(entries[j].exeFile, WINLOGON) {
      WinlogonPidOfNoMatch(entries);
    }
  }

  /** The snapshot handle is released on every path on which it was created,
      and on no other. */
  lemma LocatorReleasesSnapshot(snapshot: CallResult)
    ensures Balanced(LocatorTrace(snapshot))
    ensures Open(Snapshot) in LocatorTrace(snapshot) <==> snapshot.ok
  {
    if snapshot.ok {
      assert Balanced([Open(Snapshot), Close(Snapshot)]);
    }
  }

  method GetWinlogonPid(os: Os, snapshot: CallResult, entries: seq<ProcessEntry>, firstRead: CallResult)
    returns (pid: DWord)
    modifies os`open, os`events, os`lastError, os`output
    ensures pid == LocatedPid(snapshot, entries, firstRead)
    ensures os.open == old(os.open)
    ensures os.events == old(os.events) + LocatorTrace(snapshot)
    ensures os.output == old(os.output) + LocatorOutput(snapshot, entries, firstRead)
    ensures !snapshot.ok ==> os.lastError == snapshot.lastError
    ensures snapshot.ok && !FirstReadSucceeds(entries, firstRead) ==> os.lastError == firstRead.lastError
  {
    var hSnapshot := os.OpenHandle(Snapshot, {}, snapshot);
    if hSnapshot.None? {
      os.PrintError("CreateToolhelp32Snapshot");
      return 0;
    }
    pid := 0;
    var first := os.Process32First(hSnapshot.value, entries, firstRead);
    if first {
      pid := ScanForWinlogon(entries);
    } else {
      os.PrintError("Process32First");
    }
    os.CloseHandle(hSnapshot.value);
  }
}
