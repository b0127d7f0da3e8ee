/** The slice of the Win32 platform that Launch_LocalSystem touches, as an
    oracle.  Every system call is a method of `Os` whose outcome is a
    parameter (`CallResult`): the model never decides whether the kernel
    grants a request, it only records what the program does with the answer.
    `Os` keeps the ghost set of handles that are open right now, a log of
    every acquisition and release (by the role the handle plays in the
    program), the thread's last-error value, and what the program printed. */
module Win32 {

  /** DWORD: an unsigned 32-bit value (process ids, error codes, attributes). */
  type DWord = x: int | 0 <= x < 0x1_0000_0000

  /** LUID: a locally unique 64-bit identifier of a privilege. */
  type Luid = x: int | 0 <= x < 0x1_0000_0000_0000_0000

  /** winerror.h: "Not all privileges or groups referenced are assigned to the caller." */
  const ERROR_NOT_ALL_ASSIGNED: DWord := 1300

  /** winnt.h: the attribute that switches a privilege on. */
  const SE_PRIVILEGE_ENABLED: DWord := 0x0000_0002

  datatype Option<T> = None | Some(value: T)

  /** What a Win32 call answered: its success flag and the value it left in
      the thread's last-error slot (read back by GetLastError). */
  datatype CallResult = CallResult(ok: bool, lastError: DWord)

  /** A kernel handle: a fresh object for every successful acquisition,
      tagged with the role it plays in the program. */
  class Handle {
    const role: Role

    constructor (role: Role)
      ensures this.role == role
    {
      this.role := role;
    }
  }

  /** The part each kernel handle plays in the program. */
  datatype Role =
    | Snapshot          // CreateToolhelp32Snapshot
    | OwnToken          // OpenProcessToken(GetCurrentProcess(), ...)
    | WinlogonProcess   // OpenProcess(PROCESS_QUERY_INFORMATION, ..., pid)
    | WinlogonToken     // OpenProcessToken(hProcess, TOKEN_DUPLICATE, ...)
    | DuplicatedToken   // DuplicateTokenEx(..., TokenPrimary, ...)
    | NewProcess        // pi.hProcess from CreateProcessAsUser
    | NewThread         // pi.hThread from CreateProcessAsUser

  datatype Event = Open(role: Role) | Close(role: Role)

  /** One line the program writes to standard output. */
  datatype Message =
    | Usage                                       // the help banner
    | ErrorReport(operation: string, code: DWord) // PrintError(operation)
    | TokenLacksPrivilege                         // adjust succeeded, privilege not assigned
    | WinlogonNotFound
    | LaunchedAsSystem

  /** LUID_AND_ATTRIBUTES and TOKEN_PRIVILEGES as the program fills them. */
  datatype LuidAndAttributes = LuidAndAttributes(luid: Luid, attributes: DWord)
  datatype TokenPrivileges = TokenPrivileges(privilegeCount: DWord, privileges: seq<LuidAndAttributes>)

  /** PROCESS_INFORMATION: the handles CreateProcessAsUser hands back. */
  datatype ProcessInformation = ProcessInformation(hProcess: Handle, hThread: Handle)

  /** Plays a trace of acquisitions and releases, from index `i` on,
      against the set of roles held: `None` as soon as a role is acquired
      while already held or released while not held, otherwise the roles
      still held at the end. */
  function Replay(held: set<Role>, t: seq<Event>, i: nat): Option<set<Role>>
    requires i <= |t|
    decreases |t| - i
  {
    if i == |t| then Some(held)
    else match t[i]
      case Open(r) => if r in held then None else Replay(held + {r}, t, i + 1)
      case Close(r) => if r !in held then None else Replay(held - {r}, t, i + 1)
  }

  /** Playing `t` from `held` ends without a fault and with nothing held. */
  predicate ReleasesAll(held: set<Role>, t: seq<Event>)
  {
    var r := Replay(held, t, 0); r.Some? && r.value == {}
  }

  /** A trace in which every handle is released exactly once after it was
      acquired, nothing is released that was not acquired, and nothing is
      left open. */
  predicate Balanced(t: seq<Event>)
  {
    ReleasesAll({}, t)
  }

  /** Playing `b` after `a` from a position inside `a` is playing the rest
      of `a`, then `b` from the start, with the roles then held. */
  lemma {:induction false} ReplayAppend(held: set<Role>, a: seq<Event>, b: seq<Event>, i: nat)
    requires i <= |a|
    ensures Replay(held, a + b, i) ==
            match Replay(held, a, i)
            case None => None
            case Some(h) => Replay(h, b, 0)
    decreases |a| - i
  {
    if i == |a| {
      ReplayShift(held, a, b, 0);
    } else {
      assert (a + b)[i] == a[i];
      match a[i]
      case Open(r) =>
        if r !in held {
          ReplayAppend(held + {r}, a, b, i + 1);
        }
      case Close(r) =>
        if r in held {
          ReplayAppend(held - {r}, a, b, i + 1);
        }
    }
  }

  /** Appending to a log in two steps is appending the two parts at once. */
  lemma LogAppend<T>(log: seq<T>, a: seq<T>, b: seq<T>)
    ensures log + a + b == log + (a + b)
  {
  }

  /** Past the end of `a`, playing `a + b` is playing `b`. */
  lemma {:induction false} ReplayShift(held: set<Role>, a: seq<Event>, b: seq<Event>, j: nat)
    requires j <= |b|
    ensures Replay(held, a + b, |a| + j) == Replay(held, b, j)
    decreases |b| - j
  {
    if j < |b| {
      assert (a + b)[|a| + j] == b[j];
      match b[j]
      case Open(r) =>
        if r !in held {
          ReplayShift(held + {r}, a, b, j + 1);
        }
      case Close(r) =>
        if r in held {
          ReplayShift(held - {r}, a, b, j + 1);
        }
    }
  }

  /** Process32First succeeds when the call goes through and the snapshot
      has an entry to report. */
  predicate FirstReadSucceeds<E>(entries: seq<E>, firstRead: CallResult)
  {
    firstRead.ok && entries != []
  }

  class Os {
    var lastError: DWord
    var output: seq<Message>
    var adjustments: seq<TokenPrivileges>
    var launched: seq<string>
    ghost var open: set<Handle>
    ghost var events: seq<Event>

    constructor ()
      ensures open == {} && events == []
      ensures output == [] && adjustments == [] && launched == []
    {
      lastError := 0;
      output, adjustments, launched := [], [], [];
      open, events := {}, [];
    }

    /** A call that, when the kernel grants it, returns a new handle for
        `role` (CreateToolhelp32Snapshot, OpenProcessToken, OpenProcess,
        DuplicateTokenEx).  `uses` are the handles the call is given; they
        must still be open. */
    method OpenHandle(role: Role, uses: set<Handle>, r: CallResult) returns (h: Option<Handle>)
      requires uses <= open
      modifies this`open, this`events, this`lastError
      ensures lastError == r.lastError
      ensures h.Some? <==> r.ok
      ensures h.Some? ==> fresh(h.value) && h.value !in old(open) && h.value.role == role &&
                          open == old(open) + {h.value} && events == old(events) + [Open(role)]
      ensures h.None? ==> open == old(open) && events == old(events)
    {
      lastError := r.lastError;
      if r.ok {
        var created := new Handle(role);
        h := Some(created);
        open, events := open + {created}, events + [Open(role)];
      } else {
        h := None;
      }
    }

    /** CloseHandle: only a handle that is open may be closed, which is what
        rules out double closes and closes of handles never opened. */
    method CloseHandle(h: Handle)
      requires h in open
      modifies this`open, this`events
      ensures open == old(open) - {h} && events == old(events) + [Close(h.role)]
    {
      open, events := open - {h}, events + [Close(h.role)];
    }

    /** Process32First: fills the first entry of an open snapshot; there is
        none to fill when the snapshot is empty. */
    method Process32First<E>(snapshot: Handle, entries: seq<E>, r: CallResult) returns (ok: bool)
      requires snapshot in open
      modifies this`lastError
      ensures lastError == r.lastError
      ensures ok <==> FirstReadSucceeds(entries, r)
    {
      lastError := r.lastError;
      ok := r.ok && entries != [];
    }

    /** LookupPrivilegeValue: the LUID of a privilege name on this system. */
    method LookupPrivilegeValue(r: CallResult, luid: Luid) returns (found: Option<Luid>)
      modifies this`lastError
      ensures lastError == r.lastError
      ensures found == if r.ok then Some(luid) else None
    {
      lastError := r.lastError;
      found := if r.ok then Some(luid) else None;
    }

    /** AdjustTokenPrivileges: the kernel receives the record whether or not
        it grants the change, so every request is logged. */
    method AdjustTokenPrivileges(token: Handle, tp: TokenPrivileges, r: CallResult) returns (ok: bool)
      requires token in open
      modifies this`lastError, this`adjustments
      ensures lastError == r.lastError && ok == r.ok
      ensures adjustments == old(adjustments) + [tp]
    {
      lastError := r.lastError;
      adjustments := adjustments + [tp];
      ok := r.ok;
    }

    /** CreateProcessAsUser: on success a process runs `commandLine` and the
        caller receives two new handles, one for the process and one for its
        first thread. */
    method CreateProcessAsUser(token: Handle, commandLine: string, r: CallResult)
      returns (pi: Option<ProcessInformation>)
      requires token in open
      modifies this`open, this`events, this`lastError, this`launched
      ensures lastError == r.lastError
      ensures pi.Some? <==> r.ok
      ensures pi.Some? ==>
                var p, t := pi.value.hProcess, pi.value.hThread;
                fresh(p) && fresh(t) && p != t && p !in old(open) && t !in old(open) && p.role == NewProcess && t.role == NewThread &&
                open == old(open) + {p, t} &&
                events == old(events) + [Open(NewProcess), Open(NewThread)] &&
                launched == old(launched) + [commandLine]
      ensures pi.None? ==> open == old(open) && events == old(events) && launched == old(launched)
    {
      lastError := r.lastError;
      if r.ok {
        var p := new Handle(NewProcess);
        var t := new Handle(NewThread);
        pi := Some(ProcessInformation(p, t));
        open := open + {p, t};
        events := events + [Open(NewProcess), Open(NewThread)];
        launched := launched + [commandLine];
      } else {
        pi := None;
      }
    }

    /** PrintError: reports the failing operation with the thread's current
        last-error code. */
    method PrintError(operation: string)
      modifies this`output
      ensures output == old(output) + [ErrorReport(operation, lastError)]
    {
      output := output + [ErrorReport(operation, lastError)];
    }

    /** printf of a fixed line. */
    method Say(m: Message)
      modifies this`output
      ensures output == old(output) + [m]
    {
      output := output + [m];
    }
  }
}
