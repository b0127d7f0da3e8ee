/** EnablePrivilege: switch one named privilege on (or off) in an access
    token.  Three outcomes are failures, each reported on its own: the name
    cannot be looked up, the adjust call fails, or the adjust call succeeds
    but leaves ERROR_NOT_ALL_ASSIGNED behind because the token does not hold
    the privilege at all. */
module PrivilegeElevator {
  import opened Win32

  datatype PrivilegeOutcome = Enabled | LookupFailed | AdjustFailed | NotAllAssigned

  /** How EnablePrivilege ends, given what LookupPrivilegeValue and
      AdjustTokenPrivileges answered. */
  function Classify(lookup: CallResult, adjust: CallResult): (r: PrivilegeOutcome)
    ensures r == Enabled <==> lookup.ok && adjust.ok && adjust.lastError != ERROR_NOT_ALL_ASSIGNED
    ensures r == LookupFailed <==> !lookup.ok
    ensures r == AdjustFailed <==> lookup.ok && !adjust.ok
    ensures r == NotAllAssigned <==> lookup.ok && adjust.ok && adjust.lastError == ERROR_NOT_ALL_ASSIGNED
  {
    if !lookup.ok then LookupFailed
    else if !adjust.ok then AdjustFailed
    else if adjust.lastError == ERROR_NOT_ALL_ASSIGNED then NotAllAssigned
    else Enabled
  }

  /** The TOKEN_PRIVILEGES record handed to AdjustTokenPrivileges. */
  function PrivilegeRecord(luid: Luid, enable: bool): (tp: TokenPrivileges)
    ensures tp.privilegeCount == |tp.privileges| == 1
    ensures tp.privileges[0].luid == luid
    ensures tp.privileges[0].attributes == SE_PRIVILEGE_ENABLED <==> enable
    ensures !enable ==> tp.privileges[0].attributes == 0
  {
    TokenPrivileges(1, [LuidAndAttributes(luid, if enable then SE_PRIVILEGE_ENABLED else 0)])
  }

  /** What EnablePrivilege prints. */
  function PrivilegeOutput(lookup: CallResult, adjust: CallResult): (out: seq<Message>)
    ensures out == [] <==> Classify(lookup, adjust) == Enabled
    ensures Classify(lookup, adjust) == NotAllAssigned ==> out == [TokenLacksPrivilege]
    ensures Classify(lookup, adjust) != NotAllAssigned ==> TokenLacksPrivilege !in out
  {
    match Classify(lookup, adjust)
    case Enabled => []
    case LookupFailed => [ErrorReport("LookupPrivilegeValue", lookup.lastError)]
    case AdjustFailed => [ErrorReport("AdjustTokenPrivileges", adjust.lastError)]
    case NotAllAssigned => [TokenLacksPrivilege]
  }

  /** The record sent to the kernel, if the lookup let the adjust call happen. */
  function AdjustRequests(lookup: CallResult, luid: Luid, enable: bool): seq<TokenPrivileges>
  {
    if lookup.ok then [PrivilegeRecord(luid, enable)] else []
  }

  method EnablePrivilege(os: Os, hToken: Handle, enable: bool,
                         lookup: CallResult, luid: Luid, adjust: CallResult)
    returns (ok: bool)
    requires hToken in os.open
    modifies os`lastError, os`output, os`adjustments
    ensures ok <==> Classify(lookup, adjust) == Enabled
    ensures os.output == old(os.output) + PrivilegeOutput(lookup, adjust)
    ensures os.adjustments == old(os.adjustments) + AdjustRequests(lookup, luid, enable)
    ensures os.lastError == if lookup.ok then adjust.lastError else lookup.lastError
  {
    var found := os.LookupPrivilegeValue(lookup, luid);
    if found.None? {
      os.PrintError("LookupPrivilegeValue");
      return false;
    }
    var tp := PrivilegeRecord(found.value, enable);
    var adjusted := os.AdjustTokenPrivileges(hToken, tp, adjust);
    if !adjusted {
      os.PrintError("AdjustTokenPrivileges");
      return false;
    }
    if os.lastError == ERROR_NOT_ALL_ASSIGNED {
      os.Say(TokenLacksPrivilege);
      return false;
    }
    return true;
  }
}
