/**
 * The role applier of the Discord bot (`newRoleApplier`): one run per guild member
 * that keeps granting or revoking the guild's member role until the retry budget is
 * spent, the member role ID drifts, the API refuses with 403, the deadline passes,
 * or a member-update event arrives.
 *
 * The run is specified twice: as a value (`Run`, with `Applied`, `Updated`, `Step`,
 * `Steps`) and as the class `RoleApplier`, whose methods mutate fields in place the
 * way the closures of the source mutate `retryCount` and cancel the context. Every
 * method states its new state as the value-level function of its old state.
 */
module RoleApplier {
  import opened Wrappers
  import Strings

  /** `roleAdd` ("Grant role") and `roleRevoke` ("Revoke role"). */
  datatype RoleAction = Grant | Revoke

  /** The answer of the grant/revoke API call: success, or an error with its text. */
  datatype ApiResult = Ok | Err(message: string)

  /** Error text that marks an API refusal as permanent: HTTP status 403 (section 15.5.4 of RFC 9110). */
  const ForbiddenMarker: string := "HTTP 403 Forbidden"

  /** The error classification of the source: an error whose text contains the 403 marker. */
  function IsForbidden(result: ApiResult): (forbidden: bool)
    ensures forbidden <==> result.Err? && exists i: nat :: Strings.OccursAt(result.message, ForbiddenMarker, i)
  {
    result.Err? && Strings.Contains(result.message, ForbiddenMarker)
  }

  /** The key of `guildMemberUpdateChannels`: guild ID, a dash, user ID. */
  function UpdateKey(guildID: string, userID: string): (key: string)
    ensures |key| == |guildID| + 1 + |userID|
    ensures key[..|guildID|] == guildID && key[|guildID|] == '-' && key[|guildID| + 1..] == userID
  {
    guildID + "-" + userID
  }

  /** The audit-log message `emitMemberAuditLog` is asked to send (the avatar URL is left out). */
  datatype AuditEntry = AuditEntry(channelID: string, action: RoleAction, userID: string, reason: string)

  /**
   * The whole state of one run. The first six fields are fixed at start; `retryCount`,
   * `cancelled` (the retry context was cancelled) and `exited` (the goroutine returned)
   * are what the source mutates; `calls` and `audits` count the grant/revoke API calls
   * and the audit-log messages, for stating properties.
   */
  datatype Run = Run(
    guildID: string,
    userID: string,
    action: RoleAction,
    reason: string,
    tries: int,
    initialRoleID: string,
    retryCount: int,
    cancelled: bool,
    exited: bool,
    calls: nat,
    audits: nat)

  function Max(a: int, b: int): int
  {
    if a < b then b else a
  }

  /**
   * What every reachable run satisfies: `retryCount` is 1-indexed and bounded by the
   * budget (or 1 when the budget is below 1), it exceeds the number of API calls by
   * exactly one, and the goroutine only exits once the context is cancelled.
   */
  predicate Invariant(s: Run)
  {
    && 1 <= s.retryCount <= Max(s.tries, 1)
    && s.calls == s.retryCount - 1
    && (s.exited ==> s.cancelled)
  }

  /** `r` is a later state of the run `s`: the fields fixed at start are the same. */
  predicate SameRun(s: Run, r: Run)
  {
    && r.guildID == s.guildID && r.userID == s.userID && r.action == s.action
    && r.reason == s.reason && r.tries == s.tries && r.initialRoleID == s.initialRoleID
  }

  /** A run as `newRoleApplier` creates it, with the member role ID read at start. */
  function Start(guildID: string, userID: string, action: RoleAction, reason: string,
                 tries: int, initialRoleID: string): (s: Run)
    ensures Invariant(s)
    ensures s.retryCount == 1 && !s.cancelled && !s.exited && s.calls == 0 && s.audits == 0
    ensures s.tries == tries && s.initialRoleID == initialRoleID && s.action == action
  {
    Run(guildID, userID, action, reason, tries, initialRoleID, 1, false, false, 0, 0)
  }

  /** The branch one call of `applyRoleFunc` takes, i.e. which message it logs. */
  datatype Attempt = OutOfRetries | RoleChanged | Forbidden | Failed | Accepted
  {
    /** The branches that incremented `retryCount` and called the API. */
    predicate MadeCall()
    {
      Forbidden? || Failed? || Accepted?
    }

    /** The branches that cancel the retry context. */
    predicate Cancels()
    {
      OutOfRetries? || RoleChanged? || Forbidden?
    }
  }

  /**
   * The branch `applyRoleFunc` takes with `roleID` as the guild's present member role
   * ID and `result` as the API's answer (used only when the call is made).
   */
  function Classify(s: Run, roleID: string, result: ApiResult): (a: Attempt)
    ensures s.retryCount >= s.tries ==> a == OutOfRetries
    ensures a == RoleChanged <==> s.retryCount < s.tries && roleID != s.initialRoleID
    ensures a.MadeCall() <==> s.retryCount < s.tries && roleID == s.initialRoleID
    ensures a.MadeCall() ==> (a == Forbidden <==> IsForbidden(result)) && (a == Accepted <==> result.Ok?)
  {
    if s.retryCount >= s.tries then OutOfRetries
    else if roleID != s.initialRoleID then RoleChanged
    else if result.Ok? then Accepted
    else if Strings.Contains(result.message, ForbiddenMarker) then Forbidden
    else Failed
  }

  /** The state after one call of `applyRoleFunc`. */
  function Applied(s: Run, roleID: string, result: ApiResult): (r: Run)
    ensures r.cancelled <==> s.cancelled || Classify(s, roleID, result).Cancels()
    ensures r.calls == s.calls + (if Classify(s, roleID, result).MadeCall() then 1 else 0)
    ensures r.retryCount - r.calls == s.retryCount - s.calls
    ensures r.(retryCount := s.retryCount, calls := s.calls, cancelled := s.cancelled) == s
    ensures Invariant(s) ==> Invariant(r)
  {
    if s.retryCount >= s.tries then
      s.(cancelled := true)
    else if roleID != s.initialRoleID then
      s.(cancelled := true)
    else
      var s' := s.(retryCount := s.retryCount + 1, calls := s.calls + 1);
      if result.Err? && Strings.Contains(result.message, ForbiddenMarker) then s'.(cancelled := true) else s'
  }

  /** The event confirms the run's goal: the role is present for a grant, absent for a revoke. */
  function Confirms(action: RoleAction, roles: seq<string>, targetRoleID: string): (confirmed: bool)
    ensures confirmed <==> (targetRoleID in roles <==> action == Grant)
  {
    match action
    case Grant => targetRoleID in roles
    case Revoke => targetRoleID !in roles
  }

  /**
   * The audit-log message `memberUpdateFunc` emits for an event listing `roles`, with
   * `roleID` the present member role ID and `auditChannelID` the guild's audit channel.
   */
  function UpdateAudit(s: Run, roles: seq<string>, roleID: string, auditChannelID: string): (audit: Option<AuditEntry>)
    ensures audit.Some? <==> Confirms(s.action, roles, roleID) && auditChannelID != ""
    ensures audit.Some? ==> audit.value == AuditEntry(auditChannelID, s.action, s.userID, s.reason)
  {
    var anyMatch := roleID in roles;
    if ((s.action == Grant && anyMatch) || (s.action == Revoke && !anyMatch)) && auditChannelID != "" then
      Some(AuditEntry(auditChannelID, s.action, s.userID, s.reason))
    else
      None
  }

  /** The state after one call of `memberUpdateFunc`: cancelled whatever the event says. */
  function Updated(s: Run, roles: seq<string>, roleID: string, auditChannelID: string): (r: Run)
    ensures r.cancelled
    ensures r.audits == s.audits + (if UpdateAudit(s, roles, roleID, auditChannelID).Some? then 1 else 0)
    ensures r.(cancelled := s.cancelled, audits := s.audits) == s
    ensures Invariant(s) ==> Invariant(r)
  {
    var emitted := UpdateAudit(s, roles, roleID, auditChannelID).Some?;
    s.(cancelled := true, audits := if emitted then s.audits + 1 else s.audits)
  }

  /**
   * What happens next to a running goroutine. `Done`, `Tick` and `Update` are the
   * cases of its `select`; a tick carries the role ID the guild has at that moment and
   * the API's answer, an update the event's role list with the guild's role ID and
   * audit channel ID. `Deadline` is the retry context ending from outside the run: its
   * deadline passing, or the bot's own context `d.ctx`, its parent, being cancelled.
   */
  datatype Event =
    | Done
    | Tick(roleID: string, result: ApiResult)
    | Update(roles: seq<string>, roleID: string, auditChannelID: string)
    | Deadline

  /**
   * One iteration of the `select` loop. `Done` is ready only once the context is
   * cancelled; a `Done` scheduled earlier is not a ready case and changes nothing.
   * Ticks and updates stay ready after cancellation, as `select` picks at random.
   */
  function Step(s: Run, e: Event): (r: Run)
    requires !s.exited
    ensures r.exited <==> e.Done? && s.cancelled
    ensures SameRun(s, r)
    ensures Invariant(s) ==> Invariant(r)
  {
    match e
    case Done => if s.cancelled then s.(exited := true) else s
    case Tick(roleID, result) => Applied(s, roleID, result)
    case Update(roles, roleID, auditChannelID) => Updated(s, roles, roleID, auditChannelID)
    case Deadline => s.(cancelled := true)
  }

  /** The loop run over a schedule of events; nothing happens once the goroutine exited. */
  function Steps(s: Run, events: seq<Event>): (r: Run)
    ensures SameRun(s, r)
    ensures Invariant(s) ==> Invariant(r)
    ensures s.exited ==> r == s
    ensures r.calls >= s.calls && r.audits >= s.audits
    decreases |events|
  {
    if s.exited || events == [] then s else Steps(Step(s, events[0]), events[1..])
  }

  /** The goroutine: one `applyRoleFunc` before the ticker's first tick, then the loop. */
  function Goroutine(s: Run, roleID: string, result: ApiResult, events: seq<Event>): (r: Run)
    ensures SameRun(s, r)
    ensures Invariant(s) ==> Invariant(r)
    ensures r.calls >= s.calls + (if Classify(s, roleID, result).MadeCall() then 1 else 0)
    ensures r.audits >= s.audits
  {
    Steps(Applied(s, roleID, result), events)
  }

  /**
   * `guildMemberUpdateChannels`: each key maps to the run whose update channel was
   * stored there last.
   */
  class Registry {
    var channels: map<string, RoleApplier>

    constructor ()
      ensures channels == map[]
    {
      channels := map[];
    }

    method Load(key: string) returns (found: bool)
      ensures found <==> key in channels
    {
      found := key in channels;
    }

    method Store(key: string, run: RoleApplier)
      modifies this
      ensures channels == old(channels)[key := run]
    {
      channels := channels[key := run];
    }

    method Delete(key: string)
      modifies this
      ensures channels == old(channels) - {key}
    {
      channels := channels - {key};
    }
  }

  /** One run of the role applier: the variables its closures and goroutine share. */
  class RoleApplier {
    const registry: Registry
    const guildID: string
    const userID: string
    const key: string
    const action: RoleAction
    const reason: string
    const tries: int
    const initialRoleID: string
    var retryCount: int
    var cancelled: bool
    var exited: bool
    ghost var calls: nat
    ghost var audits: nat

    ghost function State(): Run
      reads this
    {
      Run(guildID, userID, action, reason, tries, initialRoleID, retryCount, cancelled, exited, calls, audits)
    }

    ghost predicate Valid()
      reads this
    {
      key == UpdateKey(guildID, userID) && Invariant(State())
    }

    constructor (registry: Registry, guildID: string, userID: string, action: RoleAction,
                 reason: string, tries: int, initialRoleID: string)
      ensures Valid() && this.registry == registry
      ensures State() == Start(guildID, userID, action, reason, tries, initialRoleID)
    {
      this.registry := registry;
      this.guildID := guildID;
      this.userID := userID;
      this.key := UpdateKey(guildID, userID);
      this.action := action;
      this.reason := reason;
      this.tries := tries;
      this.initialRoleID := initialRoleID;
      retryCount := 1;
      cancelled := false;
      exited := false;
      calls := 0;
      audits := 0;
    }

    /** `applyRoleFunc`; reports the branch it took. */
    method ApplyRole(roleID: string, result: ApiResult) returns (attempt: Attempt)
      requires Valid()
      modifies this
      ensures Valid()
      ensures State() == Applied(old(State()), roleID, result)
      ensures attempt == Classify(old(State()), roleID, result)
    {
      if retryCount >= tries {
        cancelled := true;
        return OutOfRetries;
      }
      if roleID != initialRoleID {
        cancelled := true;
        return RoleChanged;
      }
      retryCount := retryCount + 1;
      calls := calls + 1;
      match result
      case Ok =>
        attempt := Accepted;
      case Err(message) =>
        if Strings.Contains(message, ForbiddenMarker) {
          cancelled := true;
          attempt := Forbidden;
        } else {
          attempt := Failed;
        }
    }

    /** `memberUpdateFunc`; returns the audit-log message it emits, if any. */
    method MemberUpdate(roles: seq<string>, roleID: string, auditChannelID: string) returns (audit: Option<AuditEntry>)
      requires Valid()
      modifies this
      ensures Valid()
      ensures State() == Updated(old(State()), roles, roleID, auditChannelID)
      ensures audit == UpdateAudit(old(State()), roles, roleID, auditChannelID)
    {
      var anyMatch := FindRole(roles, roleID);
      audit := None;
      if (action == Grant && anyMatch) || (action == Revoke && !anyMatch) {
        if auditChannelID != "" {
          audit := Some(AuditEntry(auditChannelID, action, userID, reason));
          audits := audits + 1;
        }
      }
      cancelled := true;
    }

    /** The retry context's deadline passes, or the bot's context it derives from is cancelled. */
    method Expire()
      requires Valid()
      modifies this
      ensures Valid()
      ensures State() == old(State()).(cancelled := true)
    {
      cancelled := true;
    }

    /** The `Done` case: close the update channel, delete the registry key, return. */
    method Exit()
      requires Valid() && cancelled && !exited
      modifies this, registry
      ensures Valid()
      ensures State() == old(State()).(exited := true)
      ensures registry.channels == old(registry.channels) - {key}
    {
      registry.Delete(key);
      exited := true;
    }

    /**
     * The goroutine: `applyRoleFunc` once, then the `select` loop over a schedule of
     * events until the goroutine returns or the schedule ends.
     */
    method Loop(roleID: string, result: ApiResult, events: seq<Event>)
      requires Valid() && !exited
      modifies this, registry
      ensures Valid()
      ensures State() == Goroutine(old(State()), roleID, result, events)
      ensures registry.channels == if exited then old(registry.channels) - {key} else old(registry.channels)
    {
      var _ := ApplyRole(roleID, result);
      var i := 0;
      while i < |events| && !exited
        invariant 0 <= i <= |events|
        invariant Valid()
        invariant Steps(State(), events[i..]) == Goroutine(old(State()), roleID, result, events)
        invariant registry.channels == if exited then old(registry.channels) - {key} else old(registry.channels)
        decreases |events| - i
      {
        assert events[i..][1..] == events[i + 1..];
        match events[i] {
          case Done =>
            if cancelled {
              Exit();
            }
          case Tick(tickRoleID, tickResult) =>
            var _ := ApplyRole(tickRoleID, tickResult);
          case Update(roles, updateRoleID, auditChannelID) =>
            var _ := MemberUpdate(roles, updateRoleID, auditChannelID);
          case Deadline =>
            Expire();
        }
        i := i + 1;
      }
    }
  }

  /** The loop of `memberUpdateFunc` that looks for the target role in the event's roles. */
  method FindRole(roles: seq<string>, targetRoleID: string) returns (anyMatch: bool)
    ensures anyMatch <==> targetRoleID in roles
  {
    anyMatch := false;
    var i := 0;
    while i < |roles|
      invariant 0 <= i <= |roles|
      invariant anyMatch ==> targetRoleID in roles
      invariant !anyMatch ==> targetRoleID !in roles[..i]
    {
      if roles[i] == targetRoleID {
        anyMatch := true;
        break;
      }
      i := i + 1;
    }
  }

  /**
   * The synchronous part of `newRoleApplier`: capture the member role ID, look the key
   * up (an existing entry is only logged), store the new run under the key anyway.
   */
  method NewRoleApplier(registry: Registry, guildID: string, userID: string, action: RoleAction,
                        reason: string, tries: int, memberRoleID: string)
    returns (run: RoleApplier, pending: bool)
    modifies registry
    ensures fresh(run) && run.Valid() && run.registry == registry
    ensures run.State() == Start(guildID, userID, action, reason, tries, memberRoleID)
    ensures pending <==> UpdateKey(guildID, userID) in old(registry.channels)
    ensures registry.channels == old(registry.channels)[UpdateKey(guildID, userID) := run]
  {
    var key := UpdateKey(guildID, userID);
    pending := registry.Load(key);
    run := new RoleApplier(registry, guildID, userID, action, reason, tries, memberRoleID);
    registry.Store(key, run);
  }

}
