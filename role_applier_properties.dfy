/**
 * Properties of the role applier that relate several calls: the retry budget over a
 * whole run, the ways a run ends, the work `select` may still do after cancellation,
 * and the sharing of registry keys between runs.
 */
module RoleApplierProperties {
  import Strings
  import opened RoleApplier

  /** The key is unambiguous for guild IDs without a dash (Discord IDs are decimal). */
  lemma UpdateKeyInjective(guildA: string, userA: string, guildB: string, userB: string)
    requires '-' !in guildA && '-' !in guildB
    requires UpdateKey(guildA, userA) == UpdateKey(guildB, userB)
    ensures guildA == guildB && userA == userB
  {
    var k := UpdateKey(guildA, userA);
    assert k[..|guildA|] == guildA && k[|guildA|] == '-' && k[|guildA| + 1..] == userA;
    assert k[..|guildB|] == guildB && k[|guildB|] == '-' && k[|guildB| + 1..] == userB;
    if |guildA| < |guildB| {
      assert false;
    } else if |guildB| < |guildA| {
      assert false;
    }
  }

  /** Without that restriction two different members share a key. */
  lemma UpdateKeyAmbiguous()
    ensures UpdateKey("1-2", "3") == UpdateKey("1", "2-3")
  {
  }

  /** Running two schedules one after the other is running their concatenation. */
  lemma {:induction false} StepsAppend(s: Run, a: seq<Event>, b: seq<Event>)
    ensures Steps(s, a + b) == Steps(Steps(s, a), b)
    decreases |a|
  {
    if s.exited || a == [] {
      assert a == [] ==> a + b == b;
    } else {
      assert (a + b)[0] == a[0] && (a + b)[1..] == a[1..] + b;
      StepsAppend(Step(s, a[0]), a[1..], b);
    }
  }

  /** Whatever the events, a run makes at most `tries - 1` grant/revoke calls. */
  lemma CallBudget(guildID: string, userID: string, action: RoleAction, reason: string, tries: int,
                   initialRoleID: string, roleID: string, result: ApiResult, events: seq<Event>)
    ensures Goroutine(Start(guildID, userID, action, reason, tries, initialRoleID), roleID, result, events).calls
            <= Max(tries - 1, 0)
  {
  }

  /** Once the budget is spent, no event leads to another API call or changes `retryCount`. */
  lemma {:induction false} NoCallAfterBudget(s: Run, events: seq<Event>)
    requires s.retryCount >= s.tries
    ensures Steps(s, events).calls == s.calls && Steps(s, events).retryCount == s.retryCount
    decreases |events|
  {
    if !s.exited && events != [] {
      NoCallAfterBudget(Step(s, events[0]), events[1..]);
    }
  }

  /** One tick per answer in `results`, in order, each with the role ID `roleID`. */
  function Ticks(roleID: string, results: seq<ApiResult>): (ticks: seq<Event>)
    ensures |ticks| == |results|
  {
    seq(|results|, k requires 0 <= k < |results| => Tick(roleID, results[k]))
  }

  /** While budget remains, each tick with an unchanged role and a retryable answer makes one call. */
  lemma {:induction false} TicksSpendBudget(s: Run, results: seq<ApiResult>)
    requires !s.exited && forall k :: 0 <= k < |results| ==> !IsForbidden(results[k])
    requires s.retryCount + |results| <= s.tries
    ensures Steps(s, Ticks(s.initialRoleID, results))
            == s.(retryCount := s.retryCount + |results|, calls := s.calls + |results|)
    decreases |results|
  {
    if results != [] {
      var ticks := Ticks(s.initialRoleID, results);
      assert ticks[0] == Tick(s.initialRoleID, results[0]);
      assert ticks[1..] == Ticks(s.initialRoleID, results[1..]);
      var s1 := Step(s, ticks[0]);
      assert s1 == s.(retryCount := s.retryCount + 1, calls := s.calls + 1);
      TicksSpendBudget(s1, results[1..]);
    }
  }

  /**
   * If every answer is retryable, whichever they are, and the role never changes, a run
   * with budget `tries` makes exactly `tries - 1` calls (the first at start, the rest on
   * ticks), is still live before its last tick, and the `tries`-th application ends it.
   */
  lemma TransientFailuresExhaustBudget(guildID: string, userID: string, action: RoleAction, reason: string,
                                       tries: int, roleID: string, first: ApiResult, results: seq<ApiResult>)
    requires tries >= 1 && |results| == tries - 1
    requires !IsForbidden(first) && forall k :: 0 <= k < |results| ==> !IsForbidden(results[k])
    ensures var s := Start(guildID, userID, action, reason, tries, roleID);
            Goroutine(s, roleID, first, Ticks(roleID, results))
            == s.(retryCount := tries, calls := tries - 1, cancelled := true)
    ensures tries >= 2 ==>
            var s := Start(guildID, userID, action, reason, tries, roleID);
            !Goroutine(s, roleID, first, Ticks(roleID, results[..tries - 2])).cancelled
  {
    var s := Start(guildID, userID, action, reason, tries, roleID);
    if tries >= 2 {
      var s1 := Applied(s, roleID, first);
      assert s1 == s.(retryCount := 2, calls := 1);
      var init, last := results[..tries - 2], results[tries - 2];
      TicksSpendBudget(s1, init);
      var s2 := Steps(s1, Ticks(roleID, init));
      assert Ticks(roleID, results) == Ticks(roleID, init) + [Tick(roleID, last)];
      StepsAppend(s1, Ticks(roleID, init), [Tick(roleID, last)]);
      assert Steps(s2, [Tick(roleID, last)]) == Steps(Step(s2, Tick(roleID, last)), []);
    }
  }

  /** A 403 answer ends the run at once: the next `Done` returns, budget or not. */
  lemma ForbiddenEndsRun(s: Run, prefix: string, suffix: string)
    requires !s.exited && s.retryCount < s.tries
    ensures var r := Steps(s, [Tick(s.initialRoleID, Err(prefix + ForbiddenMarker + suffix)), Done]);
            r.exited && r.calls == s.calls + 1
  {
    Strings.ContainsInside(prefix, ForbiddenMarker, suffix);
    var ev := Tick(s.initialRoleID, Err(prefix + ForbiddenMarker + suffix));
    assert [ev, Done][1..] == [Done];
    assert Steps(Step(s, ev), [Done]) == Steps(Step(Step(s, ev), Done), []);
  }

  /** A changed member role ID ends the run without a call, whatever budget is left. */
  lemma RoleChangeEndsRun(s: Run, roleID: string, result: ApiResult)
    requires !s.exited && roleID != s.initialRoleID
    ensures var r := Steps(s, [Tick(roleID, result), Done]);
            r.exited && r.calls == s.calls && r.retryCount == s.retryCount
  {
  }

  /** Any member-update event ends the run, whether or not it confirms the change. */
  lemma AnyUpdateEndsRun(s: Run, roles: seq<string>, roleID: string, auditChannelID: string)
    requires !s.exited
    ensures var r := Steps(s, [Update(roles, roleID, auditChannelID), Done]);
            r.exited && r.calls == s.calls
  {
  }

  /** The deadline, or cancellation of the bot's context, ends the run. */
  lemma DeadlineEndsRun(s: Run)
    requires !s.exited
    ensures Steps(s, [Deadline, Done]).exited
  {
  }

  /**
   * Cancellation does not stop the `select` from picking a tick or an update first: a
   * confirmed grant followed by a tick and a second update makes a second API call and
   * a second audit-log message before the goroutine returns.
   */
  lemma WorkAfterCancellation(guildID: string, userID: string, reason: string, roleID: string,
                              auditChannelID: string)
    requires auditChannelID != ""
    ensures var s := Start(guildID, userID, Grant, reason, 3, roleID);
            var r := Goroutine(s, roleID, Ok, [Update([roleID], roleID, auditChannelID), Tick(roleID, Ok),
                                               Update([roleID], roleID, auditChannelID)]);
            r.calls == 2 && r.audits == 2 && r.cancelled && !r.exited
  {
    var s := Start(guildID, userID, Grant, reason, 3, roleID);
    var u := Update([roleID], roleID, auditChannelID);
    var t := Tick(roleID, Ok);
    var s1 := Applied(s, roleID, Ok);
    assert s1.calls == 1 && !s1.cancelled;
    var s2 := Step(s1, u);
    assert s2.audits == 1 && s2.cancelled;
    var s3 := Step(s2, t);
    assert s3.calls == 2;
    var s4 := Step(s3, u);
    assert s4.audits == 2 && !s4.exited;
    assert [u, t, u][1..] == [t, u] && [t, u][1..] == [u] && [u][1..] == [];
    assert Steps(s4, []) == s4;
    assert Steps(s3, [u]) == s4;
    assert Steps(s2, [t, u]) == s4;
    assert Steps(s1, [u, t, u]) == s4;
  }

  /**
   * A second start for the same member overwrites the registry entry, and when the
   * first run exits it deletes the key although the second run is still live.
   */
  method DuplicateStartLosesEntry(guildID: string, userID: string, roleID: string)
    returns (pending: bool, secondLive: bool, registered: bool)
    ensures pending && secondLive && !registered
  {
    var registry := new Registry();
    var first, _ := NewRoleApplier(registry, guildID, userID, Grant, "first", 3, roleID);
    var second, p := NewRoleApplier(registry, guildID, userID, Grant, "second", 3, roleID);
    pending := p;
    assert [Deadline, Done][1..] == [Done];
    first.Loop(roleID, Ok, [Deadline, Done]);
    secondLive := !second.exited;
    registered := UpdateKey(guildID, userID) in registry.channels;
  }

}
