# Role applier and membership view of member-gentei, in Dafny

This project models two pieces of member-gentei, a Discord bot with a web UI that gives
YouTube channel members a members-only Discord role:

- **The role applier** (`bot/discord/role_applier.go`, `newRoleApplier`). For one guild
  member, a run keeps granting or revoking the guild's member role. It calls the API once
  at start and then again on every tick. The run stops when the retry budget runs out, when
  the guild's member role ID no longer equals the one captured at start, when the API answers
  with an error containing `HTTP 403 Forbidden` (the status of section 15.5.4 of RFC 9110),
  when the deadline passes, when the bot's own context is cancelled, or when any
  member-update event arrives. Runs are registered in
  `guildMemberUpdateChannels` under the key `guildID + "-" + userID`.
- **The membership view** (`public/app.js`). These are the computed properties `memberMap`,
  `channelMemberships` and the two `channelHref` getters of the `yt-info` and
  `yt-channel-card` components.

Files:

- `wrappers.dfy`: module `Wrappers` with `Option` (JavaScript null/undefined, "no audit message").
- `strings.dfy`: module `Strings`, which models Go's `strings.Contains` by its definition
  (some index where the substring occurs).
- `role_applier.dfy`: module `RoleApplier`. It holds the run twice.
  - As a value: `Run`, with `Applied` for `applyRoleFunc`, `Updated` for `memberUpdateFunc`,
    `Step` for one `select` iteration, `Steps` for the loop and `Goroutine` for the goroutine.
  - As the mutable objects of the source: class `RoleApplier` holds the variables the
    closures share, and class `Registry` holds the `sync.Map`. Every method's `ensures` gives
    its new state as the value-level function of its old state.
- `role_applier_properties.dfy`: module `RoleApplierProperties`, with lemmas that relate
  several steps: the budget, how a run ends, races after cancellation, and registry sharing.
- `membership_view.dfy`: module `MembershipView`, with the UI's computed properties.
  `memberMap` and `channelMemberships` are methods with the source's loops, proved against
  the functions `MemberPaths` and `Partition`.

How the environment is modelled:

- Go's `select` chooses at random among ready cases. So the goroutine consumes a finite
  schedule of `Event`s: `Done`, `Tick`, `Update` and `Deadline`.
- `Done` is ready only once the context is cancelled. A `Done` scheduled earlier is not a
  ready case and changes nothing.
- `Tick` and `Update` remain ready after cancellation, as in the source.
- Every tick carries the member role ID the guild has at that moment and the API's answer.
- Every update carries the event's role list, the current member role ID and the audit
  channel ID.
- `Deadline` stands for both ways the retry context ends from outside the run: its deadline
  passing, and the cancellation of the bot's context `d.ctx`, from which it is derived
  (bot/discord/role_applier.go:44). Either one cancels the context.

Where the code's behaviour may be unexpected, the model follows the code:

- A budget of `tries` gives at most `tries - 1` API calls, not `tries`. This is because
  `retryCount` is 1-indexed and is checked before it is incremented
  (bot/discord/role_applier.go:45-46, 73, 83).
- A second start for a member who already has a live run logs a message, then overwrites the
  registry entry. It neither rejects the new start nor cancels the old run
  (bot/discord/role_applier.go:57-61).
- The exit of the older run then deletes the key that the newer run owns
  (bot/discord/role_applier.go:151-155).
- The 403 classification is a substring test on the error text
  (bot/discord/role_applier.go:89, 101).
- An update event ends the run whether or not it confirms the change
  (bot/discord/role_applier.go:128-141).
- A tick or an update that `select` picks after cancellation is still handled. So a second
  API call and a second audit-log message are possible (bot/discord/role_applier.go:149-161).

## Model

| member | source | states |
|---|---|---|
| Strings.Contains | bot/discord/role_applier.go:89 | `strings.Contains(s, sub)` is true exactly when `sub` occurs in `s` at some index |
| Strings.ContainsInside | bot/discord/role_applier.go:89-91 | an error text with the 403 marker anywhere inside it is classified as 403 |
| RoleApplier.IsForbidden | bot/discord/role_applier.go:89-101 | an API answer is a permanent 403 refusal exactly when it is an error whose text has `HTTP 403 Forbidden` at some index |
| RoleApplier.UpdateKey | bot/discord/role_applier.go:43 | the registry key is the guild ID, then a single `-`, then the user ID |
| RoleApplier.Start | bot/discord/role_applier.go:41-52 | a new run has `retryCount` 1, no calls, is neither cancelled nor exited, captured the member role ID, and satisfies the run invariant |
| RoleApplier.Classify | bot/discord/role_applier.go:73-107 | the budget is checked first, whatever the role ID; the role-changed branch is taken exactly when budget remains and the role ID drifted; a call is made exactly when budget remains and the role ID is unchanged; after a call the branch is 403 exactly for an error whose text holds the marker, accepted exactly for success |
| RoleApplier.Applied | bot/discord/role_applier.go:63-109 | the context is cancelled afterwards exactly when it was before or the branch was out-of-retries, role-changed or 403; exactly one call is counted when the branch made one and none otherwise; `retryCount` grows with the call count; no other field changes; the run invariant (1 ≤ `retryCount` ≤ max(`tries`,1), `retryCount` − 1 = calls, exited ⇒ cancelled) is preserved |
| RoleApplier.Confirms | bot/discord/role_applier.go:129 | an update confirms the run exactly when the target role's presence in the event's roles matches the action: present for Grant, absent for Revoke |
| RoleApplier.UpdateAudit | bot/discord/role_applier.go:113-139 | an audit-log message is emitted exactly when the event confirms the goal (current role present for Grant, absent for Revoke) and the audit channel ID is non-empty, and it carries the channel, action, user and reason |
| RoleApplier.Updated | bot/discord/role_applier.go:111-142 | a member update always cancels the context, counts one audit message exactly when one is emitted, changes nothing else, and preserves the run invariant |
| RoleApplier.Step | bot/discord/role_applier.go:149-162 | one `select` iteration exits exactly on a `Done` once cancelled, keeps the run's fixed fields, and preserves the run invariant |
| RoleApplier.Steps | bot/discord/role_applier.go:149-162 | the loop keeps the run's fixed fields and the run invariant, does nothing after exit, and never decreases the call and audit counts |
| RoleApplier.Goroutine | bot/discord/role_applier.go:144-163 | the goroutine keeps the run's fixed fields and the run invariant, never lowers the counts, and its one apply before any event counts as a call whenever that apply makes one |
| RoleApplier.FindRole | bot/discord/role_applier.go:120-127 | `anyMatch` is true exactly when the target role ID occurs in the event's role list |
| RoleApplier.Registry.Load | bot/discord/role_applier.go:58 | reports whether the key has an entry |
| RoleApplier.Registry.Store | bot/discord/role_applier.go:61 | the key maps to the new run; the other entries are unchanged |
| RoleApplier.Registry.Delete | bot/discord/role_applier.go:154 | the key is removed, unconditionally; the other entries are unchanged |
| RoleApplier.RoleApplier.constructor | bot/discord/role_applier.go:41-52 | the object's state is `Start` of its arguments and its key is `guildID-userID` |
| RoleApplier.RoleApplier.ApplyRole | bot/discord/role_applier.go:63-109 | the new state is `Applied` of the old one, and the reported branch is `Classify` of the old state |
| RoleApplier.RoleApplier.MemberUpdate | bot/discord/role_applier.go:111-142 | the new state is `Updated` of the old one, and the returned audit message is `UpdateAudit` |
| RoleApplier.RoleApplier.Expire | bot/discord/role_applier.go:44 | the deadline, or cancellation of the bot's context, cancels the retry context and changes nothing else |
| RoleApplier.RoleApplier.Exit | bot/discord/role_applier.go:151-155 | on `Done` the goroutine exits and deletes its registry key, and nothing else changes |
| RoleApplier.RoleApplier.Loop | bot/discord/role_applier.go:144-163 | the final state is `Goroutine` of the initial state, with one apply before any event; the registry loses the run's key exactly if the goroutine exited |
| RoleApplier.NewRoleApplier | bot/discord/role_applier.go:41-61 | reports whether a run was pending under the key, then stores the new run under the key anyway, overwriting; the new run starts as `Start` with the member role ID captured now |
| RoleApplierProperties.UpdateKeyInjective | bot/discord/role_applier.go:43 | for dash-free guild IDs, two members share a registry key only if they are the same member |
| RoleApplierProperties.UpdateKeyAmbiguous | bot/discord/role_applier.go:43 | guild IDs containing a dash can make two different members share a key |
| RoleApplierProperties.StepsAppend | bot/discord/role_applier.go:149-162 | running two schedules in turn is the same as running their concatenation |
| RoleApplierProperties.CallBudget | bot/discord/role_applier.go:46-83 | a whole run, under any schedule, makes at most max(`tries` − 1, 0) API calls |
| RoleApplierProperties.NoCallAfterBudget | bot/discord/role_applier.go:73-77 | once `retryCount` ≥ `tries`, no event makes another call or changes `retryCount` |
| RoleApplierProperties.TicksSpendBudget | bot/discord/role_applier.go:83-107 | while budget remains, ticks with an unchanged role ID and any sequence of retryable answers (which may differ from tick to tick) make exactly one call each and cancel nothing |
| RoleApplierProperties.TransientFailuresExhaustBudget | bot/discord/role_applier.go:144-158 | when the first apply and every tick get a retryable answer, each possibly different, budget N ≥ 1 gives exactly N − 1 calls (the first at start); the run is still live after N − 2 ticks and cancelled after N − 1 |
| RoleApplierProperties.ForbiddenEndsRun | bot/discord/role_applier.go:86-107 | an error containing the 403 marker ends the run at the next `Done`, whatever budget is left, after exactly one more call |
| RoleApplierProperties.RoleChangeEndsRun | bot/discord/role_applier.go:78-82 | a drifted member role ID ends the run without a call and without an increment |
| RoleApplierProperties.AnyUpdateEndsRun | bot/discord/role_applier.go:141 | any member update ends the run, matching or not, without a call |
| RoleApplierProperties.DeadlineEndsRun | bot/discord/role_applier.go:151-155 | after the deadline or cancellation of the bot's context, the next `Done` ends the run |
| RoleApplierProperties.WorkAfterCancellation | bot/discord/role_applier.go:150-161 | after a confirming update has cancelled the run, a tick that `select` picks still makes a second API call, and a second update emits a second audit message |
| RoleApplierProperties.DuplicateStartLosesEntry | bot/discord/role_applier.go:58-61 | a second start for the same member sees the pending run and still registers; when the first run exits, the key is gone although the second run is live |
| MembershipView.ChannelHref | public/app.js:33-39 | the link is the channel URL prefix followed by the channel ID, or by the fallback channel ID when the ID is empty |
| MembershipView.ChannelHrefInjective | public/app.js:33-36 | different non-empty channel IDs give different links |
| MembershipView.FallbackIndistinguishable | public/app.js:37-38 | the fallback link for a missing ID equals the link of the fallback channel |
| MembershipView.CardChannelHref | public/app.js:92-97 | the card's link is empty exactly when no document is loaded; otherwise it is the URL prefix followed by the document's `ChannelID` |
| MembershipView.CardMatchesInfo | public/app.js:92-97 | for a non-empty channel ID, the card links where `yt-info` links |
| MembershipView.MemberMap | public/app.js:40-49 | the keys are exactly the membership paths, none when `memberships` is falsy, and every value is `true` |
| MembershipView.TaggedEntries | public/app.js:57-72 | each group holds only entries of its own membership, whose `isMember` matches the path being a membership and whose path is its document's path |
| MembershipView.ChannelMemberships | public/app.js:50-74 | the result is `[]` for falsy `channels`; otherwise it is the member entries followed by the non-member entries, each group in `channels` order (`Partition`) |
| MembershipView.TaggedLast | public/app.js:57-72 | the last channel goes to the end of its own group and leaves the other group unchanged |
| MembershipView.TaggedLength | public/app.js:57-72 | the two groups together are as long as `channels` |
| MembershipView.TaggedMultiset | public/app.js:57-72 | the two groups together hold each channel reference exactly as often as `channels` does |
| MembershipView.PartitionIsPermutation | public/app.js:57-73 | the result has the length of `channels` and holds each input reference once: a permutation |
| MembershipView.PartitionMarksMembers | public/app.js:59-71 | an entry's `isMember` is true exactly when its path is a key of `memberMap`, and its path is its reference's path |
| MembershipView.PartitionMembersFirst | public/app.js:73 | every member entry precedes every non-member entry |
| MembershipView.TaggedAppend | public/app.js:57-73 | grouping distributes over concatenation of the channel list, so each group keeps the input's relative order (stability) |
| MembershipView.TaggedSingle | public/app.js:59-71 | a single channel lands in the group its membership says, and only there |

## Left out

- The Discord API calls `grantMemberRole`/`revokeMemberRole` and `GuildMemberRoleAdd/Remove`
  (bot/discord/role_applier.go:166-188) are not part of this model. Each call's answer is an
  input `ApiResult` (`Ok` or `Err(message)`).
- Time is not modelled. That covers the ticker, the context deadline and the 5 s and 30 s
  defaults. They become the `Tick` and `Deadline` events.
- The goroutine, the capacity-1 `updateChan`, and the atomicity and Load-then-Store race of
  `sync.Map` are concurrency and are not modelled. The registry is a plain sequential map.
- An update is an event delivered to the loop. The code that sends on the channel, and the
  panic of sending after `close`, are outside the core.
- The loop runs over a finite schedule, while the source's `for`/`select` is endless. A run
  whose schedule ends before `Done` is a run still waiting.
- The guild state `d.guildStates` can change concurrently. The member role ID and the audit
  channel ID are therefore inputs to each step.
- zerolog logging is left out. `Classify` names the branch that decides which line is logged.
- `emitMemberAuditLog` and `user.AvatarURL` are left out. Only the message's channel, action,
  user and reason are recorded, plus a count of emitted messages.
- `roleAction` is a Go string type. A value other than the two constants would skip both
  `switch` cases after the increment. The model's `RoleAction` has only the two constants.
- In JavaScript, a path equal to an `Object.prototype` property name (such as `constructor`)
  would read as truthy in `memberMap`. Firestore paths contain `/`, so this case is not
  modelled.
- A `channelid` or `ChannelID` that is not a string (such as `null`) would be stringified by
  `+`. The model takes strings.
- Vue component registration, templates, Firebase auth, Firestore snapshots, the async
  `docref.get()`, DOM class toggling, the OAuth URLs, `disconnect` and `logout` are left out.
  They are UI and remote I/O.
