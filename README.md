# mmo-parties: the `/party` command dispatcher and the PlayerStats lookup

This project models two pieces of the party add-on in Dafny and proves what they guarantee.

- **`PartyCommand.run`** handles `/party <verb> [player]`. It resolves the
  optional player, ignores client-side calls and looks up the caller's
  PlayerStats. It then switches on the verb. Each case checks its guards in a
  fixed order. A failed guard sends one error and returns 0. Otherwise the case
  either writes state itself or hands over to a `Party` operation:
  - `deny` clears the caller's invite;
  - `leave` clears the caller's party reference;
  - `leader` replaces the party's leader.
- **`MMOParties.GetStatsByName` / `GetStats`** search the player-to-stats map.
  The search goes in iteration order and matches the key's name exactly. It
  returns the first match, or null.

Java object references become handles into arenas:

- a `StatsRef` names one PlayerStats object;
- a `PartyRef` names one Party object.

This keeps aliasing visible. Every holder of one reference sees the same object.
The `World` record holds:

- the registry (a sequence of entries in iteration order);
- the PlayerStats objects (`party`, `partyInvite`);
- the `leader` field of every party;
- an append-only log of the messages sent (error or info) and of the `Party.*` calls made.

Modules:

- `Entities` (entities.dfy): the value types.
- `MMOParties` (mmo_parties.dfy): the lookup. `Lookup` is the recursive specification. `GetStatsByName` is the loop, proved equal to it.
- `PartyCommand` (party_command.dfy): `Dispatch` gives the meaning of one `run` call as a function. `Run` is the step-by-step method with its early returns, proved equal to `Dispatch`.
- `PartyCommandProperties` (party_command_properties.dfy): one lemma per guard and effect, the frame, and lemmas about consecutive commands.

Behaviour of the code worth knowing:

- At this layer, `create` has no "already in a party" guard.
- `leader` does not check that the target is a party member.
- `tp` only checks that the caller is in *a* party.
- `GetStats` creates no entry for an unknown player. It returns null, and `run` then throws a NullPointerException on every verb that dereferences the stats (outcome `Threw`, state unchanged).
- The promote verb is spelled `leader`.

## Model

| member | source | states |
|---|---|---|
| `MMOParties.Lookup` | src/main/java/deathtags/core/MMOParties.java:112-120 | a found stats reference belongs to some entry whose key has exactly the given name |
| `MMOParties.LookupFirstMatch` | src/main/java/deathtags/core/MMOParties.java:114-116 | if entry i is the first whose key is named `name`, the lookup yields entry i's stats |
| `MMOParties.LookupSound` | src/main/java/deathtags/core/MMOParties.java:114-116 | whatever the lookup yields is the stats of the first entry carrying the name |
| `MMOParties.LookupNone` | src/main/java/deathtags/core/MMOParties.java:114-119 | the lookup yields null exactly when no entry's key carries the name |
| `MMOParties.GetStatsByName` | src/main/java/deathtags/core/MMOParties.java:112-120 | the loop returns the first match's stats, or null exactly when no name matches; it changes nothing and creates no entry |
| `MMOParties.GetStats` | src/main/java/deathtags/core/MMOParties.java:127-130 | the result is the lookup of the player's name; it is null for an unregistered player |
| `MMOParties.CaseSensitive` | src/main/java/deathtags/core/MMOParties.java:115 | the match is case-sensitive: "Steve" is not found as "steve" |
| `MMOParties.FirstWins` | src/main/java/deathtags/core/MMOParties.java:114-116 | of two entries with the same name, the earlier in iteration order wins |
| `PartyCommand.VerbOf` | src/main/java/deathtags/commands/PartyCommand.java:81-157 | a recognised verb is spelled exactly as its case label; every other string is unrecognised |
| `PartyCommand.Run` | src/main/java/deathtags/commands/PartyCommand.java:72-160 | the method's outcome and new state equal `Dispatch`; it keeps every reference valid; whenever it returns, it returns 0 |
| `PartyCommandProperties.OfflineTargetRejected` | src/main/java/deathtags/commands/PartyCommand.java:76 | a named player who is not online gets one error, return 0 and no change, whatever the verb |
| `PartyCommandProperties.ClientSideIgnored` | src/main/java/deathtags/commands/PartyCommand.java:77 | on the client side nothing changes and 0 is returned |
| `PartyCommandProperties.ReturnsZeroOrThrows` | src/main/java/deathtags/commands/PartyCommand.java:79-159 | every return is 0; it throws exactly when a verb that dereferences the stats reaches them for an unregistered caller, and then changes nothing |
| `PartyCommandProperties.SplitByVerb` | src/main/java/deathtags/commands/PartyCommand.java:81-157 | every path leaves stats and leaders untouched, except the three writes: the deny clear, the leave clear and the leader assignment |
| `PartyCommandProperties.Frame` | src/main/java/deathtags/commands/PartyCommand.java:81-157 | references stay valid; the registry and object sets are unchanged; the log only grows; at most the caller's stats and its party's leader change |
| `PartyCommandProperties.TpDisallowed` | src/main/java/deathtags/commands/PartyCommand.java:83-84 | with teleporting disallowed, tp is rejected before the in-party check, even for an unregistered caller |
| `PartyCommandProperties.TpOutsideParty` | src/main/java/deathtags/commands/PartyCommand.java:85-86 | allowed but not in a party: one error, no change |
| `PartyCommandProperties.TpTeleports` | src/main/java/deathtags/commands/PartyCommand.java:88 | allowed and in party p: exactly one Teleport(player, target) call on p and no other change |
| `PartyCommandProperties.CreateUnguarded` | src/main/java/deathtags/commands/PartyCommand.java:91-93 | create calls Party.Create for any caller, even one already in a party or unregistered |
| `PartyCommandProperties.InviteWithoutTarget` | src/main/java/deathtags/commands/PartyCommand.java:96 | invite with no player argument errors before any party is created |
| `PartyCommandProperties.InviteCreatesParty` | src/main/java/deathtags/commands/PartyCommand.java:97-99 | with a target and no party: Create, then Invite on the party Create made (its handle recorded as None), and nothing else |
| `PartyCommandProperties.InviteFromParty` | src/main/java/deathtags/commands/PartyCommand.java:97-99 | with a target and party p: one Invite call on p, and nothing else |
| `PartyCommandProperties.AcceptWithoutInvite` | src/main/java/deathtags/commands/PartyCommand.java:103-104 | accept with no pending invite: one error, no change |
| `PartyCommandProperties.AcceptJoins` | src/main/java/deathtags/commands/PartyCommand.java:106 | accept calls Join on the inviting party and changes nothing else |
| `PartyCommandProperties.DenyWithoutInvite` | src/main/java/deathtags/commands/PartyCommand.java:110-111 | deny with no pending invite: one error, no change |
| `PartyCommandProperties.DenyClearsInvite` | src/main/java/deathtags/commands/PartyCommand.java:113-114 | deny sets the invite to null; the caller's party, every other stats and every leader are untouched; one info message |
| `PartyCommandProperties.LeaveOutsideParty` | src/main/java/deathtags/commands/PartyCommand.java:118-119 | leave outside a party: one error, no change |
| `PartyCommandProperties.LeaveClearsParty` | src/main/java/deathtags/commands/PartyCommand.java:121-124 | leave calls Leave, then nulls the caller's party; afterwards the caller is in no party; invites and leaders unchanged |
| `PartyCommandProperties.LeaderPromotes` | src/main/java/deathtags/commands/PartyCommand.java:128-137 | when all guards pass, the leader becomes the target, with no membership check on the target, and a broadcast follows |
| `PartyCommandProperties.LeaderRejected` | src/main/java/deathtags/commands/PartyCommand.java:128-134 | not in a party, not the leader (object identity) or no target: one error and every leader unchanged |
| `PartyCommandProperties.DisbandByLeader` | src/main/java/deathtags/commands/PartyCommand.java:141-147 | the leader of party p makes exactly one Disband call on p |
| `PartyCommandProperties.DisbandRejected` | src/main/java/deathtags/commands/PartyCommand.java:141-145 | a caller not in a party, or not its leader: one error, no change |
| `PartyCommandProperties.InertVerbs` | src/main/java/deathtags/commands/PartyCommand.java:150-156 | gui and every unrecognised verb change nothing and return 0 |
| `PartyCommandProperties.OnlyLeaderDisbands` | src/main/java/deathtags/commands/PartyCommand.java:140-147 | whatever the verb, a Disband call on party p comes only from the `disband` verb of a caller in p who is its leader |
| `PartyCommandProperties.OnlyAuthorisedWrites` | src/main/java/deathtags/commands/PartyCommand.java:113-136 | whatever the verb, a leader changes only through the old leader's `leader` verb, and only to the target; an invite is cleared only by deny, and a party reference only by leave, each on the caller's own stats |
| `PartyCommandProperties.DenyThenAccept` | src/main/java/deathtags/commands/PartyCommand.java:103-113 | after a successful deny, accept is rejected |
| `PartyCommandProperties.LeaveThenPartyVerbs` | src/main/java/deathtags/commands/PartyCommand.java:83-147 | after a successful leave, leave, leader, disband and (allowed) tp are rejected |
| `PartyCommandProperties.PromoteThenFormerLeader` | src/main/java/deathtags/commands/PartyCommand.java:131-147 | after handing leadership to another player, the former leader can neither promote nor disband |

## Left out

- Command registration and tab suggestions (PartyCommand.java lines 28-70) are parser glue. They are not modelled.
- Resolving the caller and the named player is left out. `getPlayerOrException` and `getPlayerByName` become inputs: the caller `Player` and the lookup result `target`. The client-side test becomes the `clientSide` input.
- `ConfigHolder.COMMON.allowPartyTP` becomes the `allowPartyTP` input.
- The `gui` verb's network send and screen opening are left out. The model treats `gui` as "no state change, nothing logged".
- The invite that follows an implicit `Party.Create` is issued on the party Create made. Create's effect is not modelled, so that event records its party as None rather than a handle.
- A `Request` may carry a resolved `target` with no `targetStr`. The host never produces this, because with no name there is nothing to resolve. If such a request were given, `tp` would log that target in `TeleportInParty` where the code passes null.
- `Party.Create`, `Invite`, `Join`, `Leave`, `Disband`, `Teleport` and `Broadcast` are left out. Party.java and PlayerStats.java are not part of this model. Each call is a log entry with no effect on the modelled state. Any state change inside them (such as Create setting the caller's party before `invite` uses it) is not captured. `InParty()` is taken to be "party is not null".
- The message texts are left out. Messages are logged only as error or info.
- Component text: `GetStatsByName` compares `getName().getContents()`, while `GetStats` passes `getName().getString()`. Both are modelled as one `name` string. A name component whose two renderings differ is not captured.
- HashMap iteration order is unspecified in Java. Here it is an input: the order of the registry sequence.
- The rest of MMOParties.java (lines 44-105) is left out: mod set-up, config, event listeners, network channel, key bindings, permissions. It is host lifecycle and I/O.
- Concurrency is left out. The host runs one command at a time.
