# Epochtal lobbies and leaderboard submissions in Dafny

This project models two parts of Epochtal, a Portal 2 tournament server:

- **The lobby registry** (`util/lobbies.js`). It keeps two dictionaries keyed by lobby name:
  - `lobbies.list` holds each lobby's public entry: its player list and its mode.
  - `lobbies.data` holds the private entry: the password hash, the session map, the state
    (IDLE or INGAME) and the lobby context with the selected map.

  Its commands are `list`, `get`, `getdata`, `create`, `join`, `rename`, `password`, `map`
  and `ready`. Each failing command returns a fixed error code, and the checks run in a
  fixed order. `create` also installs three handlers on the event bus:
  - `auth` admits listed players;
  - `message` handles `isGame`, `checkMap` and `finishRun`;
  - `disconnect` handles a soft disconnect of a game client, the leave of a browser client,
    and the 10-second deletion sweep of an empty lobby.
- **The admission logic of the leaderboard API** (`api/leaderboard.js`). This covers the
  ordered guard chains of `submit`, `submitlink`, `remove` and `edit`, and the co-op
  partner pairing that `submit` writes into the week's `partners` map.

Layout:

| file | module | contents |
|---|---|---|
| `common.dfy` | `Common` | `Option` and the `SteamId` type |
| `names.dfy` | `Names` | ECMAScript `trim` and the 1..50 character name rule |
| `lobbies.dfy` | `Lobbies` | see below |
| `leaderboard.dfy` | `Leaderboard` | the API guards, `PairPartners`, class `Week`, `SubmitLink`, `Handle` |
| `findings.dfy` | `Findings` | concrete runs that show the findings below, as written and corrected |

`lobbies.dfy` contains:

- the class `Registry`, with the maps `list` and `data` and a ghost event `log`;
- the entry classes `ListEntry` and `DataEntry`;
- the pure ready-state machine `ReadyStep`;
- the quorum loops and the name search.

`ListEntry` and `DataEntry` are classes because the handlers hold the entry objects
themselves. The disconnect handler finds its lobby's name by comparing object identity.

`Registry.Valid` is the invariant that every command keeps, and every handler as corrected
in "## Findings" (`Registry.Message` and `Registry.Disconnect` call the corrected
`FinishRun` and `SoftDisconnect`):

- both dictionaries have the same keys;
- no entry object is filed under two names;
- every key is a trimmed 1..50 character name;
- each lobby's player list is duplicate-free and names exactly the players with a session;
- every ready player has a game client.

The soft disconnect as the source writes it breaks the last conjunct after a rename. It
drops the game socket, but its forced unready fails with ERR_NAME, so the player stays
ready without a game client (`Findings.SoftDisconnectAfterRename`).

Outside calls are parameters or inputs:

- the password hasher (`hashed`) and verifier (`verify`);
- the user directory (`isUser`);
- the workshop lookup (`workshop`) and the week's map id;
- the game's answer to the map check (`MapReply`: yes, no, or the 15-second timeout);
- the demo verdict and the parsed demo;
- the category and user lookups, and the clock.

Broadcasts, socket sends, channel operations and leaderboard submissions go into the ghost
`log` of the lobby registry. The leaderboard API instead returns, as an `Action`, the
leaderboard utility call a request ends in.

A `checkMap` message that arrives when no map check is pending (for example after the
timeout deleted the callback) calls an undefined callback and throws: late replies are not
ignored. `Registry.Message` answers them with `TypeError`.

## Model

| member | source | states |
|---|---|---|
| Names.Trim | util/lobbies.js:95 | the result has no leading or trailing whitespace, and it is the infix of the input left after removing whitespace only from both ends |
| Names.TrimmedIsFixed | util/lobbies.js:95 | a string that neither starts nor ends with whitespace is its own trim |
| Names.TrimIdempotent | util/lobbies.js:250 | trimming a name twice gives the same result as trimming it once |
| Names.TrimmedNameIsValid | util/lobbies.js:95-96 | a name that passes the length rule after trimming is a valid stored key |
| Lobbies.CreateLobbyContext | util/lobbies.js:16-39 | a new lobby context has no map selected and the single category "ffa" |
| Lobbies.JoinKeepsRoster | util/lobbies.js:235-236 | appending an unlisted player and giving them a fresh session keeps the list duplicate-free and in step with the session map |
| Lobbies.LeaveKeepsRoster | util/lobbies.js:176-178 | splicing a player out of the list and deleting their session keeps the list duplicate-free and in step with the session map |
| Lobbies.ReadyStep | util/lobbies.js:324-416 | a ready request never adds or removes sessions and never touches the password or context; a failure changes nothing; a success changes, among the sessions, only the requesting player's flag, and the lobby state follows `ReadyQuorum` and `UnreadyReset`; players with a ready flag keep having a game client |
| Lobbies.ReadyFailures | util/lobbies.js:332-372 | each failure of `ready` (ERR_INGAME, ERR_NOMAP, ERR_GAMEAUTH, ERR_TIMEOUT, ERR_MAP, and TypeError for a player without a session) happens exactly when its check fails after the earlier checks passed, and it leaves the lobby as it was |
| Lobbies.ReadyQuorum | util/lobbies.js:375-388 | after a successful ready request the player is ready, the reply was yes and a map is selected; exactly one `lobby_start`, carrying the map file, is sent iff every session is ready; the lobby goes in game when every session is ready and otherwise keeps its state, so for a request that is not forced it is in game iff every session is ready |
| Lobbies.UnreadyReset | util/lobbies.js:390-405 | after a successful unready the player is not ready and nothing is started. The state becomes IDLE iff nobody is ready; otherwise it is left as it was |
| Lobbies.ForcedUnreadySucceeds | util/lobbies.js:327-331 | a forced unready of a player with a session succeeds, whatever the lobby state |
| Lobbies.SoftDisconnected | util/lobbies.js:169-172 | after a soft disconnect the player keeps a session that is neither ready nor attached, and ready players keep having a game client |
| Lobbies.SoftDisconnectIsForcedUnready | util/lobbies.js:169-172 | clearing the game socket and then forcing an unready succeeds, gives `SoftDisconnected`, and broadcasts only the unready |
| Lobbies.WithoutSplices | util/lobbies.js:176-177 | `splice(indexOf(x), 1)` removes the first occurrence of `x` |
| Lobbies.WithoutRemoves | util/lobbies.js:176-177 | removing a listed player from a duplicate-free list shortens it by one, removes exactly that player, and keeps it duplicate-free |
| Lobbies.EveryoneReady | util/lobbies.js:378-384 | the loop with early exit answers true iff every session is ready |
| Lobbies.NobodyReady | util/lobbies.js:396-402 | the loop with early exit answers true iff no session is ready |
| Lobbies.IndexOf | util/lobbies.js:176 | the result is -1 iff the player is not listed; otherwise it is the first position of the player |
| Lobbies.DataEntry.Ready | util/lobbies.js:332-413 | the in-place ready command on one lobby's entry leaves the entry equal to `ReadyStep` of its old value, and returns the same status and the same sent messages |
| Lobbies.Registry.AuthAdmitsSessions | util/lobbies.js:120 | in a valid registry, a lobby's `auth` handler admits exactly the players who have a session |
| Lobbies.Registry.List | util/lobbies.js:66-71 | returns the public entries of all lobbies |
| Lobbies.Registry.Get | util/lobbies.js:73-79 | returns the public entry of an existing lobby, and ERR_NAME otherwise |
| Lobbies.Registry.GetData | util/lobbies.js:81-87 | returns the private entry of an existing lobby, and ERR_NAME otherwise |
| Lobbies.Registry.Create | util/lobbies.js:89-117 | ERR_NAME iff the trimmed name is empty or over 50 characters. ERR_EXISTS iff the trimmed name is a key of either map. On success both maps gain that key and nothing else changes. The new entries are an empty list, mode ffa, no sessions, IDLE, no map, and a hash only when a password was given. The lobby's channel is opened. Validity is kept |
| Lobbies.Registry.Join | util/lobbies.js:221-244 | the errors ERR_STEAMID, ERR_NAME, ERR_PASSWORD and ERR_EXISTS each occur exactly when their check fails after the earlier ones passed, and nothing else fails. On success the player is appended once, gets an empty session, and the join is broadcast. Validity is kept |
| Lobbies.Registry.Rename | util/lobbies.js:248-275 | the errors ERR_EXISTS, ERR_NAME and ERR_NEWNAME each occur exactly when their check fails after the earlier ones passed. On success both entry objects move, unchanged, from the old key to the trimmed new key, the old key is gone, and other lobbies are untouched. The rename is announced on the old channel, which is then renamed. Validity is kept |
| Lobbies.Registry.SetPassword | util/lobbies.js:279-294 | ERR_NAME iff the lobby is missing, and no other failure; otherwise it succeeds and only the stored hash changes, to none for an empty password |
| Lobbies.Registry.SetMap | util/lobbies.js:298-320 | ERR_NAME iff the lobby is missing, then ERR_WEEKMAP iff the map is this week's. Otherwise only the selected map changes, and it is broadcast |
| Lobbies.Registry.Ready | util/lobbies.js:324-416 | ERR_NAME iff the lobby is missing. Otherwise the lobby's entry, the status and the messages sent are those of `ReadyStep`. Validity is kept |
| Lobbies.Registry.FindName | util/lobbies.js:180-187 | the search returns a key under which the entry object is filed, and none iff no key holds it |
| Lobbies.Registry.Message | util/lobbies.js:123-161 | with the corrected `finishRun` of "## Findings": `isGame` records the socket as the sender's game socket, or throws for a sender without a session. `checkMap` with no pending check throws and changes nothing. `finishRun` submits the run and forces an unready by the current name. Other types do nothing |
| Lobbies.Registry.FinishRun | util/lobbies.js:144-157 | the run is submitted and broadcast on the lobby's current channel, then the player is forced unready as `ReadyStep` prescribes. A player with a session ends up not ready |
| Lobbies.Registry.FinishRunAsWritten | util/lobbies.js:144-157 | as written, the broadcast goes to the channel of the name `create` was called with. The forced unready goes to the creation-time trimmed name, and fails with ERR_NAME when no lobby has that name |
| Lobbies.Registry.Disconnect | util/lobbies.js:164-212 | with the corrected soft disconnect of "## Findings": a sender without a session throws. A game socket closing is a soft disconnect: the player stays listed with an empty session. Any other socket removes the player from both the list and the session map, broadcasts the leave, and schedules the sweep iff the list became empty. Validity is kept |
| Lobbies.Registry.SoftDisconnect | util/lobbies.js:167-173 | the game socket is forgotten and the player forced unready in the lobby's current name, giving `SoftDisconnected`. Validity is kept |
| Lobbies.Registry.SoftDisconnectAsWritten | util/lobbies.js:167-173 | as written, the forced unready goes to the creation-time name. When no lobby has that name it fails with ERR_NAME, the socket is forgotten, and the ready flag is kept |
| Lobbies.Registry.Leave | util/lobbies.js:175-193 | the player is spliced out of the list and its session deleted. The leave is broadcast on the current channel, and a sweep under the current name is scheduled iff the list is empty. Validity is kept |
| Lobbies.Registry.SweepFire | util/lobbies.js:194-209 | the lobby whose entry is still empty when the timer fires is deleted from both maps, along with its channel. A lobby joined again meanwhile, or already gone, is left alone. Validity is kept |
| Lobbies.Registry.SweepFireAsWritten | util/lobbies.js:194-209 | as written, the sweep deletes the key captured at disconnect time and that name's channel, whatever lobby is filed there now |
| Findings.FinishRunAfterRename | util/lobbies.js:150-154 | after a rename, `finishRun` as written fails with ERR_NAME, and the player stays ready in a lobby that stays in game |
| Findings.FinishRunAfterRenameCorrected | util/lobbies.js:150-154 | in the same run the corrected handler unreadies the player |
| Findings.SoftDisconnectAfterRename | util/lobbies.js:169-172 | after a rename, a game client closing leaves a ready player without a game client |
| Findings.SoftDisconnectAfterRenameCorrected | util/lobbies.js:169-172 | in the same run the corrected handler leaves the player unready and detached and the lobby idle |
| Findings.SweepDeletesWrongLobby | util/lobbies.js:189-201 | an empty lobby renamed before its sweep fires survives, while the new lobby created under the old name is deleted with a player in it |
| Findings.SweepDeletesWrongLobbyCorrected | util/lobbies.js:189-201 | in the same run the corrected sweep deletes the empty lobby and keeps the new one |
| Findings.UntrimmedNameMissesChannel | util/lobbies.js:152 | for a name with surrounding whitespace, the channel `"lobby_" + name` differs from the channel `create` opened |
| Leaderboard.SubmitGuard | api/leaderboard.js:31-100 | a submission passes the guards exactly when every condition holds: unlocked, not video-only, logged in with an unbanned profile, a note of at most 200 characters, a demo file, an admitting verdict where one is needed, the demo's player is the user, and a partner is present iff the category is co-op. TypeError is the reply iff the category is undefined, and ERR_LOCKED iff it is locked |
| Leaderboard.SubmitGuardOrder | api/leaderboard.js:31-100 | ERR_PROOF, ERR_LOGIN, ERR_PROFILE, ERR_BANNED, ERR_ARGS, ERR_NOTE, ERR_FILE, ERR_ILLEGAL, ERR_STEAMID, ERR_NOTCOOP and ERR_NOPARTNER each occur exactly when their check fails after all earlier checks passed, and all guards pass exactly when the last one does |
| Leaderboard.VerdictRule | api/leaderboard.js:55-65 | ERR_ILLEGAL is never the reply before the note and file checks pass. After them, a rejected verdict gives ERR_ILLEGAL in every category that must be verified, PPNF gives ERR_ILLEGAL iff the category awards points and is not ppnf, VALID never does, and a category that need not be verified never does |
| Leaderboard.PairPartners | api/leaderboard.js:81-95 | pairing succeeds iff neither player is recorded, or they are already recorded as each other's partner. Afterwards they are paired both ways, and all other records are unchanged |
| Leaderboard.PairKeepsSymmetric | api/leaderboard.js:81-95 | pairing keeps the partner map symmetric |
| Leaderboard.PairIdempotent | api/leaderboard.js:81-95 | resubmitting an accepted pair, in either order, is accepted and changes nothing |
| Leaderboard.PairOrderInsensitive | api/leaderboard.js:81-95 | for any partner map, which partner submits first makes no difference |
| Leaderboard.PairedPlayersStay | api/leaderboard.js:92-95 | a player recorded with another partner cannot be paired with someone new, in either order |
| Leaderboard.Week.Pair | api/leaderboard.js:83-95 | the in-place writes to `partners` give the map `PairPartners` prescribes, or leave it unchanged on failure, and keep it symmetric |
| Leaderboard.Week.Submit | api/leaderboard.js:29-115 | the first failing guard is the reply and leaves `partners` unchanged. Otherwise a co-op run is paired, or fails with ERR_PARTNER. An accepted run is added under the user's own steamid. Symmetry is kept |
| Leaderboard.SubmitLink | api/leaderboard.js:117-144 | ERR_LOCKED, ERR_PROOF, ERR_LOGIN, then ERR_ARGS iff any of `args[2..5]` is missing. Otherwise the link run is added for the logged-in user, with time and portals as given |
| Leaderboard.RemoveOrEdit | api/leaderboard.js:146-172 | an undefined category is TypeError, a locked one ERR_LOCKED whatever the login, an unlocked one without a login ERR_LOGIN. The call is made iff the category is unlocked and a user is logged in; it names that category and that user's entry, is a remove for `remove` and an edit carrying `args[2]` as the new note for `edit` |
| Leaderboard.Handle | api/leaderboard.js:12-27 | `get` returns the leaderboard. An unknown command is ERR_COMMAND. Only `submit` changes `partners`, and symmetry is kept |

## Left out

- Persistence: the JSON snapshots written with `Bun.write`, and the demo file handling (`tmppath`, `rmSync`, `renameSync`, `xz`, `formData`). These are file and process I/O.
- Event bus internals: channel creation, sends, renames and deletes are recorded in the log. Their own failures are not modelled, such as a send to an unknown channel or the delete that the sweep's try/catch swallows.
- Concurrency: each command and handler runs atomically. In the source, `ready` waits up to 15 s for the map check, and other callbacks may run in the meantime. The `checkMapCallback` field and the timers are not modelled; the answer is the `MapReply` input.
- Lobbies dispatcher: there is no method for the `switch` itself or for ERR_COMMAND on an unknown lobby command (util/lobbies.js:422). Each command is its own method.
- Lobbies.Registry.Message: `JSON.parse` of a malformed message throws in the source; the model takes the message already parsed.
- Lobbies.Registry.Message, Lobbies.Registry.Disconnect, Lobbies.Registry.FinishRun, Lobbies.Registry.SoftDisconnect, Lobbies.Registry.Leave: the requirement that a handler's entries are still filed in the registry is a modelling assumption; a handler firing for a lobby that was already deleted is not modelled.
- Lobbies.Registry.SoftDisconnectAsWritten: its contract says nothing when the creation-time name now belongs to a different lobby.
- Inherited keys: `in` on the source's plain objects also answers true for keys inherited from `Object.prototype`, such as `constructor`. The model's maps hold only stored keys.
- String lengths: the model counts characters, while JavaScript counts UTF-16 code units. The two differ for characters outside the Basic Multilingual Plane, in the 50-character name rule and the 200-character note rule.
- Argument coercion: `main.js` turns URL arguments into JSON values. The model takes string arguments, so a non-string note (whose `length` is undefined) is not modelled. `ready`'s `args[2] == true` and `force` are taken as booleans.
- Outside calls: their failures are not modelled. These are the workshop lookup, the category lookup, an unknown category, and the leaderboard utility throwing after `partners` was already updated.
- Discord reporting of rejected runs, and the lobby context's fields besides the selected map and its categories, are not modelled.
- Leaderboard.Handle: its contract does not restate the replies of `submit` and `submitlink`; `Week.Submit` and `SubmitLink` state them.

## Findings

| source | as written | input that shows it | evidently intended | confidence | as-written member | corrected member |
|---|---|---|---|---|---|---|
| util/lobbies.js:154 | `finishRun` forces the unready with `cleanName`, the name the lobby had when it was created | `Findings.FinishRunAfterRename`: create "a"; "P" joins, attaches a game client and readies up, so the game starts; rename "a" to "b"; P's game sends `finishRun`. The unready fails with ERR_NAME and P stays ready in a lobby still in game | unready the player in the lobby the handler belongs to, under its current name | not executed | Lobbies.Registry.FinishRunAsWritten | Lobbies.Registry.FinishRun |
| util/lobbies.js:171 | the soft disconnect forces the unready with `cleanName` after deleting the game socket | `Findings.SoftDisconnectAfterRename`: the same run, then P's game socket closes. The unready fails with ERR_NAME, and P is ready with no game client, so the lobby cannot start or reset | unready the player in the lobby under its current name | not executed | Lobbies.Registry.SoftDisconnectAsWritten | Lobbies.Registry.SoftDisconnect |
| util/lobbies.js:199-206 | the sweep deletes the lobby name and channel captured when the last player left | `Findings.SweepDeletesWrongLobby`: "P" leaves lobby "a"; within 10 s "a" is renamed to "b"; a new lobby "a" is created and "Q" joins it. The sweep deletes the new "a" with Q in it, and "b" stays empty forever | delete the lobby that is still empty, under its current name | not executed | Lobbies.Registry.SweepFireAsWritten | Lobbies.Registry.SweepFire |
| util/lobbies.js:152 | `finishRun` broadcasts on `"lobby_" + name`, the untrimmed name `create` was called with | `Findings.UntrimmedNameMissesChannel`: create " a" opens the channel "lobby_a", and the submission is sent to "lobby_ a" | broadcast on the channel `create` opened | not executed | Lobbies.Registry.FinishRunAsWritten | Lobbies.Registry.FinishRun |
