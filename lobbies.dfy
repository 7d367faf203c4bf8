/** The lobby registry of `util/lobbies.js`: two dictionaries keyed by lobby name (the public
    list entries and the private data entries), the commands that change them, the ready-state
    machine with its map check and quorum rules, and the per-lobby message and disconnect
    handlers that `create` hands to the event bus.

    Broadcasts, socket sends and event-channel operations are appended to the ghost `log`;
    the password hasher, the password verifier, the user directory and the workshop lookup
    are parameters. */
module Lobbies {
  import opened Common
  import opened Names

  type Hash = string
  type MapId = string

  /** The error codes the dispatcher throws. `TypeError` stands for the JavaScript runtime
      error raised when a handler or command dereferences a session that does not exist, or
      calls a map-check callback that is not there. */
  datatype Error =
    | ErrName | ErrExists | ErrPassword | ErrSteamId | ErrNewName | ErrWeekMap
    | ErrInGame | ErrNoMap | ErrGameAuth | ErrTimeout | ErrMap
    | TypeError

  /** "SUCCESS", or the code of the error thrown. */
  datatype Status = Success | Failure(error: Error)

  datatype Result<T> = Ok(value: T) | Err(error: Error)

  /** LOBBY_IDLE and LOBBY_INGAME. */
  datatype LobbyState = Idle | InGame

  /** The only mode a lobby is created with, "ffa". */
  datatype Mode = Ffa

  /** A live websocket; `steamid` is the identity the bus authenticated it with (`ws.data`). */
  datatype Socket = Socket(conn: nat, steamid: SteamId)

  /** A player's session in a lobby. `{}` (a fresh session) has `ready` undefined, which the
      quorum loops read as not ready. */
  datatype Session = Session(ready: bool, gameSocket: Option<Socket>)

  const EmptySession := Session(false, None)

  /** The workshop record `workshopper(["get", mapid])` returns; `file` is what the game loads. */
  datatype WorkshopMap = WorkshopMap(id: MapId, file: string)

  /** The per-lobby context of `createLobbyContext`: its name, the selected map (`null` at
      first) and the names of its categories. */
  datatype LobbyContext = LobbyContext(name: string, selectedMap: Option<WorkshopMap>, categories: seq<string>)

  /** What became of the `checkMap` query: the game answered yes or no, or the 15 s timer fired. */
  datatype MapReply = Yes | No | Timeout

  /** A message from a client socket, by its `type`. */
  datatype GameMessage = IsGame | CheckMap(value: bool) | FinishRun(time: int, portals: int) | Unrecognised

  /** Payloads broadcast on a lobby's event channel. */
  datatype Payload =
    | LobbyName(newName: string)
    | LobbyLeave(steamid: SteamId)
    | LobbyJoin(steamid: SteamId)
    | LobbyMap(newMap: WorkshopMap)
    | LobbyReady(steamid: SteamId, readyState: bool)
    | LobbyStart(mapFile: string)
    | LobbySubmit(time: int, portals: int, steamid: SteamId)

  /** Everything the registry does to the outside world, in order. */
  datatype Event =
    | Send(channel: string, payload: Payload)
    | OpenChannel(channel: string)
    | RenameChannel(channel: string, newChannel: string)
    | DeleteChannel(channel: string)
    | CheckMapQuery(socket: Socket, mapFile: string)
    | RunSubmitted(mode: Mode, steamid: SteamId, time: int, portals: int)

  /** The value of a data entry's fields at one moment. */
  datatype LobbyData = LobbyData(password: Option<Hash>, players: map<SteamId, Session>,
                                 state: LobbyState, context: LobbyContext)

  /** The outcome of one `ready` command on an existing lobby. */
  datatype ReadyResult = ReadyResult(status: Status, lobby: LobbyData, events: seq<Event>)

  /** The event channel of the lobby called `name`. */
  function Channel(name: string): string
  {
    "lobby_" + name
  }

  /** `createLobbyContext(name)`: no map selected, one "ffa" category. */
  function CreateLobbyContext(name: string): (c: LobbyContext)
    ensures c.selectedMap.None? && c.categories == ["ffa"]
  {
    LobbyContext(Channel(name), None, ["ffa"])
  }

  /** `password ? hash : false`: an empty password stores no hash. */
  function StoredPassword(password: string, hashed: Hash): Option<Hash>
  {
    if password == "" then None else Some(hashed)
  }

  // ---------------------------------------------------------------------------------------
  // Player lists and session maps

  predicate NoDup(s: seq<SteamId>)
  {
    forall i, j :: 0 <= i < j < |s| ==> s[i] != s[j]
  }

  function Members(s: seq<SteamId>): set<SteamId>
  {
    set x | x in s
  }

  /** The player list of a lobby and its session map describe the same players, each listed once. */
  predicate Roster(players: seq<SteamId>, sessions: map<SteamId, Session>)
  {
    NoDup(players) && Members(players) == sessions.Keys
  }

  /** A ready player has a game client connected. */
  predicate ReadyHasGame(sessions: map<SteamId, Session>)
  {
    forall s :: s in sessions && sessions[s].ready ==> sessions[s].gameSocket.Some?
  }

  predicate AllReady(sessions: map<SteamId, Session>)
  {
    forall s :: s in sessions ==> sessions[s].ready
  }

  predicate NoneReady(sessions: map<SteamId, Session>)
  {
    forall s :: s in sessions ==> !sessions[s].ready
  }

  /** `players.push(steamid)` with a fresh session keeps list and sessions in step. */
  lemma JoinKeepsRoster(players: seq<SteamId>, sessions: map<SteamId, Session>, steamid: SteamId)
    requires Roster(players, sessions) && steamid !in players
    ensures Roster(players + [steamid], sessions[steamid := EmptySession])
  {
    var p := players + [steamid];
    forall i, j | 0 <= i < j < |p| ensures p[i] != p[j] {
      if j == |players| {
        assert p[i] == players[i];
      } else {
        assert p[i] == players[i] && p[j] == players[j];
      }
    }
    assert Members(p) == Members(players) + {steamid} by {
      forall x ensures x in Members(p) <==> x in Members(players) + {steamid} {
        if x in p {
          var k :| 0 <= k < |p| && p[k] == x;
          if k < |players| { assert players[k] == x; }
        }
        if x in players {
          var k :| 0 <= k < |players| && players[k] == x;
          assert p[k] == x;
        }
        assert p[|players|] == steamid;
      }
    }
  }

  /** `players.splice(index, 1)` at the one place `steamid` is listed, with its session
      deleted, keeps list and sessions in step. */
  lemma LeaveKeepsRoster(players: seq<SteamId>, sessions: map<SteamId, Session>, index: nat)
    requires Roster(players, sessions) && index < |players|
    ensures Roster(players[..index] + players[index + 1..], sessions - {players[index]})
  {
    var x := players[index];
    var p := players[..index] + players[index + 1..];
    assert forall k :: 0 <= k < |p| ==> p[k] == players[if k < index then k else k + 1];
    forall i, j | 0 <= i < j < |p| ensures p[i] != p[j] {
      var i', j' := if i < index then i else i + 1, if j < index then j else j + 1;
      assert i' < j' && p[i] == players[i'] && p[j] == players[j'];
    }
    forall y ensures y in Members(p) <==> y in Members(players) - {x} {
      if y in p {
        var k :| 0 <= k < |p| && p[k] == y;
        var k' := if k < index then k else k + 1;
        assert players[k'] == y && k' != index;
      }
      if y in players && y != x {
        var k :| 0 <= k < |players| && players[k] == y;
        assert k != index;
        assert p[if k < index then k else k - 1] == y;
      }
    }
  }

  /** Count of `lobby_start` broadcasts in an event sequence. */
  function Starts(events: seq<Event>): nat
  {
    if events == [] then 0
    else (if events[0].Send? && events[0].payload.LobbyStart? then 1 else 0) + Starts(events[1..])
  }

  lemma {:induction false} StartsAppend(a: seq<Event>, b: seq<Event>)
    ensures Starts(a + b) == Starts(a) + Starts(b)
  {
    if a != [] {
      assert (a + b)[0] == a[0];
      assert (a + b)[1..] == a[1..] + b;
      StartsAppend(a[1..], b);
    } else {
      assert a + b == b;
    }
  }

  // ---------------------------------------------------------------------------------------
  // The ready-state machine on one lobby's data

  /** What `ready` does to an existing lobby whose data is `d`, broadcasting on `channel`:
      the checks in the source's order, then the flag change and the quorum rule. */
  function ReadyStep(d: LobbyData, channel: string, readyState: bool, steamid: SteamId,
                     force: bool, reply: MapReply): (r: ReadyResult)
    ensures r.lobby.players.Keys == d.players.Keys
    ensures r.lobby.password == d.password && r.lobby.context == d.context
    ensures r.status.Failure? ==> r.lobby == d
    ensures ReadyHasGame(d.players) ==> ReadyHasGame(r.lobby.players)
    ensures r.status == Success ==>
              && steamid in d.players
              && r.lobby.players == d.players[steamid := d.players[steamid].(ready := readyState)]
  {
    if !force && d.state == InGame then ReadyResult(Failure(ErrInGame), d, [])
    else if readyState then
      if d.context.selectedMap.None? then ReadyResult(Failure(ErrNoMap), d, [])
      else if steamid !in d.players then ReadyResult(Failure(TypeError), d, [])
      else if d.players[steamid].gameSocket.None? then ReadyResult(Failure(ErrGameAuth), d, [])
      else
        var mapFile := d.context.selectedMap.value.file;
        var query := [CheckMapQuery(d.players[steamid].gameSocket.value, mapFile)];
        if reply == Timeout then ReadyResult(Failure(ErrTimeout), d, query)
        else if reply == No then ReadyResult(Failure(ErrMap), d, query)
        else
          var players := d.players[steamid := d.players[steamid].(ready := true)];
          var start := AllReady(players);
          ReadyResult(Success,
                      d.(players := players, state := if start then InGame else d.state),
                      query + (if start then [Send(channel, LobbyStart(mapFile))] else [])
                            + [Send(channel, LobbyReady(steamid, true))])
    else if steamid !in d.players then ReadyResult(Failure(TypeError), d, [])
    else
      var players := d.players[steamid := d.players[steamid].(ready := false)];
      ReadyResult(Success,
                  d.(players := players, state := if NoneReady(players) then Idle else d.state),
                  [Send(channel, LobbyReady(steamid, false))])
  }

  /** The failures of `ready`, in the order the source checks them; each leaves the player's
      flag, and everything else, as it was. */
  lemma ReadyFailures(d: LobbyData, channel: string, readyState: bool, steamid: SteamId,
                      force: bool, reply: MapReply)
    ensures var r := ReadyStep(d, channel, readyState, steamid, force, reply);
      && (r.status == Failure(ErrInGame) <==> !force && d.state == InGame)
      && (r.status == Failure(ErrNoMap) <==> (force || d.state == Idle) && readyState && d.context.selectedMap.None?)
      && (r.status == Failure(ErrGameAuth) <==>
            (force || d.state == Idle) && readyState && d.context.selectedMap.Some?
            && steamid in d.players && d.players[steamid].gameSocket.None?)
      && (r.status == Failure(ErrTimeout) <==>
            (force || d.state == Idle) && readyState && d.context.selectedMap.Some?
            && steamid in d.players && d.players[steamid].gameSocket.Some? && reply == Timeout)
      && (r.status == Failure(ErrMap) <==>
            (force || d.state == Idle) && readyState && d.context.selectedMap.Some?
            && steamid in d.players && d.players[steamid].gameSocket.Some? && reply == No)
      && (r.status == Failure(TypeError) <==>
            (force || d.state == Idle) && steamid !in d.players && (readyState ==> d.context.selectedMap.Some?))
      && (r.status.Failure? ==> r.lobby == d && Starts(r.events) == 0)
  {
  }

  /** After a successful ready request the player is ready, and exactly one `lobby_start`
      naming the map file is sent iff every session is ready. The lobby then goes in game and
      otherwise keeps its state, so for a request that is not forced (only an idle lobby gets
      that far) it is in game iff every session is ready. */
  lemma {:induction false} ReadyQuorum(d: LobbyData, channel: string, steamid: SteamId,
                                      force: bool, reply: MapReply)
    requires ReadyStep(d, channel, true, steamid, force, reply).status == Success
    ensures var r := ReadyStep(d, channel, true, steamid, force, reply);
      && reply == Yes && d.context.selectedMap.Some?
      && r.lobby.players[steamid].ready
      && r.lobby.state == (if AllReady(r.lobby.players) then InGame else d.state)
      && (!force ==> (r.lobby.state == InGame <==> AllReady(r.lobby.players)))
      && Starts(r.events) == (if AllReady(r.lobby.players) then 1 else 0)
      && (AllReady(r.lobby.players) ==> Send(channel, LobbyStart(d.context.selectedMap.value.file)) in r.events)
  {
    var r := ReadyStep(d, channel, true, steamid, force, reply);
    var mapFile := d.context.selectedMap.value.file;
    var query := [CheckMapQuery(d.players[steamid].gameSocket.value, mapFile)];
    var start: seq<Event> := if AllReady(r.lobby.players) then [Send(channel, LobbyStart(mapFile))] else [];
    var tail := [Send(channel, LobbyReady(steamid, true))];
    assert r.events == query + start + tail;
    StartsAppend(query + start, tail);
    StartsAppend(query, start);
    assert Starts(query) == 0 && Starts(tail) == 0;
    if AllReady(r.lobby.players) {
      assert Starts(start) == 1;
      assert r.events[|query|] == Send(channel, LobbyStart(mapFile));
    }
  }

  /** After a successful unready request (forced or not) the player is not ready, and the lobby
      goes back to idle iff no session is ready; otherwise its state is left as it was. */
  lemma UnreadyReset(d: LobbyData, channel: string, steamid: SteamId, force: bool, reply: MapReply)
    requires ReadyStep(d, channel, false, steamid, force, reply).status == Success
    ensures var r := ReadyStep(d, channel, false, steamid, force, reply);
      && !r.lobby.players[steamid].ready
      && r.lobby.state == (if NoneReady(r.lobby.players) then Idle else d.state)
      && Starts(r.events) == 0
  {
  }

  /** A forced unready of a player who has a session always succeeds, whatever the lobby state. */
  lemma ForcedUnreadySucceeds(d: LobbyData, channel: string, steamid: SteamId, reply: MapReply)
    requires steamid in d.players
    ensures ReadyStep(d, channel, false, steamid, true, reply).status == Success
  {
  }

  /** What a game socket closing does to its player's session before the forced unready. */
  function ClearGame(d: LobbyData, steamid: SteamId): LobbyData
    requires steamid in d.players
  {
    d.(players := d.players[steamid := d.players[steamid].(gameSocket := None)])
  }

  /** The lobby after its player `steamid` lost the game client: still a member, with a
      session that is neither ready nor attached, the others untouched, and the lobby idle if
      that leaves nobody ready. Ready players keep having a game client. */
  function SoftDisconnected(d: LobbyData, steamid: SteamId): (r: LobbyData)
    requires steamid in d.players
    ensures r.players.Keys == d.players.Keys && r.players[steamid] == EmptySession
    ensures ReadyHasGame(d.players) ==> ReadyHasGame(r.players)
  {
    var players := d.players[steamid := EmptySession];
    d.(players := players, state := if NoneReady(players) then Idle else d.state)
  }

  /** The soft disconnect is the forced unready of `ready` applied after the game socket is
      forgotten: it succeeds, yields `SoftDisconnected` and broadcasts only the unready. */
  lemma SoftDisconnectIsForcedUnready(d: LobbyData, channel: string, steamid: SteamId, reply: MapReply)
    requires steamid in d.players
    ensures ReadyStep(ClearGame(d, steamid), channel, false, steamid, true, reply)
            == ReadyResult(Success, SoftDisconnected(d, steamid), [Send(channel, LobbyReady(steamid, false))])
  {
    var c := ClearGame(d, steamid);
    assert c.players[steamid := c.players[steamid].(ready := false)] == d.players[steamid := EmptySession];
  }

  /** `players` with the first occurrence of `x` spliced out. */
  function Without(players: seq<SteamId>, x: SteamId): seq<SteamId>
  {
    if players == [] then []
    else if players[0] == x then players[1..]
    else [players[0]] + Without(players[1..], x)
  }

  /** `splice(index, 1)` at the first occurrence of `x` is `Without(players, x)`. */
  lemma {:induction false} WithoutSplices(players: seq<SteamId>, x: SteamId, index: nat)
    requires index < |players| && players[index] == x && x !in players[..index]
    ensures Without(players, x) == players[..index] + players[index + 1..]
  {
    if index > 0 {
      assert players[0] != x by { assert players[..index][0] == players[0]; }
      assert players[1..][..index - 1] == players[..index][1..];
      WithoutSplices(players[1..], x, index - 1);
      assert [players[0]] + players[1..][..index - 1] == players[..index];
      assert players[1..][index..] == players[index + 1..];
    }
  }

  /** A list with a head: its members are the head and the tail's members, and it has no
      repeats iff the head is not in the tail and the tail has none. */
  lemma ConsNoDup(h: SteamId, t: seq<SteamId>)
    ensures Members([h] + t) == {h} + Members(t)
    ensures NoDup([h] + t) <==> h !in Members(t) && NoDup(t)
  {
    var s := [h] + t;
    assert forall k :: 0 <= k < |t| ==> s[k + 1] == t[k];
    assert forall y :: y in s <==> y == h || y in t;
    if NoDup(s) {
      forall i, j | 0 <= i < j < |t| ensures t[i] != t[j] {
        assert s[i + 1] != s[j + 1];
      }
      forall k | 0 <= k < |t| ensures t[k] != h {
        assert s[0] != s[k + 1];
      }
    }
    if h !in Members(t) && NoDup(t) {
      forall i, j | 0 <= i < j < |s| ensures s[i] != s[j] {
        if i == 0 { assert s[j] == t[j - 1]; }
      }
    }
  }

  /** Removing a listed player shortens the list by one and removes exactly that player. */
  lemma {:induction false} WithoutRemoves(players: seq<SteamId>, x: SteamId)
    requires NoDup(players) && x in players
    ensures |Without(players, x)| == |players| - 1
    ensures Members(Without(players, x)) == Members(players) - {x}
    ensures NoDup(Without(players, x))
  {
    var t := players[1..];
    assert players == [players[0]] + t;
    ConsNoDup(players[0], t);
    if players[0] != x {
      assert x in t;
      WithoutRemoves(t, x);
      ConsNoDup(players[0], Without(t, x));
    }
  }

  // ---------------------------------------------------------------------------------------
  // The two quorum loops of `ready`

  /** The loop at the end of a ready request: true iff every session is ready. */
  method EveryoneReady(sessions: map<SteamId, Session>) returns (everyoneReady: bool)
    ensures everyoneReady <==> AllReady(sessions)
  {
    everyoneReady := true;
    var rest := sessions.Keys;
    while rest != {}
      invariant rest <= sessions.Keys
      invariant forall s :: s in sessions.Keys - rest ==> sessions[s].ready
      decreases rest
    {
      var curr :| curr in rest;
      if !sessions[curr].ready {
        everyoneReady := false;
        break;
      }
      rest := rest - {curr};
    }
  }

  /** The loop at the end of an unready request: true iff no session is ready. */
  method NobodyReady(sessions: map<SteamId, Session>) returns (nobodyReady: bool)
    ensures nobodyReady <==> NoneReady(sessions)
  {
    nobodyReady := true;
    var rest := sessions.Keys;
    while rest != {}
      invariant rest <= sessions.Keys
      invariant forall s :: s in sessions.Keys - rest ==> !sessions[s].ready
      decreases rest
    {
      var curr :| curr in rest;
      if sessions[curr].ready {
        nobodyReady := false;
        break;
      }
      rest := rest - {curr};
    }
  }

  /** `players.indexOf(steamid)`: the first position of `steamid`, or -1. */
  method IndexOf(players: seq<SteamId>, steamid: SteamId) returns (index: int)
    ensures -1 <= index < |players|
    ensures index == -1 <==> steamid !in players
    ensures 0 <= index ==> players[index] == steamid && steamid !in players[..index]
  {
    index := 0;
    while index < |players|
      invariant 0 <= index <= |players|
      invariant steamid !in players[..index]
    {
      if players[index] == steamid {
        return;
      }
      index := index + 1;
    }
    assert players[..index] == players;
    index := -1;
  }

  // ---------------------------------------------------------------------------------------
  // Keys of the two dictionaries

  /** No value is filed under two keys. */
  ghost predicate Injective<K, V>(m: map<K, V>)
  {
    forall a, b :: a in m && b in m && a != b ==> m[a] != m[b]
  }

  /** Filing a value no key holds yet under a new key keeps the map injective. */
  lemma AddFreshInjective<K, V>(m: map<K, V>, k: K, v: V)
    requires Injective(m) && k !in m && v !in m.Values
    ensures Injective(m[k := v])
  {
    var m' := m[k := v];
    forall a, b | a in m' && b in m' && a != b
      ensures m'[a] != m'[b]
    {
      if a == k { assert m[b] in m.Values; }
      if b == k { assert m[a] in m.Values; }
    }
  }

  /** Moving a value from `name` to a free key `newName` keeps the map injective. */
  lemma RekeyInjective<K, V>(m: map<K, V>, name: K, newName: K)
    requires Injective(m) && name in m && newName !in m
    ensures Injective((m - {name})[newName := m[name]])
  {
  }

  /** Deleting a key keeps the map injective. */
  lemma RemoveInjective<K, V>(m: map<K, V>, k: K)
    requires Injective(m)
    ensures Injective(m - {k})
  {
  }

  /** Every key is a name `create` or `rename` could have stored. */
  ghost predicate AllValidNames(names: set<string>)
  {
    forall n :: n in names ==> ValidName(n)
  }

  lemma AddValidName(names: set<string>, name: string)
    requires AllValidNames(names) && ValidName(name)
    ensures AllValidNames(names + {name})
  {
  }

  lemma RenameValid(names: set<string>, name: string, newName: string)
    requires AllValidNames(names) && ValidName(newName)
    ensures AllValidNames(names - {name} + {newName})
  {
  }

  // ---------------------------------------------------------------------------------------
  // Entries

  /** A lobby's public entry in `lobbies.list`. */
  class ListEntry {
    var players: seq<SteamId>
    const mode: Mode

    constructor ()
      ensures players == [] && mode == Ffa
    {
      players := [];
      mode := Ffa;
    }
  }

  /** The `auth` handler `create` installs: the bus admits a client to the lobby's channel
      iff its identity is on the lobby's player list. */
  predicate Auth(le: ListEntry, steamid: SteamId)
    reads le
  {
    steamid in le.players
  }

  /** A lobby's private entry in `lobbies.data`. */
  class DataEntry {
    var password: Option<Hash>
    var players: map<SteamId, Session>
    var state: LobbyState
    var context: LobbyContext

    constructor (password: Option<Hash>, cleanName: string)
      ensures View() == LobbyData(password, map[], Idle, CreateLobbyContext(cleanName))
    {
      this.password := password;
      players := map[];
      state := Idle;
      context := CreateLobbyContext(cleanName);
    }

    function View(): LobbyData
      reads this
    {
      LobbyData(password, players, state, context)
    }

    /** The body of the `ready` command once the lobby has been found: `ReadyStep`, with the
        broadcasts and the map-check query returned as `events`. */
    method Ready(channel: string, readyState: bool, steamid: SteamId, force: bool, reply: MapReply)
      returns (r: Status, ghost events: seq<Event>)
      modifies this
      ensures var step := ReadyStep(old(View()), channel, readyState, steamid, force, reply);
                r == step.status && View() == step.lobby && events == step.events
    {
      events := [];
      if !force && state == InGame {
        return Failure(ErrInGame), events;
      }
      if readyState {
        if context.selectedMap.None? {
          return Failure(ErrNoMap), events;
        }
        if steamid !in players {
          return Failure(TypeError), events;
        }
        var gameSocket := players[steamid].gameSocket;
        if gameSocket.None? {
          return Failure(ErrGameAuth), events;
        }
        var mapFile := context.selectedMap.value.file;
        events := [CheckMapQuery(gameSocket.value, mapFile)];
        if reply == Timeout {
          return Failure(ErrTimeout), events;
        }
        if reply == No {
          return Failure(ErrMap), events;
        }
        players := players[steamid := players[steamid].(ready := true)];
        var everyoneReady := EveryoneReady(players);
        if everyoneReady {
          state := InGame;
          events := events + [Send(channel, LobbyStart(mapFile))];
        }
      } else {
        if steamid !in players {
          return Failure(TypeError), events;
        }
        players := players[steamid := players[steamid].(ready := false)];
        var nobodyReady := NobodyReady(players);
        if nobodyReady {
          state := Idle;
        }
      }
      events := events + [Send(channel, LobbyReady(steamid, readyState))];
      r := Success;
    }
  }

  // ---------------------------------------------------------------------------------------
  // The registry

  /** `epochtal.data.lobbies`, with the dispatcher's commands and the handlers `create` installs. */
  class Registry {
    var list: map<string, ListEntry>
    var data: map<string, DataEntry>
    ghost var log: seq<Event>

    /** Both dictionaries name the same lobbies, no entry object is filed under two names,
        every name is a trimmed 1..50 character string, each lobby's player list matches its
        session map without repeats, and every ready player has a game client. */
    ghost predicate Valid()
      reads this`list, this`data, list.Values, data.Values
    {
      && list.Keys == data.Keys
      && Injective(list) && Injective(data)
      && AllValidNames(list.Keys)
      && (forall n :: n in list ==> EntryOk(list[n], data[n]))
    }

    /** One lobby's two entries agree: `Roster` and `ReadyHasGame`. */
    static ghost predicate EntryOk(le: ListEntry, de: DataEntry)
      reads le, de
    {
      Roster(le.players, de.players) && ReadyHasGame(de.players)
    }

    ghost function ListAt(name: string): set<object>
      reads this
    {
      if name in list then {list[name]} else {}
    }

    ghost function DataAt(name: string): set<object>
      reads this
    {
      if name in data then {data[name]} else {}
    }

    /** Editing one lobby's entries in place, leaving both dictionaries and every other
        lobby's entries as they were, keeps the registry valid if that lobby's entries agree. */
    twostate lemma EditKeepsValid(name: string)
      requires old(Valid()) && list == old(list) && data == old(data) && name in list
      requires forall n :: n in list && n != name ==> unchanged(list[n]) && unchanged(data[n])
      requires EntryOk(list[name], data[name])
      ensures Valid()
    {
      forall n | n in list
        ensures EntryOk(list[n], data[n])
      {
        if n != name {
          assert old(EntryOk(list[n], data[n]));
        }
      }
    }

    /** Filing a new pair of entries under a fresh valid name, leaving every existing lobby's
        entries as they were, keeps the registry valid if the new entries agree. */
    twostate lemma AddKeepsValid(name: string)
      requires old(Valid()) && ValidName(name) && name !in old(list) && name in list && name in data
      requires list == old(list)[name := list[name]] && data == old(data)[name := data[name]]
      requires fresh(list[name]) && fresh(data[name])
      requires forall n :: n in old(list) ==> unchanged(old(list)[n]) && unchanged(old(data)[n])
      requires EntryOk(list[name], data[name])
      ensures Valid()
    {
      AddFreshInjective(old(list), name, list[name]);
      AddFreshInjective(old(data), name, data[name]);
      AddValidName(old(list).Keys, name);
      assert list.Keys == old(list).Keys + {name};
      forall n | n in list
        ensures EntryOk(list[n], data[n])
      {
        if n != name {
          assert old(EntryOk(list[n], data[n]));
        }
      }
    }

    /** The `auth` handler of the lobby `name` admits exactly the players with a session. */
    lemma AuthAdmitsSessions(name: string, steamid: SteamId)
      requires Valid() && name in list
      ensures Auth(list[name], steamid) <==> steamid in data[name].players
    {
      assert EntryOk(list[name], data[name]);
      assert steamid in list[name].players <==> steamid in Members(list[name].players);
    }

    /** An empty registry. */
    constructor ()
      ensures Valid() && list == map[] && data == map[] && log == []
    {
      list := map[];
      data := map[];
      log := [];
    }

    /** `list`: the public entries of all lobbies. */
    method List() returns (r: map<string, ListEntry>)
      ensures r.Keys == list.Keys && forall n :: n in r ==> r[n] == list[n]
    {
      r := list;
    }

    /** `get`: a lobby's public entry, or ERR_NAME. */
    method Get(name: string) returns (r: Result<ListEntry>)
      ensures r.Err? <==> name !in list
      ensures r.Err? ==> r.error == ErrName
      ensures r.Ok? ==> r.value == list[name]
    {
      if name !in list {
        return Err(ErrName);
      }
      r := Ok(list[name]);
    }

    /** `getdata`: a lobby's private entry, or ERR_NAME. */
    method GetData(name: string) returns (r: Result<DataEntry>)
      ensures r.Err? <==> name !in data
      ensures r.Err? ==> r.error == ErrName
      ensures r.Ok? ==> r.value == data[name]
    {
      if name !in data {
        return Err(ErrName);
      }
      r := Ok(data[name]);
    }

    /** `create`: a new lobby under the trimmed name, in both dictionaries at once, with an
        empty player list, no sessions, state IDLE, no map, and a hash only if a password was
        given; then its event channel is opened. `hashed` is what the hasher returned for
        `password`. No other lobby changes. */
    method Create(name: string, password: string, hashed: Hash) returns (r: Status)
      requires Valid()
      modifies this
      ensures Valid()
      ensures r == Failure(ErrName) <==> !NameOk(Trim(name))
      ensures r == Failure(ErrExists) <==> NameOk(Trim(name)) && (Trim(name) in old(list) || Trim(name) in old(data))
      ensures r.Failure? ==> r == Failure(ErrName) || r == Failure(ErrExists)
      ensures r.Failure? ==> list == old(list) && data == old(data) && log == old(log)
      ensures r == Success ==>
                var clean := Trim(name);
                && clean !in old(list) && clean !in old(data) && clean in list && clean in data
                && list == old(list)[clean := list[clean]] && data == old(data)[clean := data[clean]]
                && fresh(list[clean]) && fresh(data[clean])
                && list[clean].players == [] && list[clean].mode == Ffa
                && data[clean].View() == LobbyData(StoredPassword(password, hashed), map[], Idle,
                                                   CreateLobbyContext(clean))
                && log == old(log) + [OpenChannel(Channel(clean))]
    {
      var cleanName := Trim(name);
      if !NameOk(cleanName) {
        return Failure(ErrName);
      }
      if cleanName in list || cleanName in data {
        return Failure(ErrExists);
      }
      TrimmedNameIsValid(name);
      var listEntry := new ListEntry();
      var dataEntry := new DataEntry(StoredPassword(password, hashed), cleanName);
      list := list[cleanName := listEntry];
      data := data[cleanName := dataEntry];
      log := log + [OpenChannel(Channel(cleanName))];
      AddKeepsValid(cleanName);
      r := Success;
    }

    /** `join`: checks, in order, that the user exists (`isUser`), that the lobby exists,
        that the password verifies when one is set, and that the player is not listed yet;
        then lists the player once, gives them a fresh session and broadcasts the join. */
    method Join(name: string, password: string, steamid: SteamId,
                isUser: SteamId -> bool, verify: (string, Hash) -> bool) returns (r: Status)
      requires Valid()
      modifies this, ListAt(name), DataAt(name)
      ensures Valid()
      ensures list == old(list) && data == old(data)
      ensures r == Failure(ErrSteamId) <==> !isUser(steamid)
      ensures r == Failure(ErrName) <==> isUser(steamid) && !(name in list && name in data)
      ensures r == Failure(ErrPassword) <==>
                && isUser(steamid) && name in list && name in data
                && old(data[name].password).Some? && !verify(password, old(data[name].password).value)
      ensures r == Failure(ErrExists) <==>
                && isUser(steamid) && name in list && name in data
                && !(old(data[name].password).Some? && !verify(password, old(data[name].password).value))
                && steamid in old(list[name].players)
      ensures r.Failure? ==> r.error in {ErrSteamId, ErrName, ErrPassword, ErrExists}
      ensures r.Failure? ==> log == old(log) && (name in list ==> unchanged(list[name], data[name]))
      ensures r == Success ==>
                && steamid !in old(list[name].players)
                && list[name].players == old(list[name].players) + [steamid]
                && list[name].mode == old(list[name].mode)
                && data[name].View() == old(data[name].View()).(players := old(data[name].players)[steamid := EmptySession])
                && log == old(log) + [Send(Channel(name), LobbyJoin(steamid))]
    {
      if !isUser(steamid) {
        return Failure(ErrSteamId);
      }
      if !(name in list && name in data) {
        return Failure(ErrName);
      }
      var le, de := list[name], data[name];
      if de.password.Some? && !verify(password, de.password.value) {
        return Failure(ErrPassword);
      }
      if steamid in le.players {
        return Failure(ErrExists);
      }
      JoinKeepsRoster(le.players, de.players, steamid);
      le.players := le.players + [steamid];
      de.players := de.players[steamid := EmptySession];
      log := log + [Send(Channel(name), LobbyJoin(steamid))];
      r := Success;
    }

    /** `rename`: checks, in order, that the trimmed new name is free in both dictionaries,
        that the old name exists, and that the new name has a legal length; then moves both
        entry objects, unchanged, to the new key, announces the new name on the old channel
        and renames the channel. */
    method Rename(name: string, newNameArg: string) returns (r: Status)
      requires Valid()
      modifies this
      ensures Valid()
      ensures var newName := Trim(newNameArg);
        && (r == Failure(ErrExists) <==> newName in old(list) || newName in old(data))
        && (r == Failure(ErrName) <==>
              !(newName in old(list) || newName in old(data)) && !(name in old(list) && name in old(data)))
        && (r == Failure(ErrNewName) <==>
              !(newName in old(list) || newName in old(data)) && name in old(list) && name in old(data)
              && !NameOk(newName))
        && (r.Failure? ==> r.error in {ErrExists, ErrName, ErrNewName})
        && (r.Failure? ==> list == old(list) && data == old(data) && log == old(log))
        && (r == Success ==>
              && name in old(list) && name != newName
              && list == (old(list) - {name})[newName := old(list)[name]]
              && data == (old(data) - {name})[newName := old(data)[name]]
              && log == old(log) + [Send(Channel(name), LobbyName(newName)),
                                    RenameChannel(Channel(name), Channel(newName))])
    {
      var newName := Trim(newNameArg);
      if newName in list || newName in data {
        return Failure(ErrExists);
      }
      if !(name in list && name in data) {
        return Failure(ErrName);
      }
      if !NameOk(newName) {
        return Failure(ErrNewName);
      }
      TrimmedNameIsValid(newNameArg);
      var listEntry, dataEntry := list[name], data[name];
      ghost var oldList, oldData := list, data;
      assert EntryOk(listEntry, dataEntry);
      RekeyInjective(list, name, newName);
      RekeyInjective(data, name, newName);
      RenameValid(list.Keys, name, newName);
      list := (list - {name})[newName := listEntry];
      data := (data - {name})[newName := dataEntry];
      forall n | n in list
        ensures EntryOk(list[n], data[n])
      {
        if n != newName {
          assert list[n] == oldList[n] && data[n] == oldData[n];
          assert old(EntryOk(list[n], data[n]));
        }
      }
      log := log + [Send(Channel(name), LobbyName(newName)),
                    RenameChannel(Channel(name), Channel(newName))];
      r := Success;
    }

    /** `password`: on an existing lobby, replaces only the stored hash (none for an empty
        password). `hashed` is what the hasher returned for `password`. */
    method SetPassword(name: string, password: string, hashed: Hash) returns (r: Status)
      requires Valid()
      modifies DataAt(name)
      ensures Valid()
      ensures r == Failure(ErrName) <==> !(name in list && name in data)
      ensures r.Failure? ==> r == Failure(ErrName)
      ensures r == Success ==>
                data[name].View() == old(data[name].View()).(password := StoredPassword(password, hashed))
    {
      if !(name in list && name in data) {
        return Failure(ErrName);
      }
      data[name].password := StoredPassword(password, hashed);
      r := Success;
    }

    /** `map`: on an existing lobby, unless `mapid` is this week's tournament map, selects the
        workshop map `workshop(mapid)` in the lobby's context and broadcasts it. */
    method SetMap(name: string, mapid: MapId, weekMapId: MapId, workshop: MapId -> WorkshopMap)
      returns (r: Status)
      requires Valid()
      modifies this, DataAt(name)
      ensures Valid()
      ensures list == old(list) && data == old(data)
      ensures r == Failure(ErrName) <==> !(name in list && name in data)
      ensures r == Failure(ErrWeekMap) <==> name in list && name in data && mapid == weekMapId
      ensures r.Failure? ==> r.error in {ErrName, ErrWeekMap}
      ensures r.Failure? ==> log == old(log) && (name in data ==> unchanged(data[name]))
      ensures r == Success ==>
                && data[name].View() == old(data[name].View()).(context := old(data[name].context).(selectedMap := Some(workshop(mapid))))
                && log == old(log) + [Send(Channel(name), LobbyMap(workshop(mapid)))]
    {
      if !(name in list && name in data) {
        return Failure(ErrName);
      }
      if mapid == weekMapId {
        return Failure(ErrWeekMap);
      }
      var newMap := workshop(mapid);
      var de := data[name];
      de.context := de.context.(selectedMap := Some(newMap));
      log := log + [Send(Channel(name), LobbyMap(newMap))];
      r := Success;
    }

    /** `ready`: ERR_NAME for a missing lobby, otherwise exactly `ReadyStep` on the lobby's data,
        with the map check answered by `reply` (ignored on the unready path, which sends no
        query). The quorum is read from the session map as it is after the flag changed. */
    method Ready(name: string, readyState: bool, steamid: SteamId, force: bool, reply: MapReply)
      returns (r: Status)
      requires Valid()
      modifies this, DataAt(name)
      ensures Valid()
      ensures list == old(list) && data == old(data)
      ensures !(name in list && name in data) ==> r == Failure(ErrName) && log == old(log)
      ensures name in list && name in data ==>
                var step := ReadyStep(old(data[name].View()), Channel(name), readyState, steamid, force, reply);
                && r == step.status && data[name].View() == step.lobby && log == old(log) + step.events
    {
      if !(name in list && name in data) {
        return Failure(ErrName);
      }
      var d := data[name];
      ghost var events;
      r, events := d.Ready(Channel(name), readyState, steamid, force, reply);
      log := log + events;
      EditKeepsValid(name);
    }

    /** The search the disconnect handler runs for the name its entry object is filed under. */
    method FindName(le: ListEntry) returns (lobbyName: Option<string>)
      ensures lobbyName.Some? ==> lobbyName.value in list && list[lobbyName.value] == le
      ensures lobbyName.None? ==> forall n :: n in list ==> list[n] != le
    {
      lobbyName := None;
      var rest := list.Keys;
      while rest != {}
        invariant rest <= list.Keys
        invariant forall n :: n in list.Keys - rest ==> list[n] != le
        decreases rest
      {
        var n :| n in rest;
        if list[n] == le {
          lobbyName := Some(n);
          break;
        }
        rest := rest - {n};
      }
    }

    /** The `message` handler of the lobby whose entries are `le` and `de` (currently filed
        under `lobby`), for a message on socket `ws`:
        - `isGame` records `ws` as the sender's game socket;
        - `checkMap` outside a ready request finds no callback to call and throws;
        - `finishRun` is `FinishRun`;
        - any other type does nothing. */
    method Message(le: ListEntry, de: DataEntry, ghost lobby: string, ws: Socket, msg: GameMessage)
      returns (r: Status)
      requires Valid() && lobby in list && list[lobby] == le && data[lobby] == de
      modifies this, de
      ensures Valid()
      ensures list == old(list) && data == old(data)
      ensures msg.IsGame? ==>
                if ws.steamid in old(de.players) then
                  && r == Success && log == old(log)
                  && de.View() == old(de.View()).(players := old(de.players)[ws.steamid := old(de.players)[ws.steamid].(gameSocket := Some(ws))])
                else r == Failure(TypeError) && unchanged(this, de)
      ensures msg.CheckMap? || msg.Unrecognised? ==>
                unchanged(this, de) && r == (if msg.CheckMap? then Failure(TypeError) else Success)
      ensures msg.FinishRun? ==>
                var step := ReadyStep(old(de.View()), Channel(lobby), false, ws.steamid, true, Timeout);
                && r == step.status && de.View() == step.lobby
                && log == old(log) + [RunSubmitted(le.mode, ws.steamid, msg.time, msg.portals),
                                      Send(Channel(lobby), LobbySubmit(msg.time, msg.portals, ws.steamid))]
                                   + step.events
    {
      match msg
      case IsGame =>
        if ws.steamid !in de.players {
          return Failure(TypeError);
        }
        de.players := de.players[ws.steamid := de.players[ws.steamid].(gameSocket := Some(ws))];
        r := Success;
      case CheckMap(_) =>
        // The callback of a ready request lives only while that request waits for its reply,
        // which `Ready` receives as `reply`; here there is none to call.
        r := Failure(TypeError);
      case FinishRun(time, portals) =>
        r := FinishRun(le, de, lobby, ws.steamid, time, portals);
      case Unrecognised =>
        r := Success;
    }

    /** `finishRun`: submits the run to the lobby's leaderboard, broadcasts it on the lobby's
        channel and forces the player to not ready, addressing the lobby by the name it has now
        (found by identity, as the disconnect handler finds it). */
    method FinishRun(le: ListEntry, de: DataEntry, ghost lobby: string, steamid: SteamId, time: int, portals: int)
      returns (r: Status)
      requires Valid() && lobby in list && list[lobby] == le && data[lobby] == de
      modifies this, de
      ensures Valid()
      ensures list == old(list) && data == old(data)
      ensures var step := ReadyStep(old(de.View()), Channel(lobby), false, steamid, true, Timeout);
                && r == step.status && de.View() == step.lobby
                && log == old(log) + [RunSubmitted(le.mode, steamid, time, portals),
                                      Send(Channel(lobby), LobbySubmit(time, portals, steamid))]
                                   + step.events
      ensures steamid in old(de.players) ==> r == Success && !de.players[steamid].ready
    {
      log := log + [RunSubmitted(le.mode, steamid, time, portals)];
      var found := FindName(le);
      assert found.Some? by { assert list[lobby] == le; }
      var lobbyName := found.value;
      assert lobbyName == lobby;
      log := log + [Send(Channel(lobbyName), LobbySubmit(time, portals, steamid))];
      r := Ready(lobbyName, false, steamid, true, Timeout);
    }

    /** `finishRun` as the source writes it: the broadcast goes to `"lobby_" + rawName`, the
        name as `create` received it, and the forced unready to `cleanName`, the trimmed name
        the lobby had when it was created; neither follows a later rename. */
    method FinishRunAsWritten(le: ListEntry, rawName: string, cleanName: string,
                              steamid: SteamId, time: int, portals: int)
      returns (r: Status)
      requires Valid()
      modifies this, DataAt(cleanName)
      ensures Valid()
      ensures list == old(list) && data == old(data)
      ensures !(cleanName in list && cleanName in data) ==>
                && r == Failure(ErrName)
                && log == old(log) + [RunSubmitted(le.mode, steamid, time, portals),
                                      Send(Channel(rawName), LobbySubmit(time, portals, steamid))]
      ensures cleanName in list && cleanName in data ==>
                var step := ReadyStep(old(data[cleanName].View()), Channel(cleanName), false, steamid, true, Timeout);
                && r == step.status && data[cleanName].View() == step.lobby
                && log == old(log) + [RunSubmitted(le.mode, steamid, time, portals),
                                      Send(Channel(rawName), LobbySubmit(time, portals, steamid))]
                                   + step.events
    {
      log := log + [RunSubmitted(le.mode, steamid, time, portals),
                    Send(Channel(rawName), LobbySubmit(time, portals, steamid))];
      r := Ready(cleanName, false, steamid, true, Timeout);
    }

    /** The `disconnect` handler of the lobby whose entries are `le` and `de` (currently filed
        under `lobby`), for socket `ws` closing: `SoftDisconnect` when `ws` is the sender's game
        socket, `Leave` for any other socket; a sender without a session makes it throw. */
    method Disconnect(le: ListEntry, de: DataEntry, ghost lobby: string, ws: Socket)
      returns (r: Status, sweep: Option<string>)
      requires Valid() && lobby in list && list[lobby] == le && data[lobby] == de
      modifies this, le, de
      ensures Valid()
      ensures list == old(list) && data == old(data)
      ensures ws.steamid !in old(de.players) ==>
                r == Failure(TypeError) && sweep == None && unchanged(this, le, de)
      ensures ws.steamid in old(de.players) && old(de.players[ws.steamid].gameSocket) == Some(ws) ==>
                && r == Success && sweep == None && unchanged(le)
                && de.View() == SoftDisconnected(old(de.View()), ws.steamid)
                && log == old(log) + [Send(Channel(lobby), LobbyReady(ws.steamid, false))]
      ensures ws.steamid in old(de.players) && old(de.players[ws.steamid].gameSocket) != Some(ws) ==>
                && r == Success
                && ws.steamid !in le.players && le.players == Without(old(le.players), ws.steamid)
                && de.View() == old(de.View()).(players := old(de.players) - {ws.steamid})
                && sweep == (if le.players == [] then Some(lobby) else None)
                && log == old(log) + [Send(Channel(lobby), LobbyLeave(ws.steamid))]
    {
      if ws.steamid !in de.players {
        return Failure(TypeError), None;
      }
      if de.players[ws.steamid].gameSocket == Some(ws) {
        r := SoftDisconnect(le, de, lobby, ws);
        sweep := None;
      } else {
        r, sweep := Leave(le, de, lobby, ws);
      }
    }

    /** A game socket closing: its session forgets the socket and the player is forced to not
        ready in the lobby found by identity, so the player stays listed, unready, with the
        quorum rule of an unready applied. */
    method SoftDisconnect(le: ListEntry, de: DataEntry, ghost lobby: string, ws: Socket)
      returns (r: Status)
      requires Valid() && lobby in list && list[lobby] == le && data[lobby] == de
      requires ws.steamid in de.players && de.players[ws.steamid].gameSocket == Some(ws)
      modifies this, de
      ensures Valid()
      ensures list == old(list) && data == old(data)
      ensures r == Success && de.View() == SoftDisconnected(old(de.View()), ws.steamid)
      ensures log == old(log) + [Send(Channel(lobby), LobbyReady(ws.steamid, false))]
    {
      var steamid := ws.steamid;
      ghost var before := de.View();
      de.players := de.players[steamid := de.players[steamid].(gameSocket := None)];
      assert de.View() == ClearGame(before, steamid);
      var found := FindName(le);
      assert found.Some? by { assert list[lobby] == le; }
      var lobbyName := found.value;
      assert lobbyName == lobby;
      ghost var events;
      r, events := de.Ready(Channel(lobbyName), false, steamid, true, Timeout);
      SoftDisconnectIsForcedUnready(before, Channel(lobbyName), steamid, Timeout);
      log := log + events;
      assert EntryOk(le, de) by { assert old(EntryOk(list[lobby], data[lobby])); }
      EditKeepsValid(lobby);
    }

    /** The game-socket path of `disconnect` as the source writes it: after the socket is
        forgotten, the forced unready goes to `cleanName`, the name the lobby had when it was
        created. While that is still the lobby's name this is `SoftDisconnect`; once the lobby
        has been renamed away, it fails with `ERR_NAME` and the player keeps its ready flag
        with no game socket. */
    method SoftDisconnectAsWritten(le: ListEntry, de: DataEntry, ghost lobby: string, cleanName: string, ws: Socket)
      returns (r: Status)
      requires Valid() && lobby in list && list[lobby] == le && data[lobby] == de
      requires ws.steamid in de.players && de.players[ws.steamid].gameSocket == Some(ws)
      modifies this, de, DataAt(cleanName)
      ensures list == old(list) && data == old(data)
      ensures cleanName == lobby ==>
                && Valid() && r == Success && de.View() == SoftDisconnected(old(de.View()), ws.steamid)
                && log == old(log) + [Send(Channel(lobby), LobbyReady(ws.steamid, false))]
      ensures !(cleanName in list && cleanName in data) ==>
                && r == Failure(ErrName) && log == old(log)
                && de.View() == old(de.View()).(players := old(de.players)[ws.steamid :=
                                                  old(de.players[ws.steamid]).(gameSocket := None)])
    {
      var steamid := ws.steamid;
      ghost var before := de.View();
      de.players := de.players[steamid := de.players[steamid].(gameSocket := None)];
      assert de.View() == ClearGame(before, steamid);
      if !(cleanName in list && cleanName in data) {
        return Failure(ErrName);
      }
      var d := data[cleanName];
      ghost var events;
      r, events := d.Ready(Channel(cleanName), false, steamid, true, Timeout);
      log := log + events;
      if cleanName == lobby {
        SoftDisconnectIsForcedUnready(before, Channel(lobby), steamid, Timeout);
        assert EntryOk(le, de) by { assert old(EntryOk(list[lobby], data[lobby])); }
        EditKeepsValid(lobby);
      }
    }

    /** A browser socket closing: the player is spliced out of the list and its session
        deleted, the leave is broadcast on the channel of the lobby found by identity, and if
        the list is now empty the deletion sweep is scheduled with that name. */
    method Leave(le: ListEntry, de: DataEntry, ghost lobby: string, ws: Socket)
      returns (r: Status, sweep: Option<string>)
      requires Valid() && lobby in list && list[lobby] == le && data[lobby] == de
      requires ws.steamid in de.players
      modifies this, le, de
      ensures Valid()
      ensures list == old(list) && data == old(data)
      ensures r == Success
      ensures ws.steamid !in le.players && le.players == Without(old(le.players), ws.steamid)
      ensures de.View() == old(de.View()).(players := old(de.players) - {ws.steamid})
      ensures sweep == (if le.players == [] then Some(lobby) else None)
      ensures log == old(log) + [Send(Channel(lobby), LobbyLeave(ws.steamid))]
    {
      var steamid := ws.steamid;
      assert steamid in Members(le.players) by { assert EntryOk(list[lobby], data[lobby]); }
      var index := IndexOf(le.players, steamid);
      if index != -1 {
        LeaveKeepsRoster(le.players, de.players, index);
        WithoutSplices(le.players, steamid, index);
        le.players := le.players[..index] + le.players[index + 1..];
      }
      de.players := de.players - {steamid};
      EditKeepsValid(lobby);
      var found := FindName(le);
      assert found.Some? by { assert list[lobby] == le; }
      var lobbyName := found.value;
      assert lobbyName == lobby;
      log := log + [Send(Channel(lobbyName), LobbyLeave(steamid))];
      sweep := if |le.players| == 0 then Some(lobbyName) else None;
      r := Success;
    }

    /** The deletion sweep scheduled by a disconnect that left `le` empty, firing 10 s later:
        if `le` is still empty, the lobby it belongs to now (found by identity) is deleted from
        both dictionaries together with its channel; a lobby that was joined again in the
        meantime, or is already gone, is left alone. */
    method SweepFire(le: ListEntry) returns (deleted: Option<string>)
      requires Valid()
      modifies this
      ensures Valid()
      ensures deleted.Some? <==> le.players == [] && le in old(list).Values
      ensures deleted.Some? ==>
                && deleted.value in old(list) && old(list)[deleted.value] == le
                && list == old(list) - {deleted.value} && data == old(data) - {deleted.value}
                && log == old(log) + [DeleteChannel(Channel(deleted.value))]
      ensures deleted.None? ==> list == old(list) && data == old(data) && log == old(log)
    {
      if |le.players| != 0 {
        return None;
      }
      deleted := FindName(le);
      if deleted.None? {
        return;
      }
      var lobbyName := deleted.value;
      RemoveInjective(list, lobbyName);
      RemoveInjective(data, lobbyName);
      list := list - {lobbyName};
      data := data - {lobbyName};
      log := log + [DeleteChannel(Channel(lobbyName))];
    }

    /** The sweep as the source writes it: it deletes the name `lobbyName` the disconnect
        found, and the channel of that name, whatever lobby is filed under it by now. */
    method SweepFireAsWritten(le: ListEntry, lobbyName: string)
      requires Valid()
      modifies this
      ensures Valid()
      ensures le.players == [] ==>
                && list == old(list) - {lobbyName} && data == old(data) - {lobbyName}
                && log == old(log) + [DeleteChannel(Channel(lobbyName))]
      ensures le.players != [] ==> list == old(list) && data == old(data) && log == old(log)
    {
      if |le.players| != 0 {
        return;
      }
      list := list - {lobbyName};
      data := data - {lobbyName};
      log := log + [DeleteChannel(Channel(lobbyName))];
    }
  }
}
