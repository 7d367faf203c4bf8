/** Runs of the lobby registry that show where the message and disconnect handlers, as the
    source writes them, address a lobby by a name it may no longer have. */
module Findings {
  import opened Common
  import opened Names
  import opened Lobbies

  /** `Trim` leaves a name without surrounding whitespace as it is. */
  lemma PlainNames()
    ensures Trim("a") == "a" && Trim("b") == "b"
  {
    TrimmedIsFixed("a");
    TrimmedIsFixed("b");
  }

  /** A registry holding one lobby "a" whose only player "P" has a game client on socket
      `Socket(1, "P")` and a map selected. */
  method AttachedLobby() returns (reg: Registry, le: ListEntry, de: DataEntry)
    ensures fresh(reg) && fresh(le) && fresh(de) && reg.Valid()
    ensures reg.list == map["a" := le] && reg.data == map["a" := de]
    ensures de.players == map["P" := Session(false, Some(Socket(1, "P")))]
    ensures de.state == Idle && de.context.selectedMap.Some?
  {
    reg, le, de := JoinedLobby();
    var attached := reg.Message(le, de, "a", Socket(1, "P"), IsGame);
    var selected := reg.SetMap("a", "1", "2", (id: MapId) => WorkshopMap(id, "m.bsp"));
  }

  /** A registry holding one new lobby "a" without a password. */
  method CreatedLobby() returns (reg: Registry, le: ListEntry, de: DataEntry)
    ensures fresh(reg) && fresh(le) && fresh(de) && reg.Valid()
    ensures reg.list == map["a" := le] && reg.data == map["a" := de]
    ensures le.players == [] && de.players == map[] && de.state == Idle && de.password == None
  {
    PlainNames();
    reg := new Registry();
    var created := reg.Create("a", "", "");
    assert created == Success;
    le, de := reg.list["a"], reg.data["a"];
  }

  /** The lobby of `CreatedLobby` after "P" joined it. */
  method JoinedLobby() returns (reg: Registry, le: ListEntry, de: DataEntry)
    ensures fresh(reg) && fresh(le) && fresh(de) && reg.Valid()
    ensures reg.list == map["a" := le] && reg.data == map["a" := de]
    ensures le.players == ["P"] && de.players == map["P" := EmptySession] && de.state == Idle
  {
    reg, le, de := CreatedLobby();
    var joined := reg.Join("a", "", "P", (s: SteamId) => true, (p: string, h: Hash) => true);
    assert joined == Success;
  }

  /** The lobby of `AttachedLobby` after "P" readied up, which started the game, and after
      it was renamed to "b". */
  method ReadiedThenRenamed() returns (reg: Registry, le: ListEntry, de: DataEntry)
    ensures fresh(reg) && fresh(le) && fresh(de) && reg.Valid()
    ensures reg.list == map["b" := le] && reg.data == map["b" := de]
    ensures de.players == map["P" := Session(true, Some(Socket(1, "P")))]
    ensures de.state == InGame
  {
    PlainNames();
    reg, le, de := AttachedLobby();
    var readied := reg.Ready("a", true, "P", false, Yes);
    assert de.players == map["P" := Session(true, Some(Socket(1, "P")))];
    assert AllReady(de.players);
    var renamed := reg.Rename("a", "b");
    assert reg.list == map["b" := le];
  }

  /** `finishRun` after a rename: the forced unready goes to the creation-time name, which no
      lobby has any more, so it fails with `ERR_NAME`; the player stays ready and the lobby
      stays in game, although the run is over. */
  method FinishRunAfterRename() returns (r: Status, stillReady: bool, state: LobbyState)
    ensures r == Failure(ErrName) && stillReady && state == InGame
  {
    var reg, le, de := ReadiedThenRenamed();
    r := reg.FinishRunAsWritten(le, "a", "a", "P", 1000, 2);
    stillReady := de.players["P"].ready;
    state := de.state;
  }

  /** `FinishRun`, which addresses the lobby by its current name, unreadies the player in the
      same situation. */
  method FinishRunAfterRenameCorrected() returns (r: Status, stillReady: bool)
    ensures r == Success && !stillReady
  {
    var reg, le, de := ReadiedThenRenamed();
    r := reg.FinishRun(le, de, "b", "P", 1000, 2);
    stillReady := de.players["P"].ready;
  }

  /** The game client disconnecting after a rename: its socket is forgotten but the forced
      unready fails with `ERR_NAME`, leaving a ready player with no game client, the state
      `Registry.Valid` rules out. */
  method SoftDisconnectAfterRename() returns (r: Status, session: Session)
    ensures r == Failure(ErrName) && session.ready && session.gameSocket == None
  {
    var reg, le, de := ReadiedThenRenamed();
    r := reg.SoftDisconnectAsWritten(le, de, "b", "a", Socket(1, "P"));
    session := de.players["P"];
  }

  /** `SoftDisconnect`, addressing the lobby by its current name, leaves the player unready
      and detached, and the lobby idle. */
  method SoftDisconnectAfterRenameCorrected() returns (r: Status, session: Session, state: LobbyState)
    ensures r == Success && session == EmptySession && state == Idle
  {
    var reg, le, de := ReadiedThenRenamed();
    r := reg.SoftDisconnect(le, de, "b", Socket(1, "P"));
    session := de.players["P"];
    state := de.state;
  }

  /** `finishRun` broadcasts on `"lobby_" + name` with the name as `create` received it, but
      `create` opened the channel of the trimmed name: for any name with surrounding
      whitespace the two channels differ. */
  lemma UntrimmedNameMissesChannel(rawName: string)
    requires !Trimmed(rawName)
    ensures Channel(rawName) != Channel(Trim(rawName))
  {
    var clean := Trim(rawName);
    assert Trimmed(clean);
    assert Channel(rawName)[6..] == rawName && Channel(clean)[6..] == clean;
  }

  /** The lobby of `JoinedLobby` after the browser of its only player "P" disconnected,
      which scheduled a sweep under "a". */
  method EmptiedLobby() returns (reg: Registry, le: ListEntry, sweep: Option<string>)
    ensures fresh(reg) && reg.Valid() && sweep == Some("a")
    ensures reg.list == map["a" := le] && le.players == []
  {
    var de;
    reg, le, de := JoinedLobby();
    assert Without(["P"], "P") == [] by { assert ["P"][1..] == []; }
    var left;
    left, sweep := reg.Leave(le, de, "a", Socket(2, "P"));
  }

  /** `EmptiedLobby` renamed to "b" before the sweep fires. */
  method EmptiedThenRenamed() returns (reg: Registry, le: ListEntry, sweep: Option<string>)
    ensures fresh(reg) && reg.Valid() && sweep == Some("a")
    ensures reg.list.Keys == {"b"} && reg.list["b"] == le && le.players == []
  {
    reg, le, sweep := EmptiedLobby();
    PlainNames();
    var renamed := reg.Rename("a", "b");
  }

  /** `EmptiedThenRenamed`, and a new lobby "a" that "Q" has joined since. */
  method SweepAfterRename() returns (reg: Registry, le: ListEntry, sweep: Option<string>)
    ensures fresh(reg) && reg.Valid() && sweep == Some("a")
    ensures "b" in reg.list && reg.list["b"] == le && le.players == []
    ensures "a" in reg.list && reg.list["a"].players == ["Q"]
  {
    reg, le, sweep := EmptiedThenRenamed();
    PlainNames();
    var created := reg.Create("a", "", "");
    assert created == Success;
    var joined := reg.Join("a", "", "Q", (s: SteamId) => true, (p: string, h: Hash) => true);
    assert joined == Success;
  }

  /** The sweep firing after that: as written it deletes the new lobby "a", with "Q" in it,
      and its channel, and leaves the empty lobby "b" behind for good. */
  method SweepDeletesWrongLobby() returns (newLobbyKept: bool, emptyLobbyKept: bool)
    ensures !newLobbyKept && emptyLobbyKept
  {
    var reg, le, sweep := SweepAfterRename();
    reg.SweepFireAsWritten(le, sweep.value);
    newLobbyKept := "a" in reg.list;
    emptyLobbyKept := "b" in reg.list;
  }

  /** `SweepFire`, which deletes the lobby the empty entry belongs to now, deletes "b" and
      keeps "a". */
  method SweepDeletesWrongLobbyCorrected() returns (newLobbyKept: bool, emptyLobbyKept: bool)
    ensures newLobbyKept && !emptyLobbyKept
  {
    var reg, le, sweep := SweepAfterRename();
    assert reg.list["b"] == le;
    assert le in reg.list.Values;
    var deleted := reg.SweepFire(le);
    newLobbyKept := "a" in reg.list;
    emptyLobbyKept := "b" in reg.list;
  }
}
