/**
 * The `useSocket` hook of src/app.tsx and the page's intent emitters: the
 * connection status, the latest room snapshot, the messages handed to the
 * socket's `emit`, and the key-value store that remembers the player name.
 *
 * `Handle` and `Request` give, as pure functions on a `Session`, what each
 * transport event and each user intent does once the socket exists; the
 * class `ConnectionManager` holds the same state in fields and is proved
 * against them.
 */
module Connection {
  import opened Wrappers
  import opened Room

  /** The `Error` the transport passes to `connect_error`. */
  datatype ConnectionError = ConnectionError(message: string)

  /** The `ConnectionStatus` record; every handler but `state` replaces it whole. */
  datatype ConnectionStatus = ConnectionStatus(connecting: bool, connected: bool, lastConnectionError: Option<ConnectionError>)

  /** A message handed to `emit`, named by the wire event it is sent as. */
  datatype Message =
    | Join(playerName: string)
    | RenameSelf(playerName: string)
    | Vote(vote: real)
    | ShowVotes
    | ClearVotes

  /** The signals the transport delivers to the handlers. */
  datatype TransportEvent =
    | Connect
    | ConnectError(error: ConnectionError)
    | Reconnecting
    | Disconnect
    | StatePush(snapshot: Snapshot)

  /** What the user does on the page: type a name, press a vote, reveal or clear. */
  datatype Intent =
    | ChangeName(newName: string)
    | PickVote(value: real)
    | RevealVotes
    | ResetVotes

  /** The state the hook and the page hold, apart from the socket object itself. */
  datatype Session = Session(
    status: ConnectionStatus,
    state: Option<Snapshot>,
    emitted: seq<Message>,
    storage: map<string, string>)

  /** The key-value store key under which the player name is kept. */
  const PlayerNameKey: string := "playerName"

  /** The name used when none, or an empty one, is stored. */
  const DefaultPlayerName: string := "Unnamed"

  /** `localStorage.getItem('playerName')`: absent keys read as null. */
  function StoredName(storage: map<string, string>): (r: Option<string>)
    ensures r.None? <==> PlayerNameKey !in storage
    ensures r.Some? ==> (PlayerNameKey, r.value) in storage.Items
  {
    if PlayerNameKey in storage then Some(storage[PlayerNameKey]) else None
  }

  /** `localStorage.getItem('playerName') || 'Unnamed'`: null and "" are falsy. */
  function JoinName(storage: map<string, string>): (name: string)
    ensures name != ""
    ensures StoredName(storage).Some? && StoredName(storage).value != "" ==> name == StoredName(storage).value
    ensures StoredName(storage).None? || StoredName(storage).value == "" ==> name == DefaultPlayerName
  {
    match StoredName(storage)
    case Some(n) => if n != "" then n else DefaultPlayerName
    case None => DefaultPlayerName
  }

  /** The status the hook starts in, and returns to on `reconnecting`. */
  const ConnectingStatus := ConnectionStatus(true, false, None)

  /** The status after `connect`. */
  const ConnectedStatus := ConnectionStatus(false, true, None)

  /** The status after `disconnect`: any earlier error is dropped. */
  const DisconnectedStatus := ConnectionStatus(false, false, None)

  /**
   * The shape every status the hook writes has: never connecting and
   * connected at once, and an error only while neither.
   */
  predicate WellFormed(status: ConnectionStatus) {
    !(status.connecting && status.connected) &&
    (status.lastConnectionError.Some? ==> !status.connecting && !status.connected)
  }

  /** The state before any event: connecting, no snapshot, nothing emitted. */
  function Start(storage: map<string, string>): (r: Session)
    ensures WellFormed(r.status) && r.status.connecting && r.status.lastConnectionError.None?
    ensures r.state.None? && r.emitted == [] && r.storage == storage
  {
    Session(ConnectingStatus, None, [], storage)
  }

  /** What the handler registered for `e` does (app.tsx lines 108-131). */
  function Handle(s: Session, e: TransportEvent): (r: Session)
    ensures r.storage == s.storage
    ensures e.StatePush? ==> r.status == s.status && r.state == Some(e.snapshot)
    ensures !e.StatePush? ==> WellFormed(r.status) && (r.state.Some? ==> r.state == s.state)
    ensures |r.emitted| == |s.emitted| + (if e.Connect? then 1 else 0)
    ensures r.emitted[..|s.emitted|] == s.emitted
  {
    match e
    case Connect => s.(status := ConnectedStatus, emitted := s.emitted + [Join(JoinName(s.storage))])
    case ConnectError(error) => s.(status := ConnectionStatus(false, false, Some(error)))
    case Reconnecting => s.(status := ConnectingStatus)
    case Disconnect => s.(status := DisconnectedStatus, state := None)
    case StatePush(snapshot) => s.(state := Some(snapshot))
  }

  /** What the page does for intent `i` while a socket exists (lines 212-215, 223, 232, 246). */
  function Request(s: Session, i: Intent): (r: Session)
    ensures r.status == s.status && r.state == s.state
    ensures |r.emitted| == |s.emitted| + 1 && r.emitted[..|s.emitted|] == s.emitted
    ensures i.ChangeName? ==> StoredName(r.storage) == Some(i.newName)
    ensures !i.ChangeName? ==> r.storage == s.storage
  {
    match i
    case ChangeName(n) => s.(storage := s.storage[PlayerNameKey := n], emitted := s.emitted + [RenameSelf(n)])
    case PickVote(v) => s.(emitted := s.emitted + [Vote(v)])
    case RevealVotes => s.(emitted := s.emitted + [ShowVotes])
    case ResetVotes => s.(emitted := s.emitted + [ClearVotes])
  }

  /** The transport events `events`, handled in order. */
  function Run(s: Session, events: seq<TransportEvent>): (r: Session)
    ensures |s.emitted| <= |r.emitted| <= |s.emitted| + |events|
    ensures r.emitted[..|s.emitted|] == s.emitted
    decreases |events|
  {
    if events == [] then s else Run(Handle(s, events[0]), events[1..])
  }

  // ---------------------------------------------------------------------
  // One event at a time

  /**
   * Every handler other than `state` writes a fixed, well-formed status that
   * does not depend on the status before it, and leaves the store alone.
   */
  lemma HandleOverwritesStatus(s: Session, t: Session, e: TransportEvent)
    requires !e.StatePush?
    ensures Handle(s, e).status == Handle(t, e).status
    ensures WellFormed(Handle(s, e).status)
    ensures Handle(s, e).storage == s.storage
  {
  }

  /** The rename intent stores the name, so the next `join` carries it, or "Unnamed" for "". */
  lemma RenameThenReconnect(s: Session, name: string)
    ensures var t := Handle(Request(s, ChangeName(name)), Connect);
            t.emitted == s.emitted + [RenameSelf(name), Join(if name == "" then DefaultPlayerName else name)]
  {
  }

  /**
   * No intent updates the page optimistically: status and snapshot stay as
   * they were, and the name shown changes only with the next `state` push.
   */
  lemma IntentsAreNotOptimistic(s: Session, i: Intent, snapshot: Snapshot)
    ensures Request(s, i).status == s.status && Request(s, i).state == s.state
    ensures |Request(s, i).emitted| == |s.emitted| + 1 && Request(s, i).emitted[..|s.emitted|] == s.emitted
    ensures Handle(Request(s, i), StatePush(snapshot)).state == Some(snapshot)
  {
  }

  // ---------------------------------------------------------------------
  // Sequences of events

  /** Handling one more event after a run is the run extended by that event. */
  lemma {:induction false} RunSnoc(s: Session, events: seq<TransportEvent>, e: TransportEvent)
    ensures Run(s, events + [e]) == Handle(Run(s, events), e)
    decreases |events|
  {
    if events == [] {
      assert [] + [e] == [e];
    } else {
      assert (events + [e])[1..] == events[1..] + [e];
      RunSnoc(Handle(s, events[0]), events[1..], e);
    }
  }

  /** Transport events never change the stored name. */
  lemma {:induction false} RunKeepsStorage(s: Session, events: seq<TransportEvent>)
    ensures Run(s, events).storage == s.storage
    decreases |events|
  {
    if events != [] {
      RunKeepsStorage(Handle(s, events[0]), events[1..]);
    }
  }

  /** After any sequence of events from a well-formed status, the status is well-formed. */
  lemma {:induction false} RunKeepsStatusWellFormed(s: Session, events: seq<TransportEvent>)
    requires WellFormed(s.status)
    ensures WellFormed(Run(s, events).status)
    decreases |events|
  {
    if events != [] {
      RunKeepsStatusWellFormed(Handle(s, events[0]), events[1..]);
    }
  }

  /** From the start, the hook is never connecting and connected at once. */
  lemma NeverConnectingAndConnected(storage: map<string, string>, events: seq<TransportEvent>)
    ensures !(Run(Start(storage), events).status.connecting && Run(Start(storage), events).status.connected)
  {
    RunKeepsStatusWellFormed(Start(storage), events);
  }

  /** The number of `connect` events in `events`. */
  function ConnectCount(events: seq<TransportEvent>): nat {
    if events == [] then 0 else (if events[0].Connect? then 1 else 0) + ConnectCount(events[1..])
  }

  /**
   * Transport events only ever append, and they append exactly one `join`
   * per `connect`, each carrying the stored name or "Unnamed".
   */
  lemma {:induction false} RunEmitsOneJoinPerConnect(s: Session, events: seq<TransportEvent>)
    ensures var t := Run(s, events);
            |t.emitted| == |s.emitted| + ConnectCount(events) &&
            t.emitted[..|s.emitted|] == s.emitted &&
            forall k :: |s.emitted| <= k < |t.emitted| ==> t.emitted[k] == Join(JoinName(s.storage))
    decreases |events|
  {
    if events != [] {
      var h := Handle(s, events[0]);
      RunEmitsOneJoinPerConnect(h, events[1..]);
      var t := Run(h, events[1..]);
      assert t.emitted[..|h.emitted|] == h.emitted;
      assert t.emitted[..|s.emitted|] == h.emitted[..|s.emitted|];
    }
  }

  /**
   * The snapshot a run ends with, read from the last event backwards: the
   * latest push, unless a `disconnect` came after it; otherwise the one before.
   */
  function LatestSnapshot(prior: Option<Snapshot>, events: seq<TransportEvent>): Option<Snapshot> {
    if events == [] then prior
    else match events[|events| - 1]
      case StatePush(snapshot) => Some(snapshot)
      case Disconnect => None
      case _ => LatestSnapshot(prior, events[..|events| - 1])
  }

  /** The status a run ends with: the one written by the last event that is not a push. */
  function LatestStatus(prior: ConnectionStatus, events: seq<TransportEvent>): ConnectionStatus {
    if events == [] then prior
    else match events[|events| - 1]
      case Connect => ConnectedStatus
      case ConnectError(error) => ConnectionStatus(false, false, Some(error))
      case Reconnecting => ConnectingStatus
      case Disconnect => DisconnectedStatus
      case StatePush(_) => LatestStatus(prior, events[..|events| - 1])
  }

  /** The hook's snapshot and status after a run are the latest ones the events wrote. */
  lemma {:induction false} RunIsLatest(s: Session, events: seq<TransportEvent>)
    ensures Run(s, events).state == LatestSnapshot(s.state, events)
    ensures Run(s, events).status == LatestStatus(s.status, events)
    decreases |events|
  {
    if events != [] {
      var init, last := events[..|events| - 1], events[|events| - 1];
      assert events == init + [last];
      RunSnoc(s, init, last);
      RunIsLatest(s, init);
    }
  }

  /** A `disconnect` clears the snapshot, whatever came before it. */
  lemma DisconnectClearsSnapshot(s: Session, events: seq<TransportEvent>)
    ensures Run(s, events + [Disconnect]).state == None
    ensures Run(s, events + [Disconnect]).status == DisconnectedStatus
  {
    RunSnoc(s, events, Disconnect);
  }

  /**
   * After any history, a `state` push leaves exactly the pushed snapshot
   * (no merge with the one held before) and changes nothing else.
   */
  lemma StatePushReplaces(s: Session, events: seq<TransportEvent>, snapshot: Snapshot)
    ensures Run(s, events + [StatePush(snapshot)]) == Run(s, events).(state := Some(snapshot))
  {
    RunSnoc(s, events, StatePush(snapshot));
  }

  /**
   * After any history, a `connect_error` leaves the hook neither connecting
   * nor connected, with that error, and keeps whatever snapshot it held.
   */
  lemma ConnectErrorKeepsSnapshot(s: Session, events: seq<TransportEvent>, error: ConnectionError)
    ensures Run(s, events + [ConnectError(error)]).state == Run(s, events).state
    ensures Run(s, events + [ConnectError(error)]).status == ConnectionStatus(false, false, Some(error))
  {
    RunSnoc(s, events, ConnectError(error));
  }

  // ---------------------------------------------------------------------
  // The hook's state, updated in place

  class ConnectionManager {
    /** `connectionStatus` */
    var connectionStatus: ConnectionStatus
    /** `state`: the latest snapshot, or none */
    var state: Option<Snapshot>
    /** Everything passed to `socketRef.current.emit`, oldest first. */
    var emitted: seq<Message>
    /** The browser's key-value store. */
    var storage: map<string, string>
    /** Whether `socketRef.current` holds a socket yet. */
    var hasSocket: bool

    /** The fields as a `Session`. */
    function View(): Session
      reads this
    {
      Session(connectionStatus, state, emitted, storage)
    }

    ghost predicate Valid()
      reads this
    {
      WellFormed(connectionStatus)
    }

    /** The hook's first render: connecting, no snapshot, no socket yet. */
    constructor (storage: map<string, string>)
      ensures Valid() && !hasSocket
      ensures connectionStatus == ConnectionStatus(true, false, None)
      ensures state == None && emitted == [] && this.storage == storage
      ensures View() == Start(storage)
    {
      connectionStatus := ConnectingStatus;
      state := None;
      emitted := [];
      this.storage := storage;
      hasSocket := false;
    }

    /** The effect creates the socket (line 107); the handlers then listen on it. */
    method Open()
      requires Valid()
      modifies this
      ensures Valid() && hasSocket
      ensures View() == old(View())
    {
      hasSocket := true;
    }

    /** `connect`: connected with no error, and one `join` with the stored name. */
    method OnConnect()
      requires Valid() && hasSocket
      modifies this
      ensures Valid() && hasSocket
      ensures connectionStatus == ConnectionStatus(false, true, None)
      ensures emitted == old(emitted) + [Join(JoinName(storage))]
      ensures state == old(state) && storage == old(storage)
      ensures View() == Handle(old(View()), Connect)
    {
      connectionStatus := ConnectedStatus;
      emitted := emitted + [Join(JoinName(storage))];
    }

    /** `connect_error`: neither connecting nor connected, with the error kept. */
    method OnConnectError(error: ConnectionError)
      requires Valid() && hasSocket
      modifies this
      ensures Valid() && hasSocket
      ensures connectionStatus == ConnectionStatus(false, false, Some(error))
      ensures state == old(state) && emitted == old(emitted) && storage == old(storage)
      ensures View() == Handle(old(View()), ConnectError(error))
    {
      connectionStatus := ConnectionStatus(false, false, Some(error));
    }

    /** `reconnecting`: connecting again; only the status changes. */
    method OnReconnecting()
      requires Valid() && hasSocket
      modifies this
      ensures Valid() && hasSocket
      ensures connectionStatus == ConnectionStatus(true, false, None)
      ensures state == old(state) && emitted == old(emitted) && storage == old(storage)
      ensures View() == Handle(old(View()), Reconnecting)
    {
      connectionStatus := ConnectingStatus;
    }

    /** `disconnect`: neither connecting nor connected, no error, and no snapshot. */
    method OnDisconnect()
      requires Valid() && hasSocket
      modifies this
      ensures Valid() && hasSocket
      ensures connectionStatus == ConnectionStatus(false, false, None)
      ensures state == None
      ensures emitted == old(emitted) && storage == old(storage)
      ensures View() == Handle(old(View()), Disconnect)
    {
      connectionStatus := DisconnectedStatus;
      state := None;
    }

    /** `state`: the pushed snapshot replaces the held one; the status is kept. */
    method OnState(snapshot: Snapshot)
      requires Valid() && hasSocket
      modifies this
      ensures Valid() && hasSocket
      ensures state == Some(snapshot)
      ensures connectionStatus == old(connectionStatus) && emitted == old(emitted) && storage == old(storage)
      ensures View() == Handle(old(View()), StatePush(snapshot))
    {
      state := Some(snapshot);
    }

    /** The name field's `onChange`: store the name, then emit `renameSelf` if a socket exists. */
    method Rename(playerName: string)
      requires Valid()
      modifies this
      ensures Valid() && hasSocket == old(hasSocket)
      ensures storage == old(storage)[PlayerNameKey := playerName]
      ensures emitted == old(emitted) + (if hasSocket then [RenameSelf(playerName)] else [])
      ensures connectionStatus == old(connectionStatus) && state == old(state)
      ensures hasSocket ==> View() == Request(old(View()), ChangeName(playerName))
    {
      storage := storage[PlayerNameKey := playerName];
      if hasSocket {
        emitted := emitted + [RenameSelf(playerName)];
      }
    }

    /** A vote button: emit `vote` if a socket exists. */
    method CastVote(vote: real)
      requires Valid()
      modifies this
      ensures Valid() && hasSocket == old(hasSocket)
      ensures emitted == old(emitted) + (if hasSocket then [Vote(vote)] else [])
      ensures connectionStatus == old(connectionStatus) && state == old(state) && storage == old(storage)
      ensures hasSocket ==> View() == Request(old(View()), PickVote(vote))
    {
      if hasSocket {
        emitted := emitted + [Vote(vote)];
      }
    }

    /** The "Show Votes" button: emit `showVotes` if a socket exists. */
    method ShowAllVotes()
      requires Valid()
      modifies this
      ensures Valid() && hasSocket == old(hasSocket)
      ensures emitted == old(emitted) + (if hasSocket then [ShowVotes] else [])
      ensures connectionStatus == old(connectionStatus) && state == old(state) && storage == old(storage)
      ensures hasSocket ==> View() == Request(old(View()), RevealVotes)
    {
      if hasSocket {
        emitted := emitted + [ShowVotes];
      }
    }

    /** The "Clear Votes" button: emit `clearVotes` if a socket exists. */
    method ClearAllVotes()
      requires Valid()
      modifies this
      ensures Valid() && hasSocket == old(hasSocket)
      ensures emitted == old(emitted) + (if hasSocket then [ClearVotes] else [])
      ensures connectionStatus == old(connectionStatus) && state == old(state) && storage == old(storage)
      ensures hasSocket ==> View() == Request(old(View()), ResetVotes)
    {
      if hasSocket {
        emitted := emitted + [ClearVotes];
      }
    }
  }

  /**
   * A vote made after the socket has disconnected is still handed to `emit`:
   * the `?.` skips only while no socket object exists.
   */
  method VoteAfterDisconnect(storage: map<string, string>, v: real) returns (status: ConnectionStatus, log: seq<Message>)
    ensures !status.connecting && !status.connected
    ensures log == [Vote(v)]
  {
    var m := new ConnectionManager(storage);
    m.Open();
    m.OnDisconnect();
    m.CastVote(v);
    status, log := m.connectionStatus, m.emitted;
  }
}
