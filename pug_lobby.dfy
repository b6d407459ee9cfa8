/** The pick-up-game lobbies of the websocket server
    (internal/app/web_ws_pug.go): a lobby's leader, members and message
    log, the join / leave / promote / message operations, and the
    join and leave requests that go through the connection manager.
    Locks are not part of the state; their discipline is modelled apart,
    at the end of the module. */
module PugLobbies {
  import opened Common

  /** The user behind a connection. */
  datatype User = User(steam_id: int, name: string)

  /** The options a lobby is created with, kept opaque. */
  datatype LobbyOptions = LobbyOptions(fields: seq<(string, string)>)

  /** One chat line of a lobby: who wrote it, what and when. */
  datatype UserMessage = UserMessage(user: User, message: string, created_at: int)

  /** The errors the handlers return. `ErrLobbyNotFound` stands for
      whatever the manager's lookup reports for an unknown id, and
      `ErrUnmarshal` for the decoder's error. */
  datatype LobbyError =
    | ErrDuplicateClient | ErrUnknownClient | ErrInvalidLobbyId
    | ErrLobbyNotFound | ErrUnmarshal | ErrInvalidRequest

  /** `nil` or an error. */
  datatype Outcome = Ok | Fail(err: LobbyError)

  /** One websocket connection and the lobbies it is in. */
  class WsClient {
    const user: User
    var lobbies: seq<PugLobby>

    constructor (user: User)
      ensures this.user == user && lobbies == []
    {
      this.user, lobbies := user, [];
    }

    /** `removeLobby`: the lobby no longer appears in the list; the other
        lobbies keep their order. */
    method RemoveLobby(lobby: PugLobby)
      modifies this`lobbies
      ensures lobbies == Without(old(lobbies), lobby)
      ensures lobby !in lobbies
    {
      lobbies := Without(lobbies, lobby);
    }
  }

  class PugLobby {
    var Leader: WsClient
    const LobbyId: string
    var Clients: seq<WsClient>
    var Messages: seq<UserMessage>
    const Options: LobbyOptions

    /** No client is in the lobby twice. */
    predicate Valid()
      reads this
    {
      NoDuplicates(Clients)
    }

    /** `newPugLobby`: the creator leads and is the only member, the log
        is empty, and the new lobby is appended to the creator's lobbies. */
    constructor (creator: WsClient, id: string, opts: LobbyOptions)
      modifies creator
      ensures Valid()
      ensures Leader == creator && LobbyId == id && Clients == [creator]
      ensures Messages == [] && Options == opts
      ensures creator.lobbies == old(creator.lobbies) + [this]
    {
      Leader, LobbyId, Clients, Messages, Options := creator, id, [creator], [], opts;
      new;
      creator.lobbies := creator.lobbies + [this];
    }

    /** `clientCount`: the number of members, which is also the number of
        distinct clients in the lobby. */
    method ClientCount() returns (n: int)
      requires Valid()
      ensures n == |Clients|
      ensures n == |set c | c in Clients|
    {
      DistinctCardinality(Clients);
      n := |Clients|;
    }

    /** `join`: a member is refused and nothing changes; anyone else is
        appended after the current members, the lobby is appended to the
        client's lobbies, and a client that is now the only member
        becomes the leader. */
    method Join(client: WsClient) returns (r: Outcome)
      requires Valid()
      modifies this, client
      ensures Valid()
      ensures Messages == old(Messages)
      ensures client in old(Clients) ==>
                r == Fail(ErrDuplicateClient) && Clients == old(Clients) &&
                Leader == old(Leader) && client.lobbies == old(client.lobbies)
      ensures client !in old(Clients) ==>
                r == Ok && Clients == old(Clients) + [client] &&
                client.lobbies == old(client.lobbies) + [this]
      ensures client !in old(Clients) && |Clients| == 1 ==> Leader == client
      ensures |Clients| != 1 ==> Leader == old(Leader)
    {
      if client in Clients {
        return Fail(ErrDuplicateClient);
      }
      Clients := Clients + [client];
      client.lobbies := client.lobbies + [this];
      if |Clients| == 1 {
        r := Promote(client);
        return;
      }
      r := Ok;
    }

    /** `promote`: the client becomes the leader. */
    method Promote(client: WsClient) returns (r: Outcome)
      modifies this`Leader
      ensures Leader == client && r == Ok
    {
      Leader := client;
      r := Ok;
    }

    /** `leave`: a non-member is refused and nothing changes; a member is
        removed from the lobby and the lobby from its lobbies, while the
        others keep their order and the leader is left as it was. */
    method Leave(client: WsClient) returns (r: Outcome)
      requires Valid()
      modifies this`Clients, client`lobbies
      ensures Valid()
      ensures Leader == old(Leader) && Messages == old(Messages)
      ensures client !in old(Clients) ==>
                r == Fail(ErrUnknownClient) && Clients == old(Clients) &&
                client.lobbies == old(client.lobbies)
      ensures client in old(Clients) ==>
                r == Ok && Clients == Without(old(Clients), client) &&
                |Clients| == |old(Clients)| - 1 && client !in Clients &&
                client.lobbies == Without(old(client.lobbies), this)
    {
      if client !in Clients {
        return Fail(ErrUnknownClient);
      }
      var i :| 0 <= i < |Clients| && Clients[i] == client;
      WithoutMember(Clients, i);
      WithoutNoDuplicates(Clients, client);
      Clients := Without(Clients, client);
      client.RemoveLobby(this);
      r := Ok;
    }

    /** `sendUserMessage`: exactly one message, from the sender's user with
        the given text and time, is appended to the log. */
    method SendUserMessage(client: WsClient, message: string, now: int)
      modifies this`Messages
      ensures Messages == old(Messages) + [UserMessage(client.user, message, now)]
    {
      Messages := Messages + [UserMessage(client.user, message, now)];
    }
  }

  /** The lobbies by id, as far as these handlers use them. */
  class ConnectionManager {
    var lobbies: map<string, PugLobby>

    constructor ()
      ensures lobbies == map[]
    {
      lobbies := map[];
    }

    /** `findLobby`: the lobby registered under the id, if any. */
    method FindLobby(id: string) returns (lobby: Option<PugLobby>)
      ensures lobby.Some? <==> id in lobbies
      ensures lobby.Some? ==> lobby.value == lobbies[id]
    {
      lobby := if id in lobbies then Some(lobbies[id]) else None;
    }

    /** `removeLobby`: the id is no longer registered; other ids keep their
        lobbies. */
    method RemoveLobby(id: string)
      modifies this`lobbies
      ensures lobbies == old(lobbies) - {id}
    {
      lobbies := lobbies - {id};
    }
  }

  /** The objects an optional lobby stands for. */
  function LobbyObjects(lobby: Option<PugLobby>): set<PugLobby> {
    if lobby.Some? then {lobby.value} else {}
  }

  /** `leavePugLobby`. `request` is the decoded payload, absent when it
      does not decode; `current` is the client's current lobby. An
      undecodable payload, a missing lobby or a refused leave are
      returned as errors; after a leave that empties the lobby, its id
      is dropped from the manager. */
  method LeavePugLobby(cm: ConnectionManager, client: WsClient, request: Option<LobbyOptions>,
                       current: Option<PugLobby>) returns (r: Outcome)
    requires current.Some? ==> current.value.Valid()
    modifies cm, client, LobbyObjects(current)
    ensures request.None? ==>
              r == Fail(ErrUnmarshal) && cm.lobbies == old(cm.lobbies) && client.lobbies == old(client.lobbies)
    ensures request.Some? && current.None? ==>
              r == Fail(ErrInvalidLobbyId) && cm.lobbies == old(cm.lobbies) && client.lobbies == old(client.lobbies)
    ensures r == Ok <==> request.Some? && current.Some? && client in old(current.value.Clients)
    ensures request.Some? && current.Some? && client !in old(current.value.Clients) ==>
              r == Fail(ErrUnknownClient) && cm.lobbies == old(cm.lobbies)
    ensures current.Some? ==> current.value.Valid()
    ensures r == Ok ==>
              current.value.Clients == Without(old(current.value.Clients), client) &&
              client.lobbies == Without(old(client.lobbies), current.value)
    ensures r == Ok && current.value.Clients == [] ==>
              cm.lobbies == old(cm.lobbies) - {current.value.LobbyId}
    ensures r == Ok && current.value.Clients != [] ==> cm.lobbies == old(cm.lobbies)
    ensures current.Some? ==>
              current.value.Leader == old(current.value.Leader) &&
              current.value.Messages == old(current.value.Messages)
    ensures current.Some? && r != Ok ==>
              current.value.Clients == old(current.value.Clients) && client.lobbies == old(client.lobbies)
  {
    if request.None? {
      return Fail(ErrUnmarshal);
    }
    if current.None? {
      return Fail(ErrInvalidLobbyId);
    }
    var lobby := current.value;
    r := lobby.Leave(client);
    if r.Fail? {
      return;
    }
    var n := lobby.ClientCount();
    if n == 0 {
      cm.RemoveLobby(lobby.LobbyId);
    }
  }

  /** `joinPugLobby`. `lobbyId` is the decoded request's lobby id, absent
      when the payload does not decode. The join happens iff the payload
      decodes, the id is registered and the client is not yet a member. */
  method JoinPugLobby(cm: ConnectionManager, client: WsClient, lobbyId: Option<string>)
      returns (r: Outcome)
    requires forall id :: id in cm.lobbies ==> cm.lobbies[id].Valid()
    modifies client, cm.lobbies.Values
    ensures cm.lobbies == old(cm.lobbies)
    ensures lobbyId.None? ==> r == Fail(ErrUnmarshal) && client.lobbies == old(client.lobbies)
    ensures lobbyId.Some? && lobbyId.value !in cm.lobbies ==>
              r == Fail(ErrLobbyNotFound) && client.lobbies == old(client.lobbies)
    ensures r == Ok <==>
              lobbyId.Some? && lobbyId.value in cm.lobbies &&
              client !in old(cm.lobbies[lobbyId.value].Clients)
    ensures r == Ok ==>
              cm.lobbies[lobbyId.value].Clients == old(cm.lobbies[lobbyId.value].Clients) + [client] &&
              client.lobbies == old(client.lobbies) + [cm.lobbies[lobbyId.value]]
    ensures lobbyId.Some? && lobbyId.value in cm.lobbies ==> cm.lobbies[lobbyId.value].Valid()
    ensures lobbyId.Some? && lobbyId.value in cm.lobbies && client in old(cm.lobbies[lobbyId.value].Clients) ==>
              r == Fail(ErrDuplicateClient) &&
              cm.lobbies[lobbyId.value].Clients == old(cm.lobbies[lobbyId.value].Clients) &&
              cm.lobbies[lobbyId.value].Leader == old(cm.lobbies[lobbyId.value].Leader) &&
              client.lobbies == old(client.lobbies)
    ensures r == Ok && |cm.lobbies[lobbyId.value].Clients| == 1 ==> cm.lobbies[lobbyId.value].Leader == client
    ensures r == Ok && |cm.lobbies[lobbyId.value].Clients| != 1 ==>
              cm.lobbies[lobbyId.value].Leader == old(cm.lobbies[lobbyId.value].Leader)
    ensures forall l :: l in old(cm.lobbies.Values) ==> l.Messages == old(l.Messages)
    ensures forall l :: l in old(cm.lobbies.Values) &&
                        (lobbyId.None? || lobbyId.value !in cm.lobbies || l != cm.lobbies[lobbyId.value]) ==>
              l.Clients == old(l.Clients) && l.Leader == old(l.Leader)
  {
    if lobbyId.None? {
      return Fail(ErrUnmarshal);
    }
    var found := cm.FindLobby(lobbyId.value);
    if found.None? {
      return Fail(ErrLobbyNotFound);
    }
    var lobby := found.value;
    r := lobby.Join(client);
  }

  /** `sendPugUserMessage`. `message` is the decoded message text, absent
      when the payload does not decode; `current` is the client's current
      lobby. Only with both does the lobby's log grow, by one message. */
  method SendPugUserMessage(client: WsClient, message: Option<string>, current: Option<PugLobby>, now: int)
      returns (r: Outcome)
    modifies LobbyObjects(current)
    ensures message.None? ==> r == Fail(ErrInvalidRequest)
    ensures message.Some? && current.None? ==> r == Fail(ErrInvalidLobbyId)
    ensures r == Ok <==> message.Some? && current.Some?
    ensures current.Some? && r != Ok ==> current.value.Messages == old(current.value.Messages)
    ensures current.Some? ==>
              current.value.Clients == old(current.value.Clients) &&
              current.value.Leader == old(current.value.Leader)
    ensures current.Some? && old(current.value.Valid()) ==> current.value.Valid()
    ensures r == Ok ==>
              current.value.Messages ==
              old(current.value.Messages) + [UserMessage(client.user, message.value, now)]
  {
    if message.None? {
      return Fail(ErrInvalidRequest);
    }
    if current.None? {
      return Fail(ErrInvalidLobbyId);
    }
    current.value.SendUserMessage(client, message.value, now);
    r := Ok;
  }

  // ---------------------------------------------------------------------
  // The lobby's read-write lock, as one goroutine sees it

  /** The calls made on a lobby's `RWMutex`. */
  datatype LockOp = Lock | Unlock | RLock | RUnlock

  /** Whether a writer holds the lock, and how many readers do. */
  datatype LockState = LockState(writer: bool, readers: nat)

  const Unlocked := LockState(false, 0)

  /** One call: it proceeds to a new state, waits for the lock to be
      released, or is a run-time fault (releasing a lock not held). */
  datatype StepResult = Proceeds(next: LockState) | Waits | Faults

  function Step(s: LockState, op: LockOp): (r: StepResult)
    ensures op == Lock ==> (r.Proceeds? <==> !s.writer && s.readers == 0)
    ensures op == RLock ==> (r.Proceeds? <==> !s.writer)
    ensures r.Proceeds? && op == Lock ==> r.next == LockState(true, 0)
    ensures r.Proceeds? && op == Unlock ==> r.next == Unlocked
  {
    match op
    case Lock => if !s.writer && s.readers == 0 then Proceeds(LockState(true, 0)) else Waits
    case Unlock => if s.writer then Proceeds(Unlocked) else Faults
    case RLock => if !s.writer then Proceeds(s.(readers := s.readers + 1)) else Waits
    case RUnlock => if s.readers > 0 then Proceeds(s.(readers := s.readers - 1)) else Faults
  }

  /** A goroutine's calls, in order: all done, stuck waiting at call `at`
      (for ever, since the goroutine that would release the lock is the
      waiting one), or faulted at call `at`. */
  datatype LockRun = Completed(final: LockState) | Deadlocked(at: nat) | Faulted(at: nat)

  function Run(s: LockState, ops: seq<LockOp>): (r: LockRun)
    ensures r.Deadlocked? ==> r.at < |ops|
    ensures r.Faulted? ==> r.at < |ops|
    decreases |ops|
  {
    if ops == [] then Completed(s)
    else
      match Step(s, ops[0])
      case Proceeds(next) =>
        (match Run(next, ops[1..])
         case Completed(f) => Completed(f)
         case Deadlocked(at) => Deadlocked(at + 1)
         case Faulted(at) => Faulted(at + 1))
      case Waits => Deadlocked(0)
      case Faults => Faulted(0)
  }

  /** The lock calls of one operation on a lobby, in the order the source
      makes them; deferred unlocks run when their function returns. */
  datatype LobbyCall = ClientCountCall | JoinCall(becomesLeader: bool) | LeaveCall(member: bool) | SendCall

  /** As written: `join` takes the write lock and, when the joiner is the
      only member, calls `promote`, which takes the same lock again. */
  function JoinLockOps(becomesLeader: bool): seq<LockOp> {
    [Lock] + (if becomesLeader then [Lock, Unlock] else []) + [Unlock]
  }

  /** Corrected: `join` sets the leader under the lock it already holds. */
  function JoinLockOpsFixed(becomesLeader: bool): seq<LockOp> {
    [Lock, Unlock]
  }

  /** `leave` checks membership under a read lock, and reads the id under
      another one to broadcast the departure of a member. */
  function LeaveLockOps(member: bool): seq<LockOp> {
    if member then [RLock, RUnlock, RLock, RUnlock] else [RLock, RUnlock]
  }

  function CallLockOps(c: LobbyCall): seq<LockOp> {
    match c
    case ClientCountCall => [RLock, RUnlock]
    case JoinCall(b) => JoinLockOps(b)
    case LeaveCall(m) => LeaveLockOps(m)
    case SendCall => [Lock, Unlock]
  }

  function CallLockOpsFixed(c: LobbyCall): seq<LockOp> {
    match c
    case JoinCall(b) => JoinLockOpsFixed(b)
    case _ => CallLockOps(c)
  }

  /** As written, a join that makes the joiner the leader waits for ever at
      its second `Lock`; every other call on a free lobby returns and
      leaves it free. */
  lemma JoinAsWrittenDeadlocks(c: LobbyCall)
    ensures c == JoinCall(true) ==> Run(Unlocked, CallLockOps(c)) == Deadlocked(1)
    ensures c != JoinCall(true) ==> Run(Unlocked, CallLockOps(c)) == Completed(Unlocked)
  {
    var held := LockState(true, 0);
    var reading := LockState(false, 1);
    PairReleases(Lock, Unlock);
    PairReleases(RLock, RUnlock);
    match c
    case JoinCall(true) =>
      assert CallLockOps(c) == [Lock, Lock, Unlock, Unlock];
      assert Step(held, Lock) == Waits;
      assert Run(held, [Lock, Unlock, Unlock]) == Deadlocked(0);
    case LeaveCall(true) =>
      assert CallLockOps(c) == [RLock, RUnlock] + [RLock, RUnlock];
      assert Run(reading, [RUnlock, RLock, RUnlock]) == Run(Unlocked, [RLock, RUnlock]);
    case _ =>
  }

  /** A lock taken and released on a free lobby leaves it free. */
  lemma PairReleases(take: LockOp, release: LockOp)
    requires (take == Lock && release == Unlock) || (take == RLock && release == RUnlock)
    ensures Run(Unlocked, [take, release]) == Completed(Unlocked)
  {
    var next := Step(Unlocked, take).next;
    assert [take, release][1..] == [release];
    assert Run(next, [release]) == Completed(Unlocked) by {
      assert [release][1..] == [];
    }
  }

  /** With the corrected join, every call on a free lobby returns and
      leaves it free. */
  lemma JoinFixedReleases(c: LobbyCall)
    ensures Run(Unlocked, CallLockOpsFixed(c)) == Completed(Unlocked)
  {
    match c
    case JoinCall(b) =>
      assert [Lock, Unlock][1..] == [Unlock];
    case _ =>
      JoinAsWrittenDeadlocks(c);
  }

  /** A join only makes the joiner the leader when the lobby had no
      members, so the deadlock needs a lobby left empty but still
      registered: the creator's own `newPugLobby` does not go through
      `join`. */
  method EmptyLobbyJoin(creator: WsClient, joiner: WsClient, id: string, opts: LobbyOptions)
      returns (becameLeader: bool)
    modifies creator, joiner
    ensures becameLeader
  {
    var lobby := new PugLobby(creator, id, opts);
    var _ := lobby.Leave(creator);
    assert lobby.Clients == [];
    var _ := lobby.Join(joiner);
    becameLeader := |lobby.Clients| == 1 && lobby.Leader == joiner;
  }
}
