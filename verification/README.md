# Planning poker client: connection state and vote derivation

This project models the logic of the planning-poker web client (`src/app.tsx`)
that lies beneath the React rendering. It has two parts.

- **`useSocket` and the intent emitters** (`connection.dfy`, module `Connection`).
  The hook holds a `ConnectionStatus` record (`connecting`, `connected`,
  optional `lastConnectionError`), the latest room snapshot (`State`), and a
  socket. Five transport events drive it: `connect`, `connect_error`,
  `reconnecting`, `disconnect` and `state`. The `connect`, `connect_error`,
  `reconnecting` and `disconnect` handlers replace the status record whole;
  the `state` handler leaves it alone and replaces the snapshot, and
  `disconnect` also clears the snapshot. `connect` also emits `join` with the
  stored player name, or `"Unnamed"` when no name or an empty name is
  stored. The page emits `renameSelf` (after writing the name to the
  key-value store), `vote`, `showVotes` and `clearVotes`.
  - The pure functions `Handle` and `Request` say what each event and each
    intent does to a `Session` value. `Run` applies a sequence of events.
  - The class `ConnectionManager` holds the same state in fields that its
    methods update in place. It has one method per event and one per
    emitter, each proved against `Handle` or `Request`.
  - The socket is modelled as the log `emitted` of messages handed to
    `emit`. The browser's `localStorage` is modelled as a
    `map<string, string>`.
- **Vote derivation** (`votes.dfy`, module `Votes`). This covers whether
  anyone has voted, the enable flags of the "Show Votes" and "Clear Votes"
  buttons, and the average shown by `VotingResults`. Votes are exact `real`s.
  The average is an `Option<real>` in which `None` stands for the `NaN` that
  `0 / 0` gives when no one has voted. JavaScript truthiness is written out:
  an absent number and `0` are both falsy.

`room.dfy` holds the wire types `Player` and `Snapshot`. `wrappers.dfy` holds
`Option`.

Three behaviours of the code a reader might not expect:

- The button flags test `votedAt`, not `vote` (`FlagsIgnoreVoteWithoutTimestamp`).
- `connect_error` keeps the held snapshot. So "not connecting and not
  connected" does not imply "no snapshot"; only `disconnect` clears it
  (`ConnectErrorKeepsSnapshot`, `DisconnectClearsSnapshot`).
- The emitters' `?.` skips the emit only while no socket object exists
  (`hasSocket`). An intent made while the socket is disconnected is still
  handed to `emit` (`VoteAfterDisconnect`). What socket.io then does
  with it is not part of this model.

## Model

| member | source | states |
|---|---|---|
| `Votes.HasVote` | src/app.tsx:165 | `player.vote` as a condition: false exactly for an absent vote and for 0; used by `VotedPlayers`, `CountVoted` and `VoteOrZero` |
| `Votes.HasVotedAt` | src/app.tsx:186 | `player.votedAt` as a condition: false exactly for an absent timestamp and for 0; used by `AnyVotedAt` |
| `Votes.VoteOrZero` | src/app.tsx:167 | `player.vote \|\| 0` is non-zero exactly when the vote is truthy, and then it is the vote itself; summed by `VotesSum` |
| `Votes.ShowVotesEnabled` | src/app.tsx:187 | `someoneVoted && !state?.areVotesVisible`: enabled exactly when a snapshot exists, its votes are hidden and a player has a truthy `votedAt`; see `VoteButtons` |
| `Votes.ClearVotesEnabled` | src/app.tsx:188 | `someoneVoted && state?.areVotesVisible`: enabled exactly when a snapshot exists, its votes are visible and a player has a truthy `votedAt`; never together with the show flag; see `VoteButtons` |
| `Votes.VotesSum` | src/app.tsx:166-169 | the reduce, a left fold of `vote \|\| 0` from 0: 0 when no player has a truthy vote, never negative when no vote is; described by `VotesSumAppend`, `VotesSumConcat`, `FilterKeepsSum` and `VotesSumBounds` |
| `Votes.Average` | src/app.tsx:164-170 | `Mean` of the filtered players' sum and count: NaN exactly when no player has a truthy vote, otherwise the sum of `vote \|\| 0` over everyone divided by `CountVoted`; described by `AverageIsMean`, `AverageUndefined`, `AverageWithin` and `AverageBetweenExtremes` |
| `Votes.AnyVotedAt` | src/app.tsx:186 | `some(player => player.votedAt)` is true exactly when some player has a truthy `votedAt` |
| `Votes.SomeoneVoted` | src/app.tsx:186 | `someoneVoted` holds exactly when a snapshot exists and one of its players has a truthy `votedAt` |
| `Votes.VoteButtons` | src/app.tsx:186-188 | the show-votes and clear-votes flags are never both enabled; both are disabled without a snapshot or without a `votedAt`; otherwise exactly one is enabled, chosen by `areVotesVisible` |
| `Votes.FlagsIgnoreVoteWithoutTimestamp` | src/app.tsx:186-188 | a player with a vote but no `votedAt` enables neither button |
| `Votes.VotedPlayers` | src/app.tsx:165 | the filter keeps only players with a truthy `vote`, keeps every such player, and is never longer than its input |
| `Votes.VotedPlayersMultiset` | src/app.tsx:165 | the filter keeps each player with a truthy `vote` exactly as many times as it occurs and drops every other player (multiset equality) |
| `Votes.VotedPlayersCount` | src/app.tsx:165 | the filter's length equals the number of players with a truthy `vote`, counted independently from the front |
| `Votes.CountVotedAppend` | src/app.tsx:165 | counting one more player adds one exactly when that player has a truthy `vote` |
| `Votes.Mean` | src/app.tsx:170 | the quotient is undefined (NaN) exactly when the count is 0; otherwise it times the count gives back the sum |
| `Votes.FilterKeepsSum` | src/app.tsx:165-169 | summing `vote \|\| 0` over the filtered players equals summing it over all players |
| `Votes.VotesSumBounds` | src/app.tsx:166-169 | the reduce over `n` votes that all lie in [lo, hi] lies between `lo` and `hi` each taken `n` times |
| `Votes.AverageUndefined` | src/app.tsx:164-170 | the average is NaN exactly when no player has a truthy vote |
| `Votes.AverageIsMean` | src/app.tsx:164-170 | the average is the sum of `vote \|\| 0` over all players divided by `CountVoted`, the number of players with a truthy vote (NaN when that is 0) |
| `Votes.AverageWithin` | src/app.tsx:164-170 | when every counted vote lies in [lo, hi], a defined average does too |
| `Votes.AverageBetweenExtremes` | src/app.tsx:164-170 | a defined average lies between some counted player's vote and some counted player's vote, i.e. between the smallest and the largest |
| `Votes.AverageOfOfferedValues` | src/app.tsx:184 | votes cast with the page's buttons (0.5 to 8) average to a value in [0.5, 8] |
| `Votes.AverageOfOneTwoThree` | src/app.tsx:164-170 | votes 1, 2, 3 average to 2 |
| `Votes.AverageOfNoVotes` | src/app.tsx:164-170 | a single player without a vote gives NaN, not 0 |
| `Votes.ZeroVoteIsNotCounted` | src/app.tsx:165 | a vote of 0 is falsy: votes 0 and 2 average to 2 |
| `Connection.StoredName` | src/app.tsx:112 | `localStorage.getItem('playerName')`: null exactly when the key is absent, otherwise the stored value; read by `JoinName` |
| `Connection.Start` | src/app.tsx:99-104 | the hook's first state: connecting, well-formed, no error, no snapshot, nothing emitted, the given store; see `NeverConnectingAndConnected` |
| `Connection.Handle` | src/app.tsx:108-131 | what one handler does: the store is kept, a `state` push keeps the status and holds the pushed snapshot, every other event writes a well-formed status and never brings in a new snapshot, and only `connect` appends (one message); described by `HandleOverwritesStatus`, `StatePushReplaces`, `DisconnectClearsSnapshot` and `ConnectErrorKeepsSnapshot` |
| `Connection.Request` | src/app.tsx:212-246 | what one emitter does while a socket exists: status and snapshot are kept, exactly one message is appended, and a rename makes the store read back the new name while the other intents keep the store; described by `RenameThenReconnect` and `IntentsAreNotOptimistic` |
| `Connection.Run` | src/app.tsx:106-131 | the handlers applied to a sequence of events: the log only grows, by at most one message per event; described by `RunSnoc`, `RunEmitsOneJoinPerConnect`, `RunKeepsStorage`, `RunKeepsStatusWellFormed` and `RunIsLatest` |
| `Connection.JoinName` | src/app.tsx:112 | the `join` name is the stored name when it is present and non-empty, otherwise "Unnamed"; it is never empty |
| `Connection.HandleOverwritesStatus` | src/app.tsx:108-127 | `connect`, `connect_error`, `reconnecting` and `disconnect` each write a status that does not depend on the previous one; it is never both connecting and connected; the store is untouched |
| `Connection.StatePushReplaces` | src/app.tsx:128-131 | after any history, a `state` push leaves exactly the pushed snapshot (no merge with the one held before) and changes nothing else |
| `Connection.RenameThenReconnect` | src/app.tsx:212-215 | after a rename, `renameSelf` is emitted, and the next `connect` joins with that name, or "Unnamed" for "" |
| `Connection.IntentsAreNotOptimistic` | src/app.tsx:212-246 | no intent changes the status or the snapshot; each appends one message; the next `state` push decides the snapshot |
| `Connection.RunSnoc` | src/app.tsx:106-131 | handling events one after another is the same as extending the run by one event |
| `Connection.RunKeepsStorage` | src/app.tsx:106-131 | transport events never change the stored name |
| `Connection.RunKeepsStatusWellFormed` | src/app.tsx:110-125 | after any event sequence the status is never both connecting and connected, and it has an error only while neither |
| `Connection.NeverConnectingAndConnected` | src/app.tsx:99-125 | from the initial status, no event sequence makes `connecting && connected` true |
| `Connection.RunEmitsOneJoinPerConnect` | src/app.tsx:108-113 | events only append to the log, with exactly one `join` per `connect`, each carrying the stored name or "Unnamed" |
| `Connection.RunIsLatest` | src/app.tsx:108-131 | after a run, the snapshot is the latest push unless a later `disconnect` cleared it, and the status is the one written by the last non-`state` event |
| `Connection.DisconnectClearsSnapshot` | src/app.tsx:123-127 | after `disconnect` there is no snapshot and the status is not-connecting, not-connected, with no error |
| `Connection.ConnectErrorKeepsSnapshot` | src/app.tsx:115-118 | after any history, `connect_error` leaves the hook neither connecting nor connected with that error, and keeps the snapshot it held |
| `Connection.ConnectionManager.constructor` | src/app.tsx:99-104 | starts connecting, not connected, with no error, no snapshot, nothing emitted and no socket |
| `Connection.ConnectionManager.Open` | src/app.tsx:107 | the socket now exists; nothing else changes |
| `Connection.ConnectionManager.OnConnect` | src/app.tsx:108-114 | status becomes connected with no error; exactly one `join` with the stored name or "Unnamed" is appended; snapshot and store unchanged |
| `Connection.ConnectionManager.OnConnectError` | src/app.tsx:115-118 | status becomes not-connecting, not-connected with the given error; snapshot, log and store unchanged |
| `Connection.ConnectionManager.OnReconnecting` | src/app.tsx:119-122 | status becomes connecting, not connected, with no error; nothing else changes |
| `Connection.ConnectionManager.OnDisconnect` | src/app.tsx:123-127 | status becomes not-connecting, not-connected with no error, and the snapshot is cleared |
| `Connection.ConnectionManager.OnState` | src/app.tsx:128-131 | the snapshot becomes the pushed one; status, log and store unchanged |
| `Connection.ConnectionManager.Rename` | src/app.tsx:212-215 | the store maps "playerName" to the new name; then `renameSelf` is appended if a socket exists; status and snapshot unchanged |
| `Connection.ConnectionManager.ClearAllVotes` | src/app.tsx:223 | `clearVotes` is appended if a socket exists; nothing else changes |
| `Connection.ConnectionManager.ShowAllVotes` | src/app.tsx:232 | `showVotes` is appended if a socket exists; nothing else changes |
| `Connection.ConnectionManager.CastVote` | src/app.tsx:246 | `vote` with the given value is appended if a socket exists, whatever the status; nothing else changes |
| `Connection.VoteAfterDisconnect` | src/app.tsx:246 | a manager that opens its socket, is disconnected and then votes is neither connecting nor connected, yet has handed exactly `vote` to `emit` |

## Left out

- Styling (`makeStyles`) and all JSX rendering, including the rule that the
  average row is shown only while `areVotesVisible` and the connection-error
  alert: these are presentation.
- `PlayerNameCell`'s green blink: it depends on `setTimeout` timing.
- The effect's cleanup (`socketRef.current?.close()`) and its re-run when
  the server address or room name changes: these are React lifecycle. The
  model keeps one socket for the life of the hook and has no terminal state.
- The socket.io transport: connecting, reconnect and backoff policy, framing,
  and whether `emit` buffers or drops while offline. The socket is only the
  log of messages handed to `emit`. The transport is assumed to deliver
  events only once the socket exists (the handlers' `hasSocket`
  precondition).
- `console.log` and `console.error`: output only.
- IEEE-754 number semantics: votes and their average are exact reals, and
  `NaN` is `None`. Rounding of the sum and of the division, and a `NaN`
  vote, are not modelled. `votedAt` is an integer timestamp.
- Sharing of the browser store between tabs: the model has one store, owned
  by one hook.
