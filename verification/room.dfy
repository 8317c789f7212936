/**
 * The room snapshot that the session authority pushes to every client
 * (the `Player` and `State` interfaces of src/app.tsx).
 */
module Room {
  import opened Wrappers

  /**
   * One participant. `vote` is a JavaScript number, modelled exactly as a
   * real; `votedAt` is a millisecond timestamp. Both are optional fields.
   */
  datatype Player = Player(id: string, name: string, vote: Option<real>, votedAt: Option<int>)

  /** A full snapshot of a room; always received whole, never as a patch. */
  datatype Snapshot = Snapshot(players: seq<Player>, updatedAt: int, areVotesVisible: bool)
}
