# A verified model of the game server: scenes, packets, limiter and lobby

A Dafny model of the parts of the server whose correctness is not visible in any one function, and proofs of
what they promise together. Check it with `dafny verify dfyconfig.toml`.

**The scene service.** A scene keeps an entity manager (id to object) and a grid of cells that indexes it. Both
are objects here, as they are in the program: `Grid.GridAOI` is the matrix of cells, `Scenes.Scene` owns manager
and grid, `SceneServer.Server` serves enters, leaves and moves. The grid may hold the manager's own object or a
detached copy of it, and the invariant says what is then still true: every managed id is filed in exactly one cell,
the cell of its position, under an object whose own, possibly stale, position lies in that cell. Each operation is
proved against a function of the scene's value (`SceneModel`), and each call of the service against a step of the
value `AoiWorld.World`, which holds the scenes, the connection tables, and everything ever sent.

The server never sends a client its neighbourhood, only differences. `Views` proves over whole runs that replaying
them gives each client exactly the other players in the 3x3 block around its own, so views are mutual. Only entries
are constrained, and `EnterKeepsIff` shows that what is asked of them is exact: the connection must not be one the
service still has another role on, the role must be in no other scene, and nothing may have to be taken out of a
view. `Reentry` shows that newcomers and re-entry within a cell lose nothing, and gives a run of three entries in which
coming back in another cell leaves a ghost behind; `SharedConnection` gives a run in which a connection that plays a
second role is shown what the first one's player would see, and `SecondConnection` says exactly when a role on two
connections misleads a client. `ClientState` replays names and positions too: under which name and where a client has each
player in its view, and exactly when these are the player's. `Broadcasts` proves that a move is broadcast once to
exactly those whose view contains the mover, and `Deliveries` that all that is cached and broadcast is on the map, and how
messages are numbered. `ServiceRuns` says by the steps of a run which scene and connection a role is on, and which
moves are let through. `Interleaving` drops the assumption that operations run one at a time:
manager and grid have a lock each, and what is written under no lock is read by no step of another player on the
index; what messages quote is outside that module.

**Packets.** `Packets` is the frame codec, `PacketStream` the reader that reassembles frames from a source which
may deliver bytes in any pieces and fail anywhere. Calls of the reader lose no byte, read none too many, and return
the frames that parsing the whole stream at once would give. What is on the wire is said in numbers to base 256, most
significant byte first.

**The move limiter.** `MoveLimit` proves that the greedy limiter lets through the largest number of moves any
choice with the same spacing could, and bounds the rate in every window.

**The lobby.** `LobbyModel` gives the steps of creating roles, entering, moving, reconnecting, logging out, timing
out and writing back over database, cache and scenes; `LobbyServer` has the handlers as methods of objects, each
proved to take the corresponding step; `LobbyRuns` proves what holds over all runs, `Positions` when cache and scene
follow a role's moves, `WriteBack` when positions survive and when scene, cache and database agree on a role, with a run
in `NewRole`, `Sessions` since when a role exists, a session is valid and a connection is used for what, `LobbyBatches`
what batches and sweeps come to. `TableLock` has the lock of the connection table, with its
readers and those who wait to write, and derives from its rules that the lobby's steps say right what becomes of a table
that a sweep has locked. `RedisText` has the decimal codecs of the cache, down to the digits.

**Both together.** `LobbyViews` runs lobby and scene service side by side: over every run of the lobby whose entries
are orderly, both have every role at the same place and all views are true. Reconnecting is orderly for a role whose
cached and stored positions agree with the scene, if its connection is its own; entering again at a stale row is not,
and `EnterAgainIff` says exactly when.

## What the code does differently from what is meant

Each of these but the one about move requests is a theorem, with the exact condition where there is one.

- Logging out and timing out ask the scene service to remove the role from map 0 (internal/lobby/server.go:130 and
  434), which is never created. So the role stays in its scene for good (`LobbyRuns.NeverLeaves`), whereas the
  requirements (docs/02, section 3.3) have it removed from the grid and its neighbours told.
- A cached coordinate that is a whole number is written without a point and reads back as "not a number"
  (internal/db/redis.go:141-155). Logging out and reconnecting bring back what is cached exactly when neither coordinate
  is whole, and logging out else leaves what was stored (`WriteBack.SavedIff`, `LogoutThenEnter`, `ReconnectIff`). What is
  cached is the last accepted position as long as the role's own moves reach the cache (`Positions.RunFollowed`); only a
  locked table can keep them from it, and in orderly runs not even that (`LobbyViews.OrderlyRunsFollow`). A new role,
  created at (100, 100), that reconnects before its first move without a whole coordinate loses its position
  (`NewRole.NewRoleExample`); from that move on, if it is cached, scene, cache and database agree on the role
  (`CoherentFromMove`).
- Entering again in another cell tells nobody that the player left the old one (`Views.EnterKeepsIff`,
  `Reentry.FarReentryExample`).
- Nothing stops a connection from entering with a second role; the service keeps the first one on it, and sends what is
  meant for the first to the second (`SharedConnection.SharedConnectionExample`).
- After a move across cells the messages quote a detached copy, without a name and with a position that may be
  stale, and coming back within the cell keeps it; `SceneModel.MoveReportIff` and `EntryReportIff` say exactly when
  a report is right. So a client may have a player it sees at the place of an earlier move, in the right cell
  (`ClientState.HeldIff`, `MisplacedExample`), until the player moves again, and
  without its name, until it enters again.
- A move request is applied to whatever role it names: neither handler compares that with the role of the connection
  (internal/lobby/server.go:458-468, internal/scene/server.go:260-266). Moves in `LobbyModel` and `AoiWorld` name any
  role, so what is proved over runs holds with such moves as well.
- A sweep over the connections closes the first overdue one and gets no further: closing waits for the table's write
  lock, whose read lock the sweep holds (internal/network/server.go:100-104 and 130-138). The connection stays in the
  table, the others stay in use, and connections can neither come nor go any more (`TableLock.ClosingIsForGood`,
  `SweepGoes`). The sweep does what it is meant to exactly if no heartbeat is overdue (`LobbyBatches.SweepAsMeantIff`),
  and the order in which it visits the connections matters exactly if two are (`OrderMattersIff`).
- The lobby finds any connection of a role: on a second one the client may be shown nobody
  (`SecondConnection.MisledIff`, `SecondConnectionExample`).
- Nothing takes frames from the channel that a server connection puts them on, so it handles 65 of them at most
  (`PacketStream.ReadLoopUndrained`).
- For map sizes that are not whole numbers the grid may be a fraction of a cell short, because the remainder is taken of
  whole parts (`Geometry.CoversIff`); positions beyond it count to the last cell.
- A player that jumps to a cell that is not adjacent finds itself among those entering its view
  (`SceneModel.MoveDifference`); clients that leave themselves out of their view are not affected.

## Assumptions

- Coordinates and times are exact: `real` for floating point, `int` for nanoseconds. Not-a-number arises only from
  parsing cached text, as `None`; requested coordinates are numbers.
- The order in which a Go map is ranged over is arbitrary (`GoTypes.Pick`, `InSomeOrder`).
- The text that the Redis client writes for a number is the decimal numeral of that number without zeros at the end of
  the fraction, and without a point if there is no fraction.
- Tokens are fresh, passwords are checked elsewhere, and new rows get unused positive ids.
- An accepted move writes its position to the cache unless it has to search the locked table for a connection
  (`reached` in `LobbyModel.Event`).
- The table's lock is a `sync.RWMutex` as Go documents it: one that waits to write lets in no new reader. In what order
  waiting threads get their turn is left open.
- `last` and `account` in `LobbyModel`, `net` in `SceneServer.Outbox`, and the ghost fields of scenes are bookkeeping
  of the proofs; nothing in the program depends on them.

## Model

| member | source | states |
|---|---|---|
| Geometry.ClampIff | internal/scene/server.go:209-210 | a requested coordinate becomes the one from 0 to 1000 that is nearest to it |
| Geometry.ReachedIff | internal/scene/grid.go:54-70 | an index is at least k exactly if the coordinate is on the k-th inner grid line or beyond |
| Geometry.IndexIff | internal/scene/grid.go:54-70 | so an index is k exactly from its line on and before the next, and without a bound at the border |
| Geometry.NeighbourIff | internal/scene/grid.go:54-85 | two players see each other exactly if on neither axis a whole inner strip lies between their positions |
| Geometry.OnTheLineExample | internal/scene/grid.go:54-85 | a role at (100, 100) is in cell (1, 1) and sees one at (250, 100), but not one at (300, 100) |
| Geometry.CloseMeansNear | internal/scene/grid.go:54-85 | positions at most one grid size apart on both axes always see each other, border clamping included |
| Geometry.NearMeansClose | internal/scene/grid.go:54-85 | positions on the grid that see each other are at most two grid sizes apart per axis |
| Geometry.CellsCoverSide | internal/scene/grid.go:23-31 | for whole-number sizes the number of columns or rows is the ceiling of side by grid size |
| Geometry.CoversIff | internal/scene/grid.go:23-31 | for other sizes, exactly when the cells cover the side; a side of 200.5 gets two cells of 100 |
| Grid.GridAOI.constructor | internal/scene/grid.go:23-51 | the grid starts valid and empty, with the computed numbers of columns and rows |
| Grid.GridAOI.PosToGrid | internal/scene/grid.go:54-70 | the clamped cell of a position: on each axis the strip from its line on and before the next one, outside the map the border's |
| Grid.GridAOI.GetSurroundGrids | internal/scene/grid.go:73-85 | exactly the existing cells within Chebyshev distance 1, each once, at edges and corners too |
| Grid.GridAOI.AddEntity | internal/scene/grid.go:88-94 | files the object in the cell of its position and nothing else changes |
| Grid.GridAOI.RemoveEntity | internal/scene/grid.go:97-102 | takes the id out of the cell of the given position only |
| Grid.GridAOI.MoveEntity | internal/scene/grid.go:105-119 | within a cell nothing changes; across cells the entry is replaced by a new nameless copy in the new cell |
| Grid.GridAOI.GetVisibleEntities | internal/scene/grid.go:134-155 | exactly the entries of the 3x3 block, without repetition when no id is in two cells |
| Grid.GridAOI.SurroundIds | internal/scene/grid.go:159-166 | the set of ids in the 3x3 block |
| Grid.GridAOI.GetNewNeighbors | internal/scene/grid.go:158-179 | exactly the entries of the new block whose id is not in the old one |
| Grid.GridAOI.GetLostNeighbors | internal/scene/grid.go:182-203 | exactly the entries of the old block whose id is not in the new one |
| SceneModel.MoveDifference | internal/scene/scene.go:71-94 | without the mover, enter and leave are the differences of new and old view, and old - leave + enter is the new view; the mover is in enter exactly on jumps, and never in leave |
| SceneModel.KeepsForm | internal/scene/scene.go:24-94 | after adding, moving or removing, every player is still reported from inside its own cell, and every detached copy is nameless |
| SceneModel.MoveReportIff | internal/scene/scene.go:77-84 | exactly when name and position reported after a move are the player's, and when the position is |
| SceneModel.EntryReportIff | internal/scene/scene.go:26-43 | exactly when name and position reported after an entry are the player's, re-entry of a detached player included |
| SceneModel.StaleReportExample | internal/scene/grid.go:109-116 | a concrete player whose reported position and name are stale after two moves |
| SceneModel.StaleReentryExample | internal/scene/scene.go:26-38 | a concrete player whose reported position and name stay stale when it comes back within its cell |
| Scenes.Scene.NamedByManager | internal/scene/grid.go:109-116 | a report taken from the manager's object has the manager's name |
| Scenes.JoinedFits | internal/scene/scene.go:40-42 | the index invariant survives a new player |
| Scenes.RejoinedFits | internal/scene/scene.go:26-38 | the index invariant survives an update in place, also when the grid held a detached copy |
| Scenes.SteppedFits | internal/scene/scene.go:77-84 | the index invariant survives a move, within a cell and across cells |
| Scenes.PartedFits | internal/scene/scene.go:61-66 | the index invariant survives a removal |
| Scenes.SeenIsAround | internal/scene/grid.go:134-155 | under the invariant, being filed in a block is being in it by the manager's positions |
| Scenes.CollectedPlayers | internal/scene/grid.go:134-203 | under the invariant a query lists exactly the managed players of the block, each once: the brute-force scan |
| Scenes.Others | internal/scene/scene.go:47-52 | the same list without one id |
| Scenes.Scene.WriteExisting | internal/scene/scene.go:28-38 | the writes of updating a player in place, on object and grid |
| Scenes.Scene.WriteStep | internal/scene/scene.go:77-84 | the writes of a move, on object and grid |
| Scenes.Scene.AddPlayer | internal/scene/scene.go:24-57 | keeps the invariant, adds or repositions the player, and returns exactly those around it without itself; by `Geometry.NeighbourIff`, those with no strip between |
| Scenes.Scene.RemovePlayer | internal/scene/scene.go:60-68 | keeps the invariant and removes the player, or does nothing |
| Scenes.Scene.MovePlayer | internal/scene/scene.go:71-94 | keeps the invariant, moves the player, and returns the exact difference of the two blocks, or that it is not there |
| Scenes.Scene.GetVisiblePlayers | internal/scene/scene.go:97-106 | exactly the managed players of the block except one |
| SceneServer.SceneManager.constructor | internal/scene/scene.go:124-134 | starts with an empty scene for map 1 |
| SceneServer.SceneManager.GetOrCreateScene | internal/scene/scene.go:136-146 | the scene of the map, new and empty if there was none |
| SceneServer.SceneManager.FindSceneByRoleID | internal/scene/scene.go:155-164 | a scene that has the role, whatever the order of the search; none only if no scene has it |
| SceneServer.NewService | internal/scene/server.go:67-80 | the service starts with map 1, nobody in it and nothing sent |
| SceneServer.Outbox.GetConn | internal/scene/server.go:268-278 | the service's own table first, then the lobby's |
| SceneServer.Outbox.SendGreetings | internal/scene/server.go:110-150 | the newcomer is sent all around it in one message, and each of them the newcomer |
| SceneServer.Outbox.SendEnters | internal/scene/server.go:221-232 | mover and entering players are introduced to each other, pair by pair |
| SceneServer.Outbox.SendLeaves | internal/scene/server.go:234-241 | mover and leaving players are told of each other, pair by pair |
| SceneServer.Outbox.SendMove | internal/scene/server.go:243-251 | one number for the broadcast to all who see the mover |
| SceneServer.Outbox.Announce | internal/scene/server.go:221-255 | everything a move sends, in order, and the position for the cache |
| SceneServer.Server.NotifyLeave | internal/scene/server.go:171-188 | exactly the players around a leaving role are told |
| SceneServer.Server.MoveIn | internal/scene/server.go:209-255 | a move in a scene is a step of the world: dropped if too soon, else clamped, indexed and announced |
| SceneServer.Server.PlayerEnterScene | internal/scene/server.go:97-161 | keeps the whole service in order and takes the step of an entry |
| SceneServer.Server.PlayerLeaveScene | internal/scene/server.go:164-198 | keeps the whole service in order and takes the step of a departure; nothing happens without a scene |
| SceneServer.Server.HandleMove | internal/scene/server.go:203-256 | keeps the whole service in order and takes the step of a move; nothing happens for a role in no scene |
| AoiWorld.GreetView | internal/scene/server.go:110-150 | what the messages of an entry do to any client's replayed view |
| AoiWorld.MeetView | internal/scene/server.go:221-232 | what the enter messages of a move do to any client's replayed view |
| AoiWorld.PartView | internal/scene/server.go:234-241 | what the leave messages of a move do to any client's replayed view |
| AoiWorld.TellView | internal/scene/server.go:179-187 | what one message to many does to any client's replayed view |
| Views.MoveReplay | internal/scene/server.go:203-256 | a move changes each live client's view by exactly the difference |
| Views.MoveKeeps | internal/scene/server.go:203-256 | after a move every live client again sees exactly its neighbourhood |
| Views.LeaveKeeps | internal/scene/server.go:164-198 | after a departure every live client again sees exactly its neighbourhood |
| Views.EnterKeepsIff | internal/scene/server.go:97-161 | an entry leaves everything sound if and only if the connection is not taken, the role is in no other scene, and nothing would have to be taken out of a view |
| Views.StepKeeps | internal/scene/server.go:97-256 | every step whose entry meets those conditions keeps all views true |
| Views.ViewsAreTrue | internal/scene/server.go:97-256 | over every run of such steps each client's replayed view is its player's 3x3 neighbourhood |
| Views.ViewsAreMutual | internal/scene/server.go:97-256 | then two players see each other or neither does |
| ClientState.HeldIffViewed | internal/scene/server.go:110-251 | replaying reports, a client holds one for exactly the players that its replayed view has |
| ClientState.HeldGreet | internal/scene/server.go:110-150 | what the messages of an entry make of what a client holds of a player |
| ClientState.MoveHeld | internal/scene/server.go:221-251 | what all messages of a move make of it, in their order |
| ClientState.EntryHeld | internal/scene/server.go:110-150 | in every run, after an entry everyone who sees the newcomer holds exactly its name and position, and it holds of everyone it sees what the grid reports |
| ClientState.SeerPlaces | internal/scene/server.go:221-251 | after an accepted move everyone who sees the mover has it where it went, newly without its name |
| ClientState.MoverPlaces | internal/scene/server.go:226-231 | and the mover has those it newly sees as the grid reports them, and of the others what it had |
| ClientState.StepPlaces | internal/scene/server.go:97-256 | every step keeps what each client holds of a player the player's own word, or else the grid's report, by who spoke last |
| ClientState.HeldIff | internal/scene/server.go:97-256 | over every run a client has each player in its view in the player's cell, and exactly where it is if and only if it last heard of it by the player's own move or entry or the grid's report is right; and by its name if and only if it was told it since the player came into view or there is none |
| ClientState.MisplacedExample | internal/scene/grid.go:109-116 | a run of two entries and two moves with true views after which a client has a player where it is not |
| Deliveries.MoveEffect | internal/scene/server.go:203-255 | a move that is let through takes the role, in its scene and for the cache, to the place of the map nearest to the request and changes no other place; any other changes nothing |
| Deliveries.MoveInPhases | internal/scene/server.go:221-251 | a move sends who comes into view before who leaves it, and the broadcasts last |
| Deliveries.RunNumbered | internal/scene/server.go:87-92 | over every run all that is cached and broadcast is on the map, and numbers go up in the order of sending, one for each message about views and each accepted move, shared only by the copies of its broadcast |
| ServiceRuns.StepTold | internal/scene/server.go:97-256 | every step starts and ends exactly what it should of scene, connection and last move |
| ServiceRuns.FactIff | internal/scene/server.go:97-256 | over every run, a role is in a scene, on a connection of the service, found on one by the lobby, and last moved at a time, exactly since a step made it so and until one ended it |
| ServiceRuns.LetThroughIff | internal/scene/server.go:203-214 | over every run a move is let through exactly if the role is in a scene and its last accepted move since it left is at least the interval ago |
| ServiceRuns.LeavingForgets | internal/scene/server.go:190-195 | leaving takes the role out of the scene, the limiter and the table of connections |
| Reentry.FreshConnectionIsLossless | internal/scene/server.go:97-150 | newcomers, and re-entry within the cell, on an unused connection meet the condition |
| Reentry.SameCellIsLossless | internal/scene/scene.go:26-38 | re-entry within the cell on the role's own connection meets the condition |
| Reentry.FarReentryLeavesGhost | internal/scene/scene.go:26-38 | whoever is left out of sight by a re-entry keeps seeing the role |
| Reentry.FarReentryExample | internal/scene/server.go:97-150 | a run of three entries after which a client sees a player that is in the opposite corner |
| SharedConnection.StrayMove | internal/scene/server.go:221-232 | a move towards a role whose connection now plays another one appears in the other one's view |
| SharedConnection.SharedConnectionExample | internal/lobby/server.go:326-328 | a run of lossless entries, two of them on one connection, and a move, after which a client sees a player in the opposite corner |
| SecondConnection.EntrantSeesIff | internal/lobby/server.go:376-398 | a client that enters on an unused connection sees truly exactly if the search finds that one, or nobody is around |
| SecondConnection.MisledIff | internal/scene/server.go:125-157 | so some result of the search misleads it exactly if another connection plays the role and somebody is around |
| SecondConnection.SecondConnectionExample | internal/scene/server.go:125-157 | a run after which a client sees nobody although a player is beside its own |
| Broadcasts.MoveHeard | internal/scene/server.go:243-251 | what a move adds to the broadcasts a connection has received |
| Broadcasts.HeardBySeers | internal/scene/server.go:221-251 | a move is heard once, by exactly those whose view after the move's messages contains the mover |
| Broadcasts.NumbersGoUpIff | internal/scene/server.go:87-92 | less than 2^32 ticks apart, the later signed number is the larger exactly if the counter did not reach 2^31 in between |
| Broadcasts.BroadcastsAreStamped | internal/scene/server.go:244-249 | over every run, of any length, whose entries meet those conditions, each connection hears the counter's values at strictly rising ticks |
| Broadcasts.NumbersRise | internal/scene/server.go:244-249 | so of two broadcasts a connection hears, the later has the larger number exactly if the counter did not reach 2^31 between them |
| Interleaving.StepSteady | internal/scene/scene.go:24-94 | every atomic step on manager or grid keeps the invariant of every player, wherever its operation stands |
| Interleaving.OperationArrives | internal/scene/scene.go:24-94 | each step of an operation leads to its end, where the manager has the player at the goal, or not at all after leaving |
| Interleaving.InterleavingIsSafe | internal/scene/scene.go:24-94 | in every interleaving no id is in two cells, the grid shows only managed ids, and idle players are in the cell of their position |
| Interleaving.TwoMovesOfOne | internal/scene/grid.go:105-119 | two overlapping moves of one player file it twice exactly when they lead to two different new cells |
| MoveLimit.MoveLimiter.Allow | internal/scene/server.go:49-59 | lets a move through exactly when the interval has passed, and only then remembers it |
| MoveLimit.AllowAll | internal/scene/server.go:49-59 | the answers to a list of requests are those of the specification |
| MoveLimit.OthersDoNotMatter | internal/scene/server.go:49-59 | in any run of requests each role is served as if it were alone |
| MoveLimit.LimiterIsOptimal | internal/scene/server.go:49-59 | no spaced choice from a role's requests is longer than what the limiter lets through |
| MoveLimit.RateBound | internal/scene/server.go:49-59 | any window of length w has at most w / interval moves, rounded up |
| MoveLimit.TwentyPerSecond | internal/scene/server.go:72 | at the shipped interval at most 20 moves of a role in any second |
| Packets.Packet.Marshal | internal/network/packet.go:23-34 | the buffer holds total length, message id, sequence number and error code in 4, 2, 4 and 2 bytes, most significant first, and then the body |
| Packets.Packet.Unmarshal | internal/network/packet.go:37-61 | takes over the frame that is on the wire at the head, or reports exactly what is wrong with size and stated length and changes nothing |
| Packets.EncodeIff | internal/network/packet.go:23-34 | bytes are the encoding of a frame exactly if they are worth its fields to base 256, in that order |
| Packets.DecodeIff | internal/network/packet.go:37-61 | decoding succeeds exactly if the stated length is from 12 to 65536 and there, and then gives the frame on the wire |
| Packets.WireExample | internal/network/packet.go:23-34 | a frame with a body of two bytes, byte by byte |
| Packets.DecodeEncoded | internal/network/packet.go:23-61 | a packet within the limit is read back whatever bytes follow it |
| Packets.RoundTripIff | internal/network/packet.go:23-61 | Unmarshal undoes Marshal exactly for packets within the size limit |
| Packets.EncodeDecoded | internal/network/packet.go:37-61 | whatever decodes is the encoding of the result, and fills the stated length |
| Packets.PrefixFree | internal/network/packet.go:23-61 | no frame is a proper prefix of another |
| PacketStream.ReadAtLeast | internal/network/packet.go:71-71 | reads a prefix of the source, and fails exactly if it is too short |
| PacketStream.PacketReader | internal/network/packet.go:65-107 | each call conserves bytes, returns a frame as soon as there is one, and reads and holds no more than one |
| PacketStream.UniquelyDecodable | internal/network/packet.go:23-107 | equal concatenations of frames have equal lists, and parsing recovers the list |
| PacketStream.Reassembled | internal/network/packet.go:65-107 | however the stream is cut and wherever reads fail, the frames returned are those of the stream parsed at once |
| PacketStream.ReassembledToFailure | internal/network/packet.go:65-107 | up to a failed read, frames and remainder are those of the stream parsed at once |
| PacketStream.SameBytesSameFrames | internal/network/packet.go:65-107 | two readings of the same bytes return the same frames and remainder |
| PacketStream.BufferAfter | internal/network/packet.go:69-97 | the remainder never exceeds 64 KiB or its initial length, and is empty after a frame read from an empty buffer |
| PacketStream.ReadLoop | internal/network/conn.go:153-178 | whatever the fragmentation, hands on the frames of the stream in order, all of those read or as many as the channel takes and one more, until a read fails, a length is not allowed, or the connection closes |
| PacketStream.ReadLoopUndrained | internal/network/conn.go:172-176 | a connection whose channel nothing empties handles at most 65 frames, the first of its stream |
| RedisText.FillDigits | internal/db/redis.go:121-127 | the digit loop stays inside its 20 bytes and leaves the decimal digits |
| RedisText.AppendInt64 | internal/db/redis.go:113-129 | appends the text of the number, for the smallest integer a bare sign |
| RedisText.FormatInt64 | internal/db/redis.go:108-111 | the text of the number |
| RedisText.ParseInt | internal/db/redis.go:162-181 | the number a text stands for, with wrap-around |
| RedisText.NoWrap | internal/db/redis.go:172-176 | no intermediate value wraps if the number fits |
| RedisText.IntRoundTripIff | internal/db/redis.go:108-181 | a number comes back from its text exactly if it is not the smallest integer |
| RedisText.IntTextInjective | internal/db/redis.go:108-129 | different integers, the smallest included, have different texts: no two roles share a key |
| RedisText.ParseFloat | internal/db/redis.go:131-160 | the two loops compute whole and fractional part and the power of ten, and no number without a point |
| RedisText.FloatOfDecimal | internal/db/redis.go:131-160 | with a point, the parsed number is exactly the positional value, for any number of digits |
| RedisText.DigitBytes | internal/db/redis.go:121-127 | each byte of a number's text is 48 plus its decimal digit there |
| RedisText.TextExamples | internal/db/redis.go:108-181 | the bytes of 150.5, -2.25, 100 and -120, and what they read back as |
| RedisText.ReadsBackIff | internal/db/redis.go:141-155 | the text of a coordinate reads back exactly if it has digits after the point |
| RedisText.NoFractionIffWhole | internal/db/redis.go:77-84 | the numeral of a coordinate has no digits after the point exactly if the coordinate is whole |
| RedisText.ReadsBackIffNotWhole | internal/db/redis.go:131-160 | so a coordinate comes back from the cache exactly if it is not whole |
| LobbyServer.Manager.SetPosition | internal/db/redis.go:77-84 | caches the position and map of one role and of no other, under its text key |
| LobbyServer.Manager.GetPosition | internal/db/redis.go:87-99 | the cached position as its texts parse, or that there is none |
| LobbyServer.Manager.DelPosition | internal/db/redis.go:102-104 | forgets the position of one role and of no other |
| LobbyServer.Manager.CreateRole | internal/db/manager.go:90-109 | a fourth role of an account and a second role of a name are refused |
| LobbyServer.Manager.SyncPosition | internal/db/manager.go:188-198 | writes the listed positions back, one after the other |
| LobbyServer.SceneAPI.HandleMove | internal/scene/server.go:203-255 | the role's place and cached position become the clamped position in the map it was found in |
| LobbyServer.Lobby.HandleCreateRole | internal/lobby/server.go:247-298 | takes the step of creating a role, with the answer of the first check that fails: session, name, fewer than three roles |
| LobbyServer.Lobby.HandleEnterScene | internal/lobby/server.go:302-346 | takes the step of entering; accepted exactly if the session's account owns the role, else answered by which of the two failed; counts as a sign of life |
| LobbyServer.Lobby.HandleReconnect | internal/lobby/server.go:350-405 | takes the step of reconnecting; accepted and answered in the same way |
| LobbyServer.Lobby.Authorize | internal/lobby/server.go:309-323 | accepts exactly the sessions whose account owns the role |
| LobbyServer.Lobby.BindRole | internal/lobby/server.go:326-329 | binds exactly this connection to the role, under the account whose session was checked, and renews its heartbeat |
| LobbyServer.Lobby.SignOff | internal/lobby/server.go:425-434 | the position is saved, then no longer cached, and map 0 is asked to let go |
| LobbyServer.Lobby.HandleLogout | internal/lobby/server.go:409-454 | takes the step of logging out: the session is gone and the connection has neither session nor role |
| LobbyServer.Lobby.TimeOut | internal/lobby/server.go:116-136 | cleans up one overdue connection, closes it, and leaves it in a table that is locked from then on |
| LobbyServer.Lobby.CheckHeartbeatTimeouts | internal/lobby/server.go:110-140 | one connection in use whose heartbeat is more than thirty seconds old times out if there is any, whichever comes first, and no other |
| LobbyServer.Lobby.AddConn | internal/network/server.go:94-98 | a connection comes into the table unless it is locked |
| LobbyServer.Lobby.RemoveConn | internal/network/server.go:100-104 | a connection goes out of the table unless it is locked |
| LobbyServer.Lobby.HandleMove | internal/lobby/server.go:458-468 | takes the step of moving |
| LobbyRuns.ReadBack | internal/db/redis.go:87-99 | in every reachable state a cached position reads back as the one that was written, but for coordinates that are whole |
| LobbyRuns.StepInOrder | internal/lobby/server.go:110-468 | every step keeps the invariants of roles, connections, maps and cached texts |
| LobbyRuns.RunInOrder | internal/lobby/server.go:110-468 | over every run: at most three roles per account, unique names, connections in a scene bound to a role owned by the account of the session that was checked, one map per role, and every cached role in the scene |
| LobbyRuns.KeepsTable | internal/network/server.go:94-104 | only adding and removing a connection change who is in the table, and only a sweep locks it |
| Sessions.StepTold | internal/lobby/server.go:110-454 | every step starts and ends exactly what it should of accounts, roles, sessions and the use of connections |
| Sessions.FactIff | internal/lobby/server.go:110-454 | over every run, a token is a session exactly since it was issued and until it is logged out with, expires, or times out on a connection that has it; and alike for accounts, roles, and which session and role a connection has |
| Sessions.CreatedIff | internal/lobby/server.go:255-283 | a role is created exactly for a session whose account has fewer than three, under a name nobody has |
| Sessions.NoSessionNoStep | internal/lobby/server.go:255-419 | without a session, creating a role, entering, reconnecting and logging out change nothing |
| Sessions.EndedForGood | internal/lobby/server.go:438 | so once it has ended, by logging out, expiring or timing out, it serves for none of these until it is issued again |
| Positions.MoveIsNearest | internal/scene/server.go:209-255 | an accepted move takes the role, in its scene and as its last position, to the place of the map nearest to the request |
| Positions.StepFollowed | internal/lobby/server.go:110-468 | scene and cache go on holding the last accepted position of a role through every step in which the role's own accepted move, if it is one, is cached |
| Positions.RunFollowed | internal/lobby/server.go:110-468 | so from any point of any run on, as long as its own accepted moves are cached, whoever else moves or times out; whole coordinates may be lost in the scene |
| Positions.WriteFollows | internal/scene/server.go:253-255 | from any reachable state, an entry at the row and a cached move bring this about |
| Positions.FollowedUntilLocked | internal/lobby/server.go:110-468 | until a sweep has closed a connection it holds of all roles |
| LobbyRuns.NeverLeaves | internal/lobby/server.go:123-130 | no run takes a role out of its scene again |
| WriteBack.SavedIff | internal/lobby/server.go:426-434 | in every reachable state, signing off leaves the last position stored exactly if it is what is cached, where that has no whole coordinate, and else if it was stored already |
| WriteBack.FollowedSavedIff | internal/lobby/server.go:426-434 | for a role whose accepted moves were cached, exactly if it is cached and no coordinate is whole, or it was stored already |
| WriteBack.LogoutThenEnter | internal/lobby/server.go:302-454 | in any run, signing off and entering again later restores the last accepted position under exactly the condition of SavedIff, whatever the others do before, in between, or to the table |
| WriteBack.CachedLogoutThenEnter | internal/lobby/server.go:302-454 | and under exactly that of FollowedSavedIff if the role's own accepted moves were cached |
| WriteBack.RowStaysInRun | internal/lobby/server.go:110-468 | the row of a role that is not cached changes only by its own entries and moves |
| WriteBack.ReconnectIff | internal/lobby/server.go:385-395 | in every reachable state, reconnecting a cached role restores the last accepted position exactly if that is what is cached and no coordinate is whole |
| WriteBack.NewRoleLosesPosition | internal/db/manager.go:98-104 | a new role that enters and reconnects is left without a position |
| NewRole.EntersAndReconnects | internal/lobby/server.go:302-405 | so every run that has just created a role goes on to one in which it is at no position |
| NewRole.NewRoleExample | internal/lobby/server.go:144-405 | a run from nothing that does: register, connect, log in, create, enter, reconnect |
| WriteBack.MoveCoheresIff | internal/scene/server.go:209-255 | from any reachable state an accepted move that is cached brings scene, cache and database to agree on the role exactly if no coordinate is whole |
| WriteBack.EnterCoheresIff | internal/lobby/server.go:331-337 | the same for an entry, by the coordinates of its row |
| WriteBack.StepCoherent | internal/lobby/server.go:110-468 | every step keeps them in agreement on a role if the role's own entry or move, if it is one, is cached and has no whole coordinate |
| WriteBack.RunCoherent | internal/lobby/server.go:110-468 | from any point of any run on the cached position of a role, or else the stored one, is the scene's as long as its own entries and moves are cached and have no whole coordinate |
| WriteBack.CoherentFromMove | internal/lobby/server.go:110-468 | in particular from its first accepted move of that kind on, new roles included |
| LobbyBatches.WrittenBackAllAt | internal/db/manager.go:188-198 | a batch write-back treats each listed role by itself, whatever order and repetitions |
| LobbyBatches.SyncPositionIff | internal/db/manager.go:188-198 | in every reachable state, after a batch the database has the last position of a role exactly as after signing off, if the role is listed, and else if it had it before |
| LobbyBatches.SweepIgnoresOrder | internal/lobby/server.go:110-140 | as it is meant, cleaning up and removing every overdue connection, a sweep comes to the same in every order |
| LobbyBatches.SweepStops | internal/network/server.go:130-138 | as it is, which `TableLock.SweepGoes` derives from the lock, all connections stay in the table, and all but the first overdue one stay in use |
| LobbyBatches.SweepAsMeantIff | internal/lobby/server.go:110-140 | the sweep does what it is meant to exactly if no heartbeat is overdue |
| LobbyBatches.OrderMattersIff | internal/lobby/server.go:110-140 | the order in which it visits the connections matters exactly if two different ones are overdue |
| TableLock.StepShown | internal/network/server.go:94-138 | every step of readers, writers and the sweep under the lock is a step of the lobby or leaves it alone, and the sweep never gets the write lock |
| TableLock.RunShown | internal/network/server.go:94-138 | so every run under the lock is a run of the lobby, in which a locked table is one that the sweep waits to write to |
| TableLock.ClosingIsForGood | internal/lobby/server.go:110-140 | once the sweep waits to take a connection out it waits for good: the table keeps all connections, no waiting writer gets further, and from when one has announced itself no new reader is let in |
| TableLock.OneTimeout | internal/lobby/server.go:110-140 | so in every run one connection times out at most, and after it none comes or goes |
| TableLock.SweepGoes | internal/network/server.go:130-138 | a sweep that has gone as far as it can, whatever other threads do about the lock, got through if nobody was overdue, and else has cleaned up exactly the first who was and is stuck with it |
| LobbyViews.OrderlyIsAdmissible | internal/lobby/server.go:326-395 | an entry while the table is open, on a connection of its own, new or the role's already, and within the cell of a role that is in the scene, keeps all views true |
| LobbyViews.CoherentReconnectIsOrderly | internal/lobby/server.go:385-395 | reconnecting puts a role on which all agree back where it is, so only its connection matters |
| LobbyViews.EnterAgainIff | internal/lobby/server.go:326-337 | entering again at the row, on an unused connection, is admissible exactly if it is not taken and no one who sees the role would lose sight of it |
| LobbyViews.EntryKeepsStep | internal/lobby/server.go:326-395 | after an entry lobby and service have every role at the same place and on the same connection |
| LobbyViews.GetsThrough | internal/scene/server.go:221-255 | no move has to search the table, because the service has a connection for everybody in the scene |
| LobbyViews.StepTogether | internal/lobby/server.go:110-468 | every step of the lobby with an orderly entry, or none, keeps both in step and all views true |
| LobbyViews.LobbyRunsKeepViews | internal/lobby/server.go:110-468 | over every run of lobby and service whose entries are orderly, both agree on every position and each client sees exactly the players around its own |
| LobbyViews.OrderlyRunsFollow | internal/scene/server.go:221-255 | over these runs every move reaches the cache, also when a sweep has locked the table, and cache and scene hold every role's last accepted position |

## Left out

- Sockets, goroutines, channels and timers: no claim about delivery or shutdown is made; a message counts as sent when it is handed to the connection, and of waiting only that for the table's lock is modelled.
- Concurrency beyond the two locks of a scene: the view theorem is about calls that run one at a time, and the background write of a moved position is applied in order, as part of the move.
- Protobuf: bodies are bytes in `Packets` and records elsewhere; responses are reduced to their error codes.
- MySQL, Redis, bcrypt and random tokens as such: tables with unique keys that do not fail; online status, registering and logging in appear only as far as sessions need them.
- IEEE floating point: rounding, infinities, and not-a-number in requests.
- The lobby's search for a role's connection: a table with one connection per role in `AoiWorld`; with two the result depends on the order of the search, so `LobbyViews.Exclusive` asks for one, and `SecondConnection` has the exact condition with one result per call.
- SceneServer.Server.PlayerEnterScene: coordinates are numbers, so it does not model the reconnect of a role whose cached position reads back as none, because Go leaves the cell of not-a-number to the implementation; `LobbyViews` counts such an entry as not orderly.
- Sharing between slices: buffers that overlap in memory are values here.
- The load generator, configuration, message names and logging: nothing in them is hard.
- Geometry.CellsCoverSide: for whole-number sizes, because the remainder test of the source drops fractions; CoversIff has the exact condition for the others.
- Grid.GridAOI.constructor: grid sizes of at least 1 and sides that give at least one cell, because the source divides by zero or indexes an empty matrix otherwise.
- PacketStream.ReadLoop: how many frames the channel takes before the connection closes is a parameter; waiting is not modelled.
- TableLock.StepShown: a handler is one step that waits for nothing; that a move may have to look for a connection and then waits for good is `reached` in `LobbyModel.Event`.
- LobbyServer.SceneAPI.HandleMove: only positions and the cache, because SceneServer has the index and the messages; the limiter's answer is a parameter here and the limiter's own in `LobbyViews.ServiceStep`.
