/** Shared vocabulary of the domain layer: optional values, results of
    operations that can raise, the errors the domain raises, and instants. */
module Common {

  datatype Option<+T> = None | Some(value: T)

  /** The value of an operation that either returns or raises. */
  datatype Result<+T, +E> = Success(value: T) | Failure(error: E)

  /** The outcome of an operation that returns nothing or raises. */
  datatype Outcome<+E> = Pass | Fail(error: E)

  /** Every `ValueError` the domain entities raise, one variant per message. */
  datatype DomainError =
    | TeamFull(maxPlayers: int)            // "Team is full (max N players)"
    | PlayerNotOnTeam(playerId: string)    // "Player P not on team"
    | InvalidRoomCode                      // "Room code must be 4-6 characters"
    | PlayerNotFound(playerId: string)     // "Player P not found"
    | TeamNotFound(teamId: string)         // "Team T not found"
    | NotInLobby                           // "Game must be in LOBBY status to start"
    | NoTeams                              // "No teams in game"
    | NoRoleAssigned(playerId: string)     // "Player P not assigned a role in this round"
    | NoRoles                              // "Script must have at least one role"
    | EmptyId                              // "ID cannot be empty"
    | EmptyName                            // "Name cannot be empty"
    | EmptySystemPrompt                    // "System prompt cannot be empty"

  /** A wall-clock reading in seconds since the epoch. The domain never
      inspects one; callers supply it where the source reads the clock. */
  type Instant = real
}
