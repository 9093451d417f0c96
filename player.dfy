/** A player: identity, display name, the socket it is connected through,
    and the team it belongs to, if any. */
module Players {
  import opened Common

  class Player {
    const id: string
    const name: string
    var socketId: string
    var teamId: Option<string>
    const isCreator: bool
    const joinedAt: Instant

    constructor (id: string, name: string, socketId: string, joinedAt: Instant,
                 teamId: Option<string> := None, isCreator: bool := false)
      ensures this.id == id && this.name == name && this.socketId == socketId
      ensures this.teamId == teamId && this.isCreator == isCreator
      ensures this.joinedAt == joinedAt
    {
      this.id := id;
      this.name := name;
      this.socketId := socketId;
      this.teamId := teamId;
      this.isCreator := isCreator;
      this.joinedAt := joinedAt;
    }

    /** Puts the player on team `teamId`. */
    method AssignToTeam(teamId: string)
      modifies this`teamId
      ensures this.teamId == Some(teamId)
    {
      this.teamId := Some(teamId);
    }

    /** Leaves the player without a team, whatever team it had. */
    method RemoveFromTeam()
      modifies this`teamId
      ensures teamId == None
    {
      teamId := None;
    }

    /** Records the new connection after a reconnect. */
    method UpdateSocketId(socketId: string)
      modifies this`socketId
      ensures this.socketId == socketId
    {
      this.socketId := socketId;
    }
  }
}
