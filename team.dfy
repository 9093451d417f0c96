/** A team: a capacity-bounded roster of player ids, a running score and the
    AI personality another team assigned to it. */
module Teams {
  import opened Common
  import Seqs

  /** Roster capacity of a team created without an explicit `max_players`. */
  const DefaultMaxPlayers: int := 3

  class Team {
    const id: string
    const name: string
    const color: string
    var playerIds: seq<string>
    var score: int
    var assignedPersonality: Option<string>
    var personalityAssignedBy: Option<string>
    const maxPlayers: int

    /** The capacity invariant: the roster holds at most `maxPlayers` ids.
        Construction does not check it; `AddPlayer` keeps it. */
    ghost predicate WithinCapacity()
      reads this
    {
      |playerIds| <= maxPlayers
    }

    constructor (id: string, name: string, color: string,
                 playerIds: seq<string> := [], score: int := 0,
                 assignedPersonality: Option<string> := None,
                 personalityAssignedBy: Option<string> := None,
                 maxPlayers: int := DefaultMaxPlayers)
      ensures this.id == id && this.name == name && this.color == color
      ensures this.playerIds == playerIds && this.score == score
      ensures this.assignedPersonality == assignedPersonality
      ensures this.personalityAssignedBy == personalityAssignedBy
      ensures this.maxPlayers == maxPlayers
    {
      this.id := id;
      this.name := name;
      this.color := color;
      this.playerIds := playerIds;
      this.score := score;
      this.assignedPersonality := assignedPersonality;
      this.personalityAssignedBy := personalityAssignedBy;
      this.maxPlayers := maxPlayers;
    }

    /** A team is full when no further player fits under its capacity. */
    function IsFull(): bool
      reads this
    {
      |playerIds| >= maxPlayers
    }

    /** Appends `playerId` to the roster, or raises when the team is full. */
    method AddPlayer(playerId: string) returns (r: Outcome<DomainError>)
      modifies this`playerIds
      ensures r.Fail? <==> old(IsFull())
      ensures r.Fail? ==> r.error == TeamFull(maxPlayers)
      ensures playerIds == if r.Pass? then old(playerIds) + [playerId] else old(playerIds)
      ensures old(WithinCapacity()) ==> WithinCapacity()
    {
      if IsFull() {
        return Fail(TeamFull(maxPlayers));
      }
      playerIds := playerIds + [playerId];
      return Pass;
    }

    /** Deletes the first occurrence of `playerId`, or raises when it is not on the roster. */
    method RemovePlayer(playerId: string) returns (r: Outcome<DomainError>)
      modifies this`playerIds
      ensures r.Fail? <==> playerId !in old(playerIds)
      ensures r.Fail? ==> r.error == PlayerNotOnTeam(playerId)
      ensures playerIds == Seqs.RemoveFirst(old(playerIds), playerId)
      ensures multiset(playerIds) == old(multiset(playerIds)) - multiset{playerId}
      ensures old(WithinCapacity()) ==> WithinCapacity()
    {
      Seqs.RemoveFirstMultiset(playerIds, playerId);
      if playerId !in playerIds {
        return Fail(PlayerNotOnTeam(playerId));
      }
      playerIds := Seqs.RemoveFirst(playerIds, playerId);
      return Pass;
    }

    /** Adds `points` (of either sign, unclamped) to the cumulative score. */
    method AddScore(points: int)
      modifies this`score
      ensures score == old(score) + points
    {
      score := score + points;
    }

    /** Records the personality given to this team and the team that chose it. */
    method AssignPersonality(personalityId: string, assignedBy: string)
      modifies this`assignedPersonality, this`personalityAssignedBy
      ensures assignedPersonality == Some(personalityId)
      ensures personalityAssignedBy == Some(assignedBy)
    {
      assignedPersonality := Some(personalityId);
      personalityAssignedBy := Some(assignedBy);
    }
  }

  /** The capacity rule at the default capacity: a new team is not full after
      two players, is full after the third, and refuses a fourth player, whose
      addition leaves the roster at three ids. */
  method DefaultCapacityScenario(id: string, name: string, color: string,
                                 p1: string, p2: string, p3: string, p4: string)
    returns (fullAfterTwo: bool, fullAfterThree: bool, fourth: Outcome<DomainError>, rosterSize: nat)
    ensures !fullAfterTwo && fullAfterThree
    ensures fourth == Fail(TeamFull(3))
    ensures rosterSize == 3
  {
    var team := new Team(id, name, color);
    var r := team.AddPlayer(p1);
    r := team.AddPlayer(p2);
    fullAfterTwo := team.IsFull();
    r := team.AddPlayer(p3);
    fullAfterThree := team.IsFull();
    fourth := team.AddPlayer(p4);
    rosterSize := |team.playerIds|;
  }
}
