/** The game aggregate: room code, lifecycle status, settings, the ordered
    teams and players, the rounds played and the round counter that drives
    the round-robin choice of the acting team. */
module Games {
  import opened Common
  import Seqs
  import opened Players
  import opened Teams
  import opened Rounds

  datatype GameStatus = Lobby | PersonalitySelection | Playing | Finished

  datatype ContentTone = Family | Adult

  datatype GameSettings = GameSettings(
    roundsPerTeam: int := 3,
    guessTimerSeconds: int := 60,
    maxPlayersPerTeam: int := 3,
    contentTone: ContentTone := Family)

  /** Room codes are 4 to 6 characters long. */
  predicate ValidRoomCode(code: string)
  {
    4 <= |code| <= 6
  }

  function PlayerIds(players: seq<Player>): (ids: seq<string>)
    ensures |ids| == |players|
    ensures forall i :: 0 <= i < |players| ==> ids[i] == players[i].id
  {
    seq(|players|, i requires 0 <= i < |players| => players[i].id)
  }

  function TeamIds(teams: seq<Team>): (ids: seq<string>)
    ensures |ids| == |teams|
    ensures forall i :: 0 <= i < |teams| ==> ids[i] == teams[i].id
  {
    seq(|teams|, i requires 0 <= i < |teams| => teams[i].id)
  }

  /** Position among `n` teams of the team acting in round `round`: Python's
      `round % n`, which for a positive `n` is never negative, like Dafny's. */
  function ActingIndex(round: int, n: nat): (i: nat)
    requires n > 0
    ensures i < n
  {
    round % n
  }

  /** The acting teams of rounds 0 .. rounds-1, in order. */
  function ActingOrder<T>(teams: seq<T>, rounds: nat): (order: seq<T>)
    requires |teams| > 0
    ensures |order| == rounds
  {
    if rounds == 0 then []
    else ActingOrder(teams, rounds - 1) + [teams[ActingIndex(rounds - 1, |teams|)]]
  }

  /** `teams` listed `times` times over, one pass after another. */
  function Repeat<T>(teams: seq<T>, times: nat): (r: seq<T>)
  {
    if times == 0 then [] else Repeat(teams, times - 1) + teams
  }

  /** Euclidean division is unique: a quotient and a remainder in [0, n) that
      rebuild `x` are the ones `/` and `%` give. */
  lemma DivModUnique(x: int, n: int, q: int, r: int)
    requires n > 0 && 0 <= r < n && x == q * n + r
    ensures x / n == q && x % n == r
  {
    var q', r' := x / n, x % n;
    assert (q - q') * n == r' - r;
    MultipleBounds(q - q', n);
  }

  lemma MultipleBounds(d: int, n: int)
    requires n > 0
    ensures d >= 1 ==> d * n >= n
    ensures d <= -1 ==> d * n <= -n
  {
  }

  /** Within a cycle the teams act in list order. */
  lemma {:induction false} ActingOrderPartialCycle<T>(teams: seq<T>, cycles: nat, k: nat)
    requires |teams| > 0 && k <= |teams|
    ensures ActingOrder(teams, cycles * |teams| + k) == ActingOrder(teams, cycles * |teams|) + teams[..k]
  {
    if k > 0 {
      ActingOrderPartialCycle(teams, cycles, k - 1);
      DivModUnique(cycles * |teams| + (k - 1), |teams|, cycles, k - 1);
      assert teams[..k] == teams[..k - 1] + [teams[k - 1]];
    }
  }

  /** Round robin: over `cycles` times as many rounds as there are teams, the
      acting teams are the team list repeated `cycles` times, in order. */
  lemma {:induction false} RoundRobinRepeats<T>(teams: seq<T>, cycles: nat)
    requires |teams| > 0
    ensures ActingOrder(teams, cycles * |teams|) == Repeat(teams, cycles)
  {
    if cycles > 0 {
      RoundRobinRepeats(teams, cycles - 1);
      ActingOrderPartialCycle(teams, cycles - 1, |teams|);
      assert (cycles - 1) * |teams| + |teams| == cycles * |teams|;
      assert teams[..|teams|] == teams;
    }
  }

  lemma {:induction false} RepeatCounts<T>(teams: seq<T>, times: nat, t: T)
    ensures multiset(Repeat(teams, times))[t] == times * multiset(teams)[t]
  {
    if times > 0 {
      RepeatCounts(teams, times - 1, t);
      assert multiset(Repeat(teams, times)) == multiset(Repeat(teams, times - 1)) + multiset(teams);
      assert times * multiset(teams)[t] == (times - 1) * multiset(teams)[t] + multiset(teams)[t];
    }
  }

  lemma {:induction false} DistinctCountsOnce<T>(teams: seq<T>, t: T)
    requires forall i, j :: 0 <= i < j < |teams| ==> teams[i] != teams[j]
    requires t in teams
    ensures multiset(teams)[t] == 1
  {
    if teams[0] == t {
      assert t !in teams[1..];
    } else {
      DistinctCountsOnce(teams[1..], t);
    }
    assert teams == [teams[0]] + teams[1..];
  }

  /** Fairness of a whole game: over `cycles` times as many rounds as there are
      distinct teams, every team acts exactly `cycles` times. */
  lemma ScheduleIsFair<T>(teams: seq<T>, cycles: nat, t: T)
    requires |teams| > 0 && forall i, j :: 0 <= i < j < |teams| ==> teams[i] != teams[j]
    requires t in teams
    ensures multiset(ActingOrder(teams, cycles * |teams|))[t] == cycles
  {
    RoundRobinRepeats(teams, cycles);
    RepeatCounts(teams, cycles, t);
    DistinctCountsOnce(teams, t);
  }

  /** Over 2N rounds each of N distinct teams acts exactly twice, in list order. */
  lemma EachTeamActsTwice<T>(teams: seq<T>, t: T)
    requires |teams| > 0 && forall i, j :: 0 <= i < j < |teams| ==> teams[i] != teams[j]
    requires t in teams
    ensures ActingOrder(teams, 2 * |teams|) == teams + teams
    ensures multiset(ActingOrder(teams, 2 * |teams|))[t] == 2
  {
    RoundRobinRepeats(teams, 2);
    assert Repeat(teams, 1) == teams;
    assert Repeat(teams, 2) == teams + teams;
    assert 2 * |teams| == |teams| * 2;
    DistinctCountsOnce(teams, t);
    assert multiset(teams + teams) == multiset(teams) + multiset(teams);
  }

  /** After the last team the first one acts again. */
  lemma ActingIndexAdvances(round: int, n: nat)
    requires n > 0
    ensures ActingIndex(round + 1, n) == if ActingIndex(round, n) == n - 1 then 0 else ActingIndex(round, n) + 1
  {
    var q, r := round / n, round % n;
    if r == n - 1 {
      assert round + 1 == (q + 1) * n + 0;
      DivModUnique(round + 1, n, q + 1, 0);
    } else {
      DivModUnique(round + 1, n, q, r + 1);
    }
  }

  class Game {
    const id: string
    const roomCode: string
    var status: GameStatus
    var settings: GameSettings
    var teams: seq<Team>
    var players: seq<Player>
    var rounds: seq<Round>
    var currentRound: int
    const createdAt: Instant

    constructor (id: string, roomCode: string, createdAt: Instant, status: GameStatus,
                 settings: GameSettings, teams: seq<Team>, players: seq<Player>,
                 rounds: seq<Round>, currentRound: int)
      requires ValidRoomCode(roomCode)
      ensures this.id == id && this.roomCode == roomCode && this.createdAt == createdAt
      ensures this.status == status && this.settings == settings
      ensures this.teams == teams && this.players == players && this.rounds == rounds
      ensures this.currentRound == currentRound
    {
      this.id := id;
      this.roomCode := roomCode;
      this.createdAt := createdAt;
      this.status := status;
      this.settings := settings;
      this.teams := teams;
      this.players := players;
      this.rounds := rounds;
      this.currentRound := currentRound;
    }

    /** Game construction: succeeds exactly when the room code has 4 to 6
        characters. A new game is in the lobby with default settings, no teams,
        players or rounds, at round 0, unless the caller says otherwise. */
    static method Create(id: string, roomCode: string, createdAt: Instant,
                         status: GameStatus := Lobby, settings: GameSettings := GameSettings(),
                         teams: seq<Team> := [], players: seq<Player> := [],
                         rounds: seq<Round> := [], currentRound: int := 0)
      returns (r: Result<Game, DomainError>)
      ensures r.Failure? <==> !(4 <= |roomCode| <= 6)
      ensures r.Failure? ==> r.error == InvalidRoomCode
      ensures r.Success? ==> fresh(r.value)
      ensures r.Success? ==> r.value.id == id && r.value.roomCode == roomCode
      ensures r.Success? ==> r.value.status == status && r.value.settings == settings
      ensures r.Success? ==> r.value.teams == teams && r.value.players == players
      ensures r.Success? ==> r.value.rounds == rounds && r.value.currentRound == currentRound
      ensures r.Success? ==> r.value.createdAt == createdAt
    {
      if !ValidRoomCode(roomCode) {
        return Failure(InvalidRoomCode);
      }
      var g := new Game(id, roomCode, createdAt, status, settings, teams, players, rounds, currentRound);
      return Success(g);
    }

    /** Position of the first player with id `playerId`. */
    function PlayerIndex(playerId: string): Option<nat>
      reads this
    {
      Seqs.IndexOf(PlayerIds(players), playerId)
    }

    /** Position of the first team with id `teamId`. */
    function TeamIndex(teamId: string): Option<nat>
      reads this
    {
      Seqs.IndexOf(TeamIds(teams), teamId)
    }

    /** Appends a player; duplicate ids are not checked. */
    method AddPlayer(player: Player)
      modifies this`players
      ensures players == old(players) + [player]
    {
      players := players + [player];
    }

    /** The first player with id `playerId`, or an error when none has it. */
    method GetPlayer(playerId: string) returns (r: Result<Player, DomainError>)
      ensures r.Failure? <==> playerId !in PlayerIds(players)
      ensures r.Failure? ==> r.error == PlayerNotFound(playerId)
      ensures r.Success? ==> r.value.id == playerId
      ensures r.Success? ==> PlayerIndex(playerId).Some? && r.value == players[PlayerIndex(playerId).value]
    {
      var i := 0;
      while i < |players|
        invariant 0 <= i <= |players|
        invariant playerId !in PlayerIds(players)[..i]
      {
        if players[i].id == playerId {
          Seqs.IndexOfIsFirst(PlayerIds(players), playerId, i);
          return Success(players[i]);
        }
        assert PlayerIds(players)[..i + 1] == PlayerIds(players)[..i] + [players[i].id];
        i := i + 1;
      }
      assert PlayerIds(players)[..i] == PlayerIds(players);
      return Failure(PlayerNotFound(playerId));
    }

    /** Removes the first player with id `playerId`, keeping the order of the
        others, or raises and changes nothing when no player has that id. */
    method RemovePlayer(playerId: string) returns (r: Outcome<DomainError>)
      modifies this`players
      ensures r.Fail? <==> playerId !in PlayerIds(old(players))
      ensures r.Fail? ==> r.error == PlayerNotFound(playerId)
      ensures r.Fail? ==> players == old(players)
      ensures r.Pass? ==> old(PlayerIndex(playerId)).Some?
      ensures r.Pass? ==> players == Seqs.RemoveAt(old(players), old(PlayerIndex(playerId)).value)
    {
      var found := GetPlayer(playerId);
      if found.Failure? {
        return Fail(found.error);
      }
      // `list.remove` drops the first entry equal to the player found; every
      // entry before it has another id, so that is the entry found.
      var i := PlayerIndex(playerId).value;
      Seqs.IndexOfIsFirst(players, found.value, i);
      players := Seqs.RemoveFirst(players, found.value);
      return Pass;
    }

    /** Appends a team; duplicate ids are not checked. */
    method AddTeam(team: Team)
      modifies this`teams
      ensures teams == old(teams) + [team]
    {
      teams := teams + [team];
    }

    /** The first team with id `teamId`, or an error when none has it. */
    method GetTeam(teamId: string) returns (r: Result<Team, DomainError>)
      ensures r.Failure? <==> teamId !in TeamIds(teams)
      ensures r.Failure? ==> r.error == TeamNotFound(teamId)
      ensures r.Success? ==> r.value.id == teamId
      ensures r.Success? ==> TeamIndex(teamId).Some? && r.value == teams[TeamIndex(teamId).value]
    {
      var i := 0;
      while i < |teams|
        invariant 0 <= i <= |teams|
        invariant teamId !in TeamIds(teams)[..i]
      {
        if teams[i].id == teamId {
          Seqs.IndexOfIsFirst(TeamIds(teams), teamId, i);
          return Success(teams[i]);
        }
        assert TeamIds(teams)[..i + 1] == TeamIds(teams)[..i] + [teams[i].id];
        i := i + 1;
      }
      assert TeamIds(teams)[..i] == TeamIds(teams);
      return Failure(TeamNotFound(teamId));
    }

    /** Removes the first team with id `teamId`, keeping the order of the
        others, or raises and changes nothing when no team has that id. */
    method RemoveTeam(teamId: string) returns (r: Outcome<DomainError>)
      modifies this`teams
      ensures r.Fail? <==> teamId !in TeamIds(old(teams))
      ensures r.Fail? ==> r.error == TeamNotFound(teamId)
      ensures r.Fail? ==> teams == old(teams)
      ensures r.Pass? ==> old(TeamIndex(teamId)).Some?
      ensures r.Pass? ==> teams == Seqs.RemoveAt(old(teams), old(TeamIndex(teamId)).value)
    {
      var found := GetTeam(teamId);
      if found.Failure? {
        return Fail(found.error);
      }
      var i := TeamIndex(teamId).value;
      Seqs.IndexOfIsFirst(teams, found.value, i);
      teams := Seqs.RemoveFirst(teams, found.value);
      return Pass;
    }

    /** Starts play, allowed only from the lobby; from any other status it
        raises and the status stays as it was. */
    method Start() returns (r: Outcome<DomainError>)
      modifies this`status
      ensures r.Pass? <==> old(status) == Lobby
      ensures r.Fail? ==> r.error == NotInLobby
      ensures status == if old(status) == Lobby then Playing else old(status)
    {
      if status != Lobby {
        return Fail(NotInLobby);
      }
      status := Playing;
      return Pass;
    }

    /** Ends the game, from any status. */
    method Finish()
      modifies this`status
      ensures status == Finished
    {
      status := Finished;
    }

    /** Enters personality selection, from any status. */
    method SetPersonalitySelectionPhase()
      modifies this`status
      ensures status == PersonalitySelection
    {
      status := PersonalitySelection;
    }

    /** Moves on to the next round: the next team in list order acts, the
        first one again after the last. */
    method NextRound()
      modifies this`currentRound
      ensures currentRound == old(currentRound) + 1
      ensures teams != [] ==>
                ActingIndex(currentRound, |teams|)
                == if ActingIndex(old(currentRound), |teams|) == |teams| - 1 then 0
                   else ActingIndex(old(currentRound), |teams|) + 1
    {
      if teams != [] {
        ActingIndexAdvances(currentRound, |teams|);
      }
      currentRound := currentRound + 1;
    }

    /** How many rounds the game lasts: every team acts `roundsPerTeam` times. */
    function TotalRounds(): int
      reads this
    {
      |teams| * settings.roundsPerTeam
    }

    /** All rounds have been played once the counter reaches the total. A game
        that is not complete and whose counter is not negative has teams, so
        it has an acting team. */
    function IsComplete(): (complete: bool)
      reads this
      ensures !complete && currentRound >= 0 ==> teams != [] && settings.roundsPerTeam > 0
      ensures !complete <==> currentRound < TotalRounds()
    {
      currentRound >= TotalRounds()
    }

    /** The team acting this round: round robin over the team list. Raises when
        there are no teams. */
    function ActingTeam(): (r: Result<Team, DomainError>)
      reads this
      ensures r.Failure? <==> teams == []
      ensures r.Failure? ==> r.error == NoTeams
      ensures r.Success? ==> r.value in teams
      ensures r.Success? ==> r.value == teams[ActingIndex(currentRound, |teams|)]
      ensures r.Success? && currentRound >= 0 ==> r.value == ActingOrder(teams, currentRound + 1)[currentRound]
    {
      if teams == [] then Failure(NoTeams)
      else Success(teams[ActingIndex(currentRound, |teams|)])
    }

    /** Over the whole game, from round 0 to TotalRounds() - 1, the acting
        teams are the team list repeated `roundsPerTeam` times, in order. */
    lemma FullScheduleIsRoundRobin()
      requires teams != [] && settings.roundsPerTeam >= 0
      ensures ActingOrder(teams, TotalRounds()) == Repeat(teams, settings.roundsPerTeam)
    {
      assert TotalRounds() == settings.roundsPerTeam * |teams|;
      RoundRobinRepeats(teams, settings.roundsPerTeam);
    }
  }
}
