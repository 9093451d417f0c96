/** One round of play: the acting team's prompt and script, the other teams'
    guesses, the personality guess and the points scored in the round. */
module Rounds {
  import opened Common
  import opened Scripts

  /** A team's guess at the acting team's prompt. */
  class Guess {
    const teamId: string
    const guess: string
    const timestamp: Instant
    var accepted: bool

    constructor (teamId: string, guess: string, timestamp: Instant, accepted: bool := false)
      ensures this.teamId == teamId && this.guess == guess
      ensures this.timestamp == timestamp && this.accepted == accepted
    {
      this.teamId := teamId;
      this.guess := guess;
      this.timestamp := timestamp;
      this.accepted := accepted;
    }

    /** Marks the guess accepted; accepting twice is the same as once. */
    method Accept()
      modifies this`accepted
      ensures accepted
    {
      accepted := true;
    }
  }

  /** Points a score map gives `teamId`: its entry, or 0 without one. */
  function Points(scores: map<string, int>, teamId: string): int
  {
    if teamId in scores then scores[teamId] else 0
  }

  /** The score map after crediting `points` to `teamId`. */
  function Credit(scores: map<string, int>, teamId: string, points: int): (r: map<string, int>)
    ensures r.Keys == scores.Keys + {teamId}
    ensures Points(r, teamId) == Points(scores, teamId) + points
    ensures forall t :: t != teamId ==> Points(r, t) == Points(scores, t)
  {
    scores[teamId := Points(scores, teamId) + points]
  }

  /** The score map built by crediting `awards` in order to an empty map. */
  function Tally(awards: seq<(string, int)>): map<string, int>
  {
    if |awards| == 0 then map[]
    else
      var last := awards[|awards| - 1];
      Credit(Tally(awards[..|awards| - 1]), last.0, last.1)
  }

  /** The sum of the points among `awards` that go to `teamId`. */
  function AwardedTo(awards: seq<(string, int)>, teamId: string): int
  {
    if |awards| == 0 then 0
    else (if awards[0].0 == teamId then awards[0].1 else 0) + AwardedTo(awards[1..], teamId)
  }

  lemma {:induction false} AwardedToAppend(awards: seq<(string, int)>, a: (string, int), teamId: string)
    ensures AwardedTo(awards + [a], teamId) == AwardedTo(awards, teamId) + (if a.0 == teamId then a.1 else 0)
  {
    if |awards| > 0 {
      assert (awards + [a])[1..] == awards[1..] + [a];
      AwardedToAppend(awards[1..], a, teamId);
    }
  }

  /** Score integrity: after any sequence of credits every team holds the sum
      of the points credited to it, and only credited teams have an entry. */
  lemma {:induction false} TallySumsAwards(awards: seq<(string, int)>, teamId: string)
    ensures Points(Tally(awards), teamId) == AwardedTo(awards, teamId)
    ensures teamId in Tally(awards) <==> exists k :: 0 <= k < |awards| && awards[k].0 == teamId
  {
    if |awards| > 0 {
      var init := awards[..|awards| - 1];
      var last := awards[|awards| - 1];
      TallySumsAwards(init, teamId);
      AwardedToAppend(init, last, teamId);
      assert init + [last] == awards;
      if teamId in Tally(init) {
        var k :| 0 <= k < |init| && init[k].0 == teamId;
        assert awards[k].0 == teamId;
      }
    }
  }

  class Round {
    const id: string
    const roundNumber: int
    const actingTeamId: string
    const prompt: string
    const submittedBy: string
    const script: ValidScript
    /** player id -> index into the script's roles */
    const roleAssignments: map<string, int>
    var promptGuesses: seq<Guess>
    var promptWinnerTeamId: Option<string>
    var personalityGuess: Option<string>
    var personalityCorrect: bool
    /** team id -> points scored this round */
    var roundScore: map<string, int>
    const timestamp: Instant

    /** A round stores every field it is given; by default it has no guesses,
        no winner, no personality guess and nothing scored. */
    constructor (id: string, roundNumber: int, actingTeamId: string, prompt: string,
                 submittedBy: string, script: ValidScript, roleAssignments: map<string, int>,
                 timestamp: Instant,
                 promptGuesses: seq<Guess> := [],
                 promptWinnerTeamId: Option<string> := None,
                 personalityGuess: Option<string> := None,
                 personalityCorrect: bool := false,
                 roundScore: map<string, int> := map[])
      ensures this.id == id && this.roundNumber == roundNumber
      ensures this.actingTeamId == actingTeamId && this.prompt == prompt
      ensures this.submittedBy == submittedBy && this.script == script
      ensures this.roleAssignments == roleAssignments && this.timestamp == timestamp
      ensures this.promptGuesses == promptGuesses && this.promptWinnerTeamId == promptWinnerTeamId
      ensures this.personalityGuess == personalityGuess && this.personalityCorrect == personalityCorrect
      ensures this.roundScore == roundScore
    {
      this.id := id;
      this.roundNumber := roundNumber;
      this.actingTeamId := actingTeamId;
      this.prompt := prompt;
      this.submittedBy := submittedBy;
      this.script := script;
      this.roleAssignments := roleAssignments;
      this.timestamp := timestamp;
      this.promptGuesses := promptGuesses;
      this.promptWinnerTeamId := promptWinnerTeamId;
      this.personalityGuess := personalityGuess;
      this.personalityCorrect := personalityCorrect;
      this.roundScore := roundScore;
    }

    /** Appends a guess; earlier guesses stay as they were, in order. */
    method AddGuess(guess: Guess)
      modifies this`promptGuesses
      ensures promptGuesses == old(promptGuesses) + [guess]
    {
      promptGuesses := promptGuesses + [guess];
    }

    /** Records the team that guessed the prompt; a later call overwrites it. */
    method SetPromptWinner(teamId: string)
      modifies this`promptWinnerTeamId
      ensures promptWinnerTeamId == Some(teamId)
    {
      promptWinnerTeamId := Some(teamId);
    }

    /** Records the acting team's guess of the personality behind the script. */
    method SetPersonalityGuess(personalityId: string)
      modifies this`personalityGuess
      ensures personalityGuess == Some(personalityId)
    {
      personalityGuess := Some(personalityId);
    }

    /** The personality guess is correct exactly when one was made and it names
        the personality that generated the script; no guess is never correct. */
    method CheckPersonalityGuess()
      modifies this`personalityCorrect
      ensures personalityCorrect <==> personalityGuess.Some? && personalityGuess.value == script.personality
    {
      if personalityGuess == Some(script.personality) {
        personalityCorrect := true;
      } else {
        personalityCorrect := false;
      }
    }

    /** Credits `points` to `teamId` for this round; other teams' entries are unchanged. */
    method AddScoreToTeam(teamId: string, points: int)
      modifies this`roundScore
      ensures roundScore == Credit(old(roundScore), teamId, points)
    {
      if teamId !in roundScore {
        roundScore := roundScore[teamId := 0];
      }
      roundScore := roundScore[teamId := roundScore[teamId] + points];
    }

    /** The role assigned to `playerId`, or an error when the player has none.
        The stored index is used as Python indexes a list, so a negative index
        counts from the end; an index outside the roles is not checked by the
        source and is excluded here. */
    function RoleForPlayer(playerId: string): (r: Result<Role, DomainError>)
      requires playerId in roleAssignments ==> -|script.roles| <= roleAssignments[playerId] < |script.roles|
      ensures r.Failure? <==> playerId !in roleAssignments
      ensures r.Failure? ==> r.error == NoRoleAssigned(playerId)
      ensures r.Success? ==> r.value in script.roles
      ensures r.Success? && roleAssignments[playerId] >= 0 ==> r.value == script.roles[roleAssignments[playerId]]
      ensures r.Success? && roleAssignments[playerId] < 0 ==>
                r.value == script.roles[|script.roles| + roleAssignments[playerId]]
    {
      if playerId !in roleAssignments then Failure(NoRoleAssigned(playerId))
      else
        var index := roleAssignments[playerId];
        Success(script.roles[if index < 0 then |script.roles| + index else index])
    }
  }
}
