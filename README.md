# Slop domain entities in Dafny

A model of the domain-entity layer of the Slop party-game engine: the
I/O-free objects that hold a game session's state. Players join a game and
form teams of limited size; in each round one team (chosen round robin)
acts out an AI-generated script while the other teams guess the prompt
behind it, the acting team guesses which AI personality wrote the script,
and points accumulate per round and per team.

One Dafny module per source file:

- `Teams` (`team.dfy`) — `Team`, a class: roster of player ids bounded by
  `maxPlayers` (default 3), cumulative score, assigned personality.
- `Games` (`game.dfy`) — `GameStatus`, `ContentTone`, `GameSettings` and the
  `Game` aggregate class: room-code validation, ordered player and team
  lists with look-up and removal by id, the lifecycle status, the round
  counter and the round-robin choice of the acting team.
- `Rounds` (`round.dfy`) — the `Guess` and `Round` classes: guesses, prompt
  winner, personality guess and its check, the per-round score map, role
  look-up.
- `Scripts` (`script.dfy`) — `Role` and `Script` values and the script
  smart constructor that derives word count and spoken duration.
- `Players` (`player.dfy`) — the `Player` class and its three setters.
- `Personalities` (`ai_personality.dfy`) — the `AIPersonality` value and its
  validating constructor.
- `Common` (`common.dfy`) — `Option`, `Result`, `Outcome`, the `DomainError`
  variants (one per `ValueError` message) and `Instant`.
- `Seqs` (`seqs.dfy`) — first-occurrence search and Python's `list.remove`.

Entities the source mutates in place are classes whose methods carry
`modifies` frames naming exactly the fields they change. Fields that no
method reassigns and no caller replaces (ids, names, capacity, the script of
a round, the role assignments, timestamps) are `const`; `Game.settings`
and `Game.rounds` stay variable because callers replace them directly. Script and AIPersonality are
immutable after construction and are datatypes built by functions returning
a `Result`; `ValidScript`, the scripts with at least one role, is the type
construction returns and the type a round's script has. Every `raise ValueError` becomes a `Failure`/`Fail` carrying a
`DomainError`, and the method then changes nothing.

Modelling notes:

- `current_round % len(teams)`: Python's `%` with a positive divisor is never
  negative, exactly like Dafny's, so the round-robin index is modelled as is,
  also for a negative counter.
- `int(word_count / 2.5)` truncates toward zero. For a non-negative count it
  is `(2 * w) / 5`; a caller may supply a negative count, for which the
  model truncates toward zero as Python does (`DurationFor`).
- `Game.remove_player` / `remove_team` call `list.remove` on the object
  `get_player` / `get_team` returned. That removes the first entry equal to
  it; every earlier entry has a different id, so it is the first entry with
  the id, which is what the model removes.
- `Round.get_role_for_player` indexes the roles as Python does: a negative
  index counts from the end.

## Model

| member | source | states |
|---|---|---|
| `Teams.Team.constructor` | src/slop/domain/team.py:14-21 | a new team keeps the given id, name and colour; by default its roster is empty, its score 0, no personality is assigned and the capacity is 3 |
| `Teams.DefaultCapacityScenario` | src/slop/domain/team.py:21-59 | with the default capacity a new team is not full after two players and full after the third; adding a fourth fails with TeamFull(3) and the roster stays at three ids |
| `Teams.Team.AddPlayer` | src/slop/domain/team.py:23-31 | fails with TeamFull exactly when the team is full, leaving the roster as it was; otherwise appends the id at the end; a roster within capacity stays within capacity |
| `Teams.Team.RemovePlayer` | src/slop/domain/team.py:33-41 | fails with PlayerNotOnTeam exactly when the id is absent, changing nothing; otherwise removes its first occurrence, one copy fewer, the rest in order |
| `Teams.Team.AddScore` | src/slop/domain/team.py:43-45 | the new score is the old score plus the points, unclamped; nothing else changes |
| `Teams.Team.AssignPersonality` | src/slop/domain/team.py:47-55 | sets the assigned personality and the assigning team and no other field |
| `Seqs.RemoveFirstMultiset` | src/slop/domain/team.py:39-41 | removing an id takes away exactly one copy of it when present (length one less) and returns the roster unchanged when absent |
| `Seqs.RemoveFirstAfterAppend` | src/slop/domain/team.py:23-41 | adding an id that was not on a roster and removing it again gives back the original roster |
| `Players.Player.constructor` | src/slop/domain/player.py:14-19 | a new player has no team and is not the creator unless told otherwise |
| `Players.Player.AssignToTeam` | src/slop/domain/player.py:21-23 | the player's team becomes the given one; no other field changes |
| `Players.Player.RemoveFromTeam` | src/slop/domain/player.py:25-27 | the player has no team afterwards, whatever team it had; no other field changes |
| `Players.Player.UpdateSocketId` | src/slop/domain/player.py:29-31 | the socket id becomes the given one; id, name and team are unchanged |
| `Personalities.NewPersonality` | src/slop/domain/ai_personality.py:14-27 | construction succeeds exactly when id, name and system prompt are non-empty; the first empty one of id, name, system prompt decides the error; description and example script are kept unchecked |
| `Scripts.NewScript` | src/slop/domain/script.py:34-51 | fails with NoRoles exactly when the role list is empty, so every script has a role count of at least 1 (its type is ValidScript); a word count of 0 becomes the number of words in the content, a duration of 0 becomes the duration of the final word count, and non-zero figures are kept |
| `Scripts.Split` | src/slop/domain/script.py:40-41 | every token of the split is non-empty and contains no whitespace |
| `Scripts.SplitCountsWordStarts` | src/slop/domain/script.py:40-41 | the number of tokens equals the number of places where a word starts (a non-space character at the start or after a space) |
| `Scripts.SplitJoinRoundTrip` | src/slop/domain/script.py:40-41 | non-empty space-free words joined by single spaces split back into exactly those words, so ten such words count 10 |
| `Scripts.DurationIsTruncatedQuotient` | src/slop/domain/script.py:45-47 | the derived duration is 2*words/5 rounded toward zero (floor for non-negative counts), i.e. 150 words a minute; 150 words give 60 seconds |
| `Scripts.DurationMonotone` | src/slop/domain/script.py:40-47 | a larger word count never gives a shorter duration |
| `Scripts.DerivedDurationBounds` | src/slop/domain/script.py:36-47 | a script given neither figure is constructed and its duration is non-negative and at most 0.4 s per counted word |
| `Rounds.Guess.constructor` | src/slop/domain/round.py:17-20 | a new guess is not accepted unless told otherwise |
| `Rounds.Guess.Accept` | src/slop/domain/round.py:22-24 | the guess is accepted afterwards whatever it was before, so accepting is idempotent |
| `Rounds.Round.constructor` | src/slop/domain/round.py:36-48 | a round stores every field it is given; by default it has no guesses, no prompt winner, no personality guess, an incorrect personality flag and an empty score map |
| `Rounds.Round.AddGuess` | src/slop/domain/round.py:50-52 | the guess list is the old one with the new guess appended; earlier guesses are kept in order |
| `Rounds.Round.SetPromptWinner` | src/slop/domain/round.py:54-56 | the prompt winner becomes the given team, overwriting any earlier winner; nothing else changes |
| `Rounds.Round.SetPersonalityGuess` | src/slop/domain/round.py:58-60 | the personality guess becomes the given one; nothing else changes |
| `Rounds.Round.CheckPersonalityGuess` | src/slop/domain/round.py:62-67 | the correctness flag holds exactly when a guess was made and it equals the script's personality; a missing guess gives false |
| `Rounds.Round.AddScoreToTeam` | src/slop/domain/round.py:69-73 | the round score map is the old one credited with the points for that team |
| `Rounds.Credit` | src/slop/domain/round.py:69-73 | crediting gives the team its previous points (0 when absent) plus the new ones, adds the team as a key and leaves every other team's points unchanged |
| `Rounds.TallySumsAwards` | src/slop/domain/round.py:69-73 | after any sequence of credits from an empty map each team holds the sum of the points credited to it, and exactly the credited teams have an entry |
| `Rounds.Round.RoleForPlayer` | src/slop/domain/round.py:75-91 | fails with NoRoleAssigned exactly when the player has no assignment; otherwise returns a role of the script, the one at the assigned index (counted from the end when negative) |
| `Games.Game.constructor` | src/slop/domain/game.py:46-54 | stores every field; only a room code of 4 to 6 characters can reach it |
| `Games.Game.Create` | src/slop/domain/game.py:56-59 | construction fails with InvalidRoomCode exactly when the room code is not 4 to 6 characters long; otherwise a fresh game with that room code and the given (by default: lobby, no teams, players or rounds, round 0) fields |
| `Games.Game.AddPlayer` | src/slop/domain/game.py:61-63 | the player list is the old one with the player appended; duplicate ids are not refused |
| `Games.Game.GetPlayer` | src/slop/domain/game.py:77-92 | fails with PlayerNotFound exactly when no player has the id; otherwise returns the first player with that id |
| `Games.Game.RemovePlayer` | src/slop/domain/game.py:65-75 | fails with PlayerNotFound exactly when no player has the id, leaving the list unchanged; otherwise removes exactly the first player with the id, the others in order |
| `Games.Game.AddTeam` | src/slop/domain/game.py:94-96 | the team list is the old one with the team appended; duplicate ids are not refused |
| `Games.Game.GetTeam` | src/slop/domain/game.py:103-118 | fails with TeamNotFound exactly when no team has the id; otherwise returns the first team with that id |
| `Games.Game.RemoveTeam` | src/slop/domain/game.py:98-101 | fails with TeamNotFound exactly when no team has the id, leaving the list unchanged; otherwise removes exactly the first team with the id, the others in order |
| `Games.Game.Start` | src/slop/domain/game.py:120-128 | succeeds exactly from LOBBY and then the status is PLAYING; from any other status fails with NotInLobby and the status is unchanged |
| `Games.Game.Finish` | src/slop/domain/game.py:130-132 | the status becomes FINISHED from any status; nothing else changes |
| `Games.Game.SetPersonalitySelectionPhase` | src/slop/domain/game.py:134-136 | the status becomes PERSONALITY_SELECTION from any status; nothing else changes |
| `Games.Game.NextRound` | src/slop/domain/game.py:138-140 | the round counter grows by exactly one and the acting position moves to the next team, wrapping from the last to the first |
| `Games.Game.IsComplete` | src/slop/domain/game.py:142-156 | the game is incomplete exactly while the counter is below teams times rounds per team; an incomplete game with a non-negative counter has teams and a positive number of rounds per team |
| `Games.Game.ActingTeam` | src/slop/domain/game.py:158-173 | fails with NoTeams exactly when there are no teams; otherwise returns a team of the game, the one at current round mod team count, which is the current entry of the round-robin order |
| `Games.Game.FullScheduleIsRoundRobin` | src/slop/domain/game.py:142-173 | over all get_total_rounds() rounds from round 0 the acting teams are the team list repeated rounds-per-team times, in order |
| `Games.RoundRobinRepeats` | src/slop/domain/game.py:158-173 | for any number of whole cycles of rounds, the acting teams are the team list repeated that many times |
| `Games.ScheduleIsFair` | src/slop/domain/game.py:142-173 | over a whole number of cycles of rounds (a whole game: rounds_per_team cycles), each of N distinct teams acts exactly that number of times |
| `Games.EachTeamActsTwice` | src/slop/domain/game.py:158-173 | over rounds 0 to 2N-1, N distinct teams act in list order twice over and each acts exactly twice |
| `Games.ActingIndexAdvances` | src/slop/domain/game.py:138-173 | one round later the acting position is the next one in list order, the first after the last |

Four source functions are plain definitions that other rows' contracts use,
so they have no row of their own. `Teams.Team.IsFull` (is_full) carries its
promises through `Teams.Team.AddPlayer` and `Teams.DefaultCapacityScenario`.
`Games.Game.TotalRounds` (get_total_rounds) does so through
`Games.Game.IsComplete` and `Games.Game.FullScheduleIsRoundRobin`.
`Scripts.Script.RoleCount` (get_role_count) does so through
`Scripts.NewScript`, and `Games.ActingIndex` (the round-robin index) through
`Games.Game.ActingTeam`.

## Left out

- Domain events (`src/slop/domain/events.py`): pydantic records with no behaviour; their immutability, identifiers, clock readings and JSON form come from the library.
- The storage, realtime and script-generation ports (`src/slop/ports/`): asynchronous interface declarations without logic, all I/O.
- Event replay, a command handler and rules it would enforce (two teams to start, one prompt winner per round, no self-assigned personality): no such code is in the modelled files.
- `RoleAssignment`: re-exported by `src/slop/domain/__init__.py` but not defined in `src/slop/domain/round.py`; it is not part of this model.
- Clock readings (`created_at`, `joined_at`, `generated_at`, round and guess timestamps) are opaque `Instant` values supplied by the caller instead of read from the clock.
- Whitespace beyond ASCII: `str.split()` also splits at Unicode spaces such as U+00A0 and U+2028; the model uses the ASCII whitespace set only.
- Floating point in the duration: the model computes the exact quotient. For a supplied word count above about 2^50 in magnitude, the source's float division could round differently. Beyond about 1.8·10^308 the int-to-float conversion raises OverflowError, which the model does not reproduce: it returns the exact duration.
- Aliasing of lists passed to constructors: Python stores the caller's list object, so later changes through another reference are visible; the model stores sequence values.
- Dataclass-generated equality and `repr`, and direct assignment to fields that no method changes and no caller replaces (those fields are `const` here).
- Rounds.Round.RoleForPlayer: requires the stored index to lie within the roles (negative indices from the end allowed); an index outside them makes the source raise IndexError, which is not modelled.
