# Eco-score forms of Greenearth, modelled in Dafny

The repository holds three near-duplicate single-page forms. Each asks for
three lifestyle answers (commute, diet, home energy), prices each answer from
a fixed table, sums the points into a score, and shows a qualitative tier:

- `eco_game.py` (EcoGame Pro) prices answers from 1 to 3 points, higher is
  greener, and shows a total out of `MAX_SCORE = 9`. A row of daily-challenge
  buttons adds fixed awards (2, 3, 1) to a session score.
- `green1.py` (GreenScore AI) prices answers from 4 down to 1 (energy 3 to 1),
  lower is greener. It reads its tables with `.get(answer, 0)`. It derives a
  tier and four badges, and a button appends the score to a session history.
- `g2.py` is the same page with strict `table[answer]` reads, so an answer
  that is not a key raises `KeyError`.

The model has one module per form (`EcoGame`, `Green1`, `G2`) and two shared
modules:

- `Tables` models Python dictionary reads. `Lookup` covers both
  `.get(key, default)` and `[key]`; `MaxOver`/`MinOver` give a table's extreme
  entry over an option list; `Ordered` says points run one way along a list.
- `Progress` holds the session history class both GreenScore pages append to.

Answers are strings, as the form widgets hand them to the tables, so unknown
answers are part of the model. The score functions, totals, tiers and badges
are functions. The session score and the history are classes whose methods
update a field. The `for` loop over the challenge buttons is a method with a
loop invariant.

Each form hard-codes three tiers. `eco_game.py` and `green1.py` score an
unknown answer 0; `g2.py` raises `KeyError`. The challenge awards are fixed,
never validated, and there is no reset. The model keeps all of this.

`Tables.Lookup` is not a function of the source: it models Python's
dictionary read, which the score functions of all three forms use.

## Model

| member | source | states |
|---|---|---|
| Tables.Lookup | eco_game.py:53 | a defaulted read (`.get(key, d)`) yields the stored value or `d` and never fails; a strict read (`[key]`, as at g2.py:60) fails exactly on an absent key, with a KeyError naming it |
| EcoGame.TransportScore | eco_game.py:50-53 | a known commute earns 1..3 points; the result is 0 exactly when the answer is not in the table |
| EcoGame.DietScore | eco_game.py:55-58 | a known diet answer earns 1..3 points; the result is 0 exactly when the answer is not in the table |
| EcoGame.EnergyScore | eco_game.py:60-63 | a known energy answer earns 1..3 points; the result is 0 exactly when the answer is not in the table |
| EcoGame.TotalScore | eco_game.py:65-71 | for any three strings the total lies in 0..MaxScore (9) |
| EcoGame.TransportScoreTable | eco_game.py:50-53 | Car 1, Bus/Train 2, Bike/Walk 3, every other string 0 |
| EcoGame.DietScoreTable | eco_game.py:55-58 | Daily 1, Weekly 2, Sometimes 3, Never 3 (two answers share 3), every other string 0 |
| EcoGame.EnergyScoreTable | eco_game.py:60-63 | Regular Power 1, Some Green Energy 2, All Renewable 3, every other string 0 |
| EcoGame.OfferedAnswersInRange | eco_game.py:86-119 | for answers from the offered lists each metric is in 1..3 (its "/3" display) and the total is in 3..9 |
| EcoGame.MaxScoreMatchesTables | eco_game.py:6 | MAX_SCORE equals the sum of each table's largest entry over the offered answers |
| EcoGame.ScoresFollowOptionOrder | eco_game.py:86-105 | along each option list in the order the form shows it, the points never decrease |
| EcoGame.FeedbackFor | eco_game.py:127-133 | Champion exactly when total ≥ 7, Good start exactly for 4..6, Room for growth exactly below 4 |
| EcoGame.FeedbackMonotone | eco_game.py:127-133 | a larger total never gets a lower-ranked message |
| EcoGame.Assess | eco_game.py:108-133 | each shown metric is its own category's lookup; the inline sum in `main` equals `calculate_total_score` and the sum of the three metrics, and selects the message for that total |
| EcoGame.KeyErrorHandlerUnreachable | eco_game.py:135-137 | every table read in the guarded block is a defaulted read that succeeds, so the `except KeyError` branch cannot run |
| EcoGame.UnknownTransportScoredZero | eco_game.py:108-112 | an unknown commute shows 0 and the total is the other two metrics; nothing fails |
| EcoGame.ChallengeAwardsPositive | eco_game.py:154-158 | every challenge award is positive and the three together are worth 6 |
| EcoGame.EarnedConcat | eco_game.py:161-164 | the points of consecutive presses add up |
| EcoGame.PressedEarnedBounded | eco_game.py:161-164 | the pressed challenges earn between 0 and the worth of all challenges |
| EcoGame.Session.constructor | eco_game.py:25-26 | a new session's score is 0 |
| EcoGame.Session.Press | eco_game.py:163-164 | one press adds exactly that challenge's points |
| EcoGame.Session.ChallengeRow | eco_game.py:160-164 | one pass over the buttons adds exactly the awards of those pressed, so the score never decreases |
| Green1.TransportScore | green1.py:41-46 | a known commute earns 1..4 points; the result is 0 exactly when the answer is not in the table |
| Green1.DietScore | green1.py:49-54 | a known diet answer earns 1..4 points; the result is 0 exactly when the answer is not in the table |
| Green1.EnergyScore | green1.py:57-61 | a known energy answer earns 1..3 points; the result is 0 exactly when the answer is not in the table |
| Green1.Score | green1.py:64-68 | for any answers the score lies in 0..MaxPossible |
| Green1.MaxPossible | green1.py:83 | the largest score the tables allow, computed from them, is 11 |
| Green1.MinPossible | green1.py:23-36 | the smallest score of an offered profile, computed from the tables, is 3 |
| Green1.TableExtremes | green1.py:41-61 | per table over the offered answers: transport 4..1, diet 4..1, energy 3..1 |
| Green1.OptionsCovered | green1.py:23-61 | every offered answer is a table key and every table key is offered |
| Green1.ScoreTables | green1.py:41-61 | the exact points of every table entry |
| Green1.UnknownAnswerContributesZero | green1.py:64-68 | a commute missing from the table adds 0 and the score is the other two lookups |
| Green1.OfferedScoreRange | green1.py:23-68 | offered answers each earn at least 1 and an offered profile scores from 3 to 11 |
| Green1.ScoreBoundsAttained | green1.py:64-68 | the greenest offered profile scores 3 and the least green scores 11 |
| Green1.DisplayedDenominatorTooSmall | green1.py:83 | an offered profile scores 11, above the printed denominator 9 |
| Green1.ScoresAlongOptionOrder | green1.py:23-61 | transport and diet points fall along their option lists; the energy list (Grid, Solar/Wind, Mixed) follows neither direction |
| Green1.MetricsOf | green1.py:76-80 | each dashboard metric is the same lookup that feeds the total, so the three add up to the score |
| Green1.TierOf | green1.py:84-89 | Champion exactly when score ≤ 3, Starter exactly for 4..6, Improvement Needed exactly above 6 |
| Green1.BadgesOf | green1.py:131-136 | Green Novice iff score ≤ 6; Public Commuter iff the commute is worth 1 or 2; Plant Pioneer iff the diet is worth 1 or 2; Energy Saver iff the energy answer is not worth 3 (an unknown one included) |
| Green1.GreenNoviceIffGoodTier | green1.py:131-132 | Green Novice is earned exactly with tier Champion or Starter |
| Green1.Evaluate | green1.py:64-136 | the page shows the per-category lookups, their sum as the score, the tier rule's tier for it and the badges for the answers and that score; Green Novice holds exactly outside tier Improvement Needed |
| Green1.SaveCurrentScore | green1.py:153-157 | saving appends exactly the current score to the history |
| Progress.History.constructor | green1.py:150-151 | a new session's history is empty |
| Progress.History.Save | green1.py:153-157 | the history grows by one entry carrying the score; earlier entries are unchanged |
| G2.TablesMatchGreen1 | g2.py:38-58 | the three tables are identical to green1.py's |
| G2.TransportScore | g2.py:38-43 | a known commute earns 1..4; an unknown one raises KeyError naming it |
| G2.DietScore | g2.py:46-51 | a known diet answer earns 1..4; an unknown one raises KeyError naming it |
| G2.EnergyScore | g2.py:54-58 | a known energy answer earns 1..3; an unknown one raises KeyError naming it |
| G2.Score | g2.py:60 | the score exists iff all three answers are keys, and is then in 3..11; otherwise the KeyError names the first absent key, left to right |
| G2.MaxPossible | g2.py:75 | the largest score the tables allow, computed from them, is 11 |
| G2.DisplayedDenominatorTooSmall | g2.py:75 | a valid profile scores 11, above the printed denominator 9 |
| G2.ScoreMatchesGreen1 | g2.py:38-60 | where the strict score exists, each lookup and the sum equal green1.py's lenient ones |
| G2.TierOf | g2.py:76-81 | Champion exactly when score ≤ 3, Starter exactly for 4..6, Improvement Needed exactly above 6 |
| G2.SameTiersAsGreen1 | g2.py:76-81 | the strict page's tier rule is green1.py's |
| G2.BadgesOf | g2.py:103-108 | the badges are green1.py's, and Green Novice holds iff the tier is not Improvement Needed |
| G2.Evaluate | g2.py:60-108 | the page gets through iff its score exists, and then shows exactly what green1.py shows for the same answers |
| G2.ExtremeProfiles | g2.py:38-81 | (Bike/Walk, Vegetarian/Vegan, Solar/Wind) scores 3, a Champion; (Car (Alone), Daily, Non-Renewable (Grid)) scores 11, Improvement Needed |
| G2.UnknownAnswerRaises | g2.py:60 | an unknown commute ("Spaceship") stops the page with a KeyError naming it |
| G2.SaveCurrentScore | g2.py:122-126 | when the score exists, saving appends exactly it; when the page stopped on a KeyError, the history is unchanged |

## Findings

| source | as written | input that shows it | evidently intended | confidence | as-written member | corrected member |
|---|---|---|---|---|---|---|
| green1.py:83 | the total is printed over a fixed denominator 9 | Car (Alone), Daily, Non-Renewable (Grid) scores 11, shown as "11/9" | print over the largest score the tables allow, 11 | high; not executed | Green1.DisplayedDenominatorTooSmall | Green1.MaxPossible |
| g2.py:75 | the total is printed over a fixed denominator 9 | Car (Alone), Daily, Non-Renewable (Grid) scores 11, shown as "11/9" | print over the largest score the tables allow, 11 | high; not executed | G2.DisplayedDenominatorTooSmall | G2.MaxPossible |

The range lemmas (`Green1.OfferedScoreRange`, `G2.Score`) are stated against
the corrected maximum.

A second defect is dead code rather than a wrong value. `eco_game.py`
guards its score block with `except KeyError` (lines 135-137), but every table
read in the block uses `.get(answer, 0)`. `EcoGame.KeyErrorHandlerUnreachable`
proves that all three reads succeed. The model of the block, `EcoGame.Assess`,
therefore has no error outcome. An unknown answer is silently scored 0
(`EcoGame.UnknownTransportScoredZero`).

## Left out

- Page rendering is not modelled: titles, expanders, select boxes, metrics, images, balloons, toasts. It is user interface.
- `play_sound` (eco_game.py:29-47) is not modelled: the model hub download, file read, base64 encoding and HTML audio. It is I/O and foreign library calls.
- The text-generation tips (eco_game.py:141-149, green1.py:92-126, g2.py:87-98) are not modelled. They call an external model whose output cannot be specified.
- The event-loop policy patch (green1.py:7-8) is not modelled. It is platform plumbing.
- The progress bar `total / MAX_SCORE` (eco_game.py:122-123) is floating point. Only the integer fact 0 ≤ total ≤ MaxScore is stated.
- Each history entry's date (`pd.Timestamp.now()`), the DataFrame and the line chart are not modelled. The date is a clock read and the rest is display, so the history is a sequence of scores.
- Page reruns and session persistence are not modelled. The model has one in-memory session score and one history list; their "create only if absent" initialisation is a constructor.
- Challenge names lose their emoji prefixes. Only name and points matter to the score.
- After a `KeyError`, g2.py's page stops and shows nothing further. `G2.Evaluate` returns the error, and `G2.SaveCurrentScore` leaves the history unchanged.
