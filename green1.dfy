/**
 GreenScore AI, lenient variant: three answers scored from 1 to 4 points
 (energy 1 to 3), lower is greener, unknown answers read as 0 through
 `.get(answer, 0)`. The total picks a tier, four badges follow from the
 answers and the total, and a button saves the total to the history.
 */
module Green1 {
  import opened Tables
  import Progress

  /** The answers the form offers, in the order it lists them. */
  const TransportOptions: seq<string> := ["Car (Alone)", "Car (Carpool)", "Public Transport", "Bike/Walk"]
  const DietOptions: seq<string> := ["Daily", "3-4 times/week", "1-2 times/week", "Vegetarian/Vegan"]
  const EnergyOptions: seq<string> := ["Non-Renewable (Grid)", "Solar/Wind", "Mixed Renewable"]

  const TransportTable: Table :=
    map["Car (Alone)" := 4, "Car (Carpool)" := 3, "Public Transport" := 2, "Bike/Walk" := 1]
  const DietTable: Table :=
    map["Daily" := 4, "3-4 times/week" := 3, "1-2 times/week" := 2, "Vegetarian/Vegan" := 1]
  const EnergyTable: Table :=
    map["Non-Renewable (Grid)" := 3, "Mixed Renewable" := 2, "Solar/Wind" := 1]

  /** The denominator the total is printed over. */
  const DisplayedDenominator := 9

  function TransportScore(transport: string): (r: int)
    ensures transport in TransportTable ==> 1 <= r <= 4
    ensures r == 0 <==> transport !in TransportTable
  {
    Lookup(TransportTable, transport, WithDefault(0)).value
  }

  function DietScore(diet: string): (r: int)
    ensures diet in DietTable ==> 1 <= r <= 4
    ensures r == 0 <==> diet !in DietTable
  {
    Lookup(DietTable, diet, WithDefault(0)).value
  }

  function EnergyScore(energy: string): (r: int)
    ensures energy in EnergyTable ==> 1 <= r <= 3
    ensures r == 0 <==> energy !in EnergyTable
  {
    Lookup(EnergyTable, energy, WithDefault(0)).value
  }

  /** The GreenScore: never negative, never above what the tables allow. */
  function Score(transport: string, diet: string, energy: string): (r: int)
    ensures 0 <= r <= MaxPossible()
  {
    TransportScore(transport) + DietScore(diet) + EnergyScore(energy)
  }

  /** The largest GreenScore the tables allow: the sum of each table's
      largest entry over the offered answers, which is 11. */
  function MaxPossible(): (m: int)
    ensures m == 11
  {
    TableExtremes();
    MaxOver(TransportTable, TransportOptions)
      + MaxOver(DietTable, DietOptions)
      + MaxOver(EnergyTable, EnergyOptions)
  }

  /** The smallest GreenScore of an offered profile, which is 3. */
  function MinPossible(): (m: int)
    ensures m == 3
  {
    TableExtremes();
    MinOver(TransportTable, TransportOptions)
      + MinOver(DietTable, DietOptions)
      + MinOver(EnergyTable, EnergyOptions)
  }

  /** Each table's largest and smallest entry over the offered answers. */
  lemma TableExtremes()
    ensures Covers(TransportTable, TransportOptions)
    ensures Covers(DietTable, DietOptions)
    ensures Covers(EnergyTable, EnergyOptions)
    ensures MaxOver(TransportTable, TransportOptions) == 4 && MinOver(TransportTable, TransportOptions) == 1
    ensures MaxOver(DietTable, DietOptions) == 4 && MinOver(DietTable, DietOptions) == 1
    ensures MaxOver(EnergyTable, EnergyOptions) == 3 && MinOver(EnergyTable, EnergyOptions) == 1
  {
    TransportExtremes();
    DietExtremes();
    EnergyExtremes();
  }

  lemma TransportExtremes()
    ensures Covers(TransportTable, TransportOptions)
    ensures MaxOver(TransportTable, TransportOptions) == 4 && MinOver(TransportTable, TransportOptions) == 1
  {
    MaxOverIs(TransportTable, TransportOptions, 0);
    MinOverIs(TransportTable, TransportOptions, 3);
  }

  lemma DietExtremes()
    ensures Covers(DietTable, DietOptions)
    ensures MaxOver(DietTable, DietOptions) == 4 && MinOver(DietTable, DietOptions) == 1
  {
    MaxOverIs(DietTable, DietOptions, 0);
    MinOverIs(DietTable, DietOptions, 3);
  }

  lemma EnergyExtremes()
    ensures Covers(EnergyTable, EnergyOptions)
    ensures MaxOver(EnergyTable, EnergyOptions) == 3 && MinOver(EnergyTable, EnergyOptions) == 1
  {
    MaxOverIs(EnergyTable, EnergyOptions, 0);
    MinOverIs(EnergyTable, EnergyOptions, 1);
  }

  /** Every offered answer is a table key, and every table key is offered. */
  lemma OptionsCovered()
    ensures Covers(TransportTable, TransportOptions)
    ensures Covers(DietTable, DietOptions)
    ensures Covers(EnergyTable, EnergyOptions)
    ensures forall k :: k in TransportTable ==> k in TransportOptions
    ensures forall k :: k in DietTable ==> k in DietOptions
    ensures forall k :: k in EnergyTable ==> k in EnergyOptions
  {
  }

  lemma ScoreTables()
    ensures TransportScore("Car (Alone)") == 4 && TransportScore("Car (Carpool)") == 3
    ensures TransportScore("Public Transport") == 2 && TransportScore("Bike/Walk") == 1
    ensures DietScore("Daily") == 4 && DietScore("3-4 times/week") == 3
    ensures DietScore("1-2 times/week") == 2 && DietScore("Vegetarian/Vegan") == 1
    ensures EnergyScore("Non-Renewable (Grid)") == 3 && EnergyScore("Mixed Renewable") == 2
    ensures EnergyScore("Solar/Wind") == 1
  {
  }

  /** An answer missing from its table adds nothing and does not fail. */
  lemma UnknownAnswerContributesZero(transport: string, diet: string, energy: string)
    requires transport !in TransportTable
    ensures Score(transport, diet, energy) == DietScore(diet) + EnergyScore(energy)
  {
  }

  /** Offered answers each earn at least one point, and an offered profile
      scores from MinPossible (3) to MaxPossible (11). */
  lemma OfferedScoreRange(transport: string, diet: string, energy: string)
    requires transport in TransportOptions && diet in DietOptions && energy in EnergyOptions
    ensures TransportScore(transport) >= 1 && DietScore(diet) >= 1 && EnergyScore(energy) >= 1
    ensures MinPossible() <= Score(transport, diet, energy) <= MaxPossible()
  {
  }

  /** Both bounds are reached by offered profiles. */
  lemma ScoreBoundsAttained()
    ensures Score("Bike/Walk", "Vegetarian/Vegan", "Solar/Wind") == MinPossible()
    ensures Score("Car (Alone)", "Daily", "Non-Renewable (Grid)") == MaxPossible()
  {
    ScoreTables();
  }

  /** The total is printed as "score/9", yet an offered profile scores 11. */
  lemma DisplayedDenominatorTooSmall()
    ensures Score("Car (Alone)", "Daily", "Non-Renewable (Grid)") > DisplayedDenominator
    ensures MaxPossible() > DisplayedDenominator
  {
  }

  /** Transport and diet points fall as the offered answers get greener;
      the energy list is offered in the order Grid, Solar/Wind, Mixed, so
      its points (3, 1, 2) follow neither direction. */
  lemma ScoresAlongOptionOrder()
    ensures Covers(TransportTable, TransportOptions) && Ordered(TransportTable, TransportOptions, Descending)
    ensures Covers(DietTable, DietOptions) && Ordered(DietTable, DietOptions, Descending)
    ensures Covers(EnergyTable, EnergyOptions)
    ensures !Ordered(EnergyTable, EnergyOptions, Descending) && !Ordered(EnergyTable, EnergyOptions, Ascending)
  {
    OptionsCovered();
    NeighboursOrdered(TransportTable, TransportOptions, Descending);
    NeighboursOrdered(DietTable, DietOptions, Descending);
    assert !InOrder(EnergyTable[EnergyOptions[1]], EnergyTable[EnergyOptions[2]], Descending);
    assert !InOrder(EnergyTable[EnergyOptions[0]], EnergyTable[EnergyOptions[1]], Ascending);
  }

  /** The three metrics of the dashboard. */
  datatype Metrics = Metrics(transport: int, diet: int, energy: int)

  /** The dashboard metrics are the same lookups that feed the total, so
      they add up to the GreenScore. */
  function MetricsOf(transport: string, diet: string, energy: string): (m: Metrics)
    ensures m.transport == TransportScore(transport)
    ensures m.diet == DietScore(diet)
    ensures m.energy == EnergyScore(energy)
    ensures m.transport + m.diet + m.energy == Score(transport, diet, energy)
  {
    Metrics(TransportScore(transport), DietScore(diet), EnergyScore(energy))
  }

  datatype Tier = EcoChampion | GreenStarter | ImprovementNeeded

  /** At most 3 is a champion, 4 to 6 a starter, above 6 needs improvement. */
  function TierOf(score: int): (t: Tier)
    ensures t == EcoChampion <==> score <= 3
    ensures t == GreenStarter <==> 4 <= score <= 6
    ensures t == ImprovementNeeded <==> score > 6
  {
    if score <= 3 then EcoChampion
    else if score <= 6 then GreenStarter
    else ImprovementNeeded
  }

  datatype Badges = Badges(greenNovice: bool, publicCommuter: bool, plantPioneer: bool, energySaver: bool)

  /** The badges earned by a profile and its score. Commuter and Pioneer go
      to answers worth one or two points; Energy Saver to every answer not
      worth three, an unknown one included. */
  function BadgesOf(transport: string, diet: string, energy: string, score: int): (b: Badges)
    ensures b.greenNovice <==> score <= 6
    ensures b.publicCommuter <==> 1 <= TransportScore(transport) <= 2
    ensures b.plantPioneer <==> 1 <= DietScore(diet) <= 2
    ensures b.energySaver <==> EnergyScore(energy) != 3
  {
    Badges(
      score <= 6,
      transport in ["Public Transport", "Bike/Walk"],
      diet in ["1-2 times/week", "Vegetarian/Vegan"],
      energy != "Non-Renewable (Grid)")
  }

  /** Green Novice is earned exactly with the two better tiers. */
  lemma GreenNoviceIffGoodTier(transport: string, diet: string, energy: string, score: int)
    ensures BadgesOf(transport, diet, energy, score).greenNovice
      <==> TierOf(score) == EcoChampion || TierOf(score) == GreenStarter
  {
  }

  /** Everything the page derives from the three answers. */
  datatype Outcome = Outcome(metrics: Metrics, score: int, tier: Tier, badges: Badges)

  function Evaluate(transport: string, diet: string, energy: string): (o: Outcome)
    ensures o.score == o.metrics.transport + o.metrics.diet + o.metrics.energy
    ensures o.score == Score(transport, diet, energy)
    ensures o.metrics == MetricsOf(transport, diet, energy)
    ensures o.tier == TierOf(o.score)
    ensures o.badges == BadgesOf(transport, diet, energy, o.score)
    ensures o.badges.greenNovice <==> o.tier != ImprovementNeeded
  {
    var score := Score(transport, diet, energy);
    Outcome(MetricsOf(transport, diet, energy), score, TierOf(score),
            BadgesOf(transport, diet, energy, score))
  }

  /** The save button: one more history entry, carrying the current score. */
  method SaveCurrentScore(history: Progress.History, transport: string, diet: string, energy: string)
    modifies history
    ensures history.entries == old(history.entries) + [Score(transport, diet, energy)]
  {
    history.Save(Score(transport, diet, energy));
  }
}
