/**
 GreenScore AI, strict variant: the same tables, tiers and badges as the
 lenient form, but the tables are read with `table[answer]`, so an answer
 that is not a key raises `KeyError` and the page stops there.
 */
module G2 {
  import opened Tables
  import Green1
  import Progress

  const TransportTable: Table :=
    map["Car (Alone)" := 4, "Car (Carpool)" := 3, "Public Transport" := 2, "Bike/Walk" := 1]
  const DietTable: Table :=
    map["Daily" := 4, "3-4 times/week" := 3, "1-2 times/week" := 2, "Vegetarian/Vegan" := 1]
  const EnergyTable: Table :=
    map["Non-Renewable (Grid)" := 3, "Mixed Renewable" := 2, "Solar/Wind" := 1]

  /** The denominator the total is printed over. */
  const DisplayedDenominator := 9

  /** The strict form prices every answer exactly as the lenient one does. */
  lemma TablesMatchGreen1()
    ensures TransportTable == Green1.TransportTable
    ensures DietTable == Green1.DietTable
    ensures EnergyTable == Green1.EnergyTable
  {
  }

  function TransportScore(transport: string): (r: Result<int>)
    ensures r.Ok? <==> transport in TransportTable
    ensures r.Ok? ==> 1 <= r.value <= 4
    ensures r.Err? ==> r.error == KeyError(transport)
  {
    Lookup(TransportTable, transport, Strict)
  }

  function DietScore(diet: string): (r: Result<int>)
    ensures r.Ok? <==> diet in DietTable
    ensures r.Ok? ==> 1 <= r.value <= 4
    ensures r.Err? ==> r.error == KeyError(diet)
  {
    Lookup(DietTable, diet, Strict)
  }

  function EnergyScore(energy: string): (r: Result<int>)
    ensures r.Ok? <==> energy in EnergyTable
    ensures r.Ok? ==> 1 <= r.value <= 3
    ensures r.Err? ==> r.error == KeyError(energy)
  {
    Lookup(EnergyTable, energy, Strict)
  }

  /** The GreenScore exists only when all three answers are table keys; then
      it lies in 3..11. Otherwise the first absent key, read left to right,
      is the one the `KeyError` names. */
  function Score(transport: string, diet: string, energy: string): (r: Result<int>)
    ensures r.Ok? <==> transport in TransportTable && diet in DietTable && energy in EnergyTable
    ensures r.Ok? ==> 3 <= r.value <= MaxPossible()
    ensures r.Err? ==> r.error == KeyError(
      if transport !in TransportTable then transport
      else if diet !in DietTable then diet
      else energy)
  {
    var ts :- TransportScore(transport);
    var ds :- DietScore(diet);
    var es :- EnergyScore(energy);
    Ok(ts + ds + es)
  }

  /** The largest GreenScore the tables allow, which is 11. */
  function MaxPossible(): (m: int)
    ensures m == 11
  {
    TablesMatchGreen1();
    Green1.TableExtremes();
    MaxOver(TransportTable, Green1.TransportOptions)
      + MaxOver(DietTable, Green1.DietOptions)
      + MaxOver(EnergyTable, Green1.EnergyOptions)
  }

  /** The total is printed as "score/9", yet a valid profile scores 11. */
  lemma DisplayedDenominatorTooSmall()
    ensures Score("Car (Alone)", "Daily", "Non-Renewable (Grid)") == Ok(11)
    ensures MaxPossible() > DisplayedDenominator
  {
    Green1.ScoreTables();
  }

  /** At most 3 is a champion, 4 to 6 a starter, above 6 needs improvement. */
  function TierOf(score: int): (t: Green1.Tier)
    ensures t == Green1.EcoChampion <==> score <= 3
    ensures t == Green1.GreenStarter <==> 4 <= score <= 6
    ensures t == Green1.ImprovementNeeded <==> score > 6
  {
    if score <= 3 then Green1.EcoChampion
    else if score <= 6 then Green1.GreenStarter
    else Green1.ImprovementNeeded
  }

  /** The badges earned by a profile and its score: Green Novice exactly
      outside the worst tier, the others as in the lenient form. */
  function BadgesOf(transport: string, diet: string, energy: string, score: int): (b: Green1.Badges)
    ensures b.greenNovice <==> TierOf(score) != Green1.ImprovementNeeded
    ensures b == Green1.BadgesOf(transport, diet, energy, score)
  {
    Green1.Badges(
      score <= 6,
      transport in ["Public Transport", "Bike/Walk"],
      diet in ["1-2 times/week", "Vegetarian/Vegan"],
      energy != "Non-Renewable (Grid)")
  }

  /** The tier rule is the lenient form's. */
  lemma SameTiersAsGreen1(score: int)
    ensures TierOf(score) == Green1.TierOf(score)
  {
  }

  /** Where the strict form gets a score at all, every lookup and the sum
      agree with the lenient form's. */
  lemma ScoreMatchesGreen1(transport: string, diet: string, energy: string)
    requires Score(transport, diet, energy).Ok?
    ensures TransportScore(transport) == Ok(Green1.TransportScore(transport))
    ensures DietScore(diet) == Ok(Green1.DietScore(diet))
    ensures EnergyScore(energy) == Ok(Green1.EnergyScore(energy))
    ensures Score(transport, diet, energy) == Ok(Green1.Score(transport, diet, energy))
  {
    TablesMatchGreen1();
  }

  /** Everything the page derives from the answers, or the `KeyError` that
      stops it. Where the strict form gets through, it shows exactly what
      the lenient form shows. */
  function Evaluate(transport: string, diet: string, energy: string): (r: Result<Green1.Outcome>)
    ensures r.Ok? <==> Score(transport, diet, energy).Ok?
    ensures r.Ok? ==> r.value == Green1.Evaluate(transport, diet, energy)
    ensures r.Err? ==> r.error == Score(transport, diet, energy).error
  {
    var score :- Score(transport, diet, energy);
    ScoreMatchesGreen1(transport, diet, energy);
    SameTiersAsGreen1(score);
    var ts := TransportScore(transport).value;
    var ds := DietScore(diet).value;
    var es := EnergyScore(energy).value;
    Ok(Green1.Outcome(Green1.Metrics(ts, ds, es), score, TierOf(score),
                      BadgesOf(transport, diet, energy, score)))
  }

  /** The greenest profile scores 3, a champion; the least green scores 11
      and needs improvement. */
  lemma ExtremeProfiles()
    ensures Score("Bike/Walk", "Vegetarian/Vegan", "Solar/Wind") == Ok(3)
    ensures TierOf(3) == Green1.EcoChampion
    ensures Score("Car (Alone)", "Daily", "Non-Renewable (Grid)") == Ok(11)
    ensures TierOf(11) == Green1.ImprovementNeeded
  {
    Green1.ScoreTables();
  }

  /** An unknown commute stops the page with a `KeyError` naming it. */
  lemma UnknownAnswerRaises(diet: string, energy: string)
    ensures Evaluate("Spaceship", diet, energy) == Err(KeyError("Spaceship"))
  {
  }

  /** The save button. It is only reached when the score could be computed;
      then one entry carrying the score is appended. */
  method SaveCurrentScore(history: Progress.History, transport: string, diet: string, energy: string)
    modifies history
    ensures Score(transport, diet, energy).Ok? ==>
      history.entries == old(history.entries) + [Score(transport, diet, energy).value]
    ensures Score(transport, diet, energy).Err? ==> history.entries == old(history.entries)
  {
    var score := Score(transport, diet, energy);
    if score.Ok? {
      history.Save(score.value);
    }
  }
}
