/**
 EcoGame Pro: three answers, one to three points each, higher is greener.

 The three category scores read their tables with `.get(answer, 0)`, the
 total is their sum, the feedback message follows from the total, and a row
 of daily challenge buttons adds fixed awards to a session score.
 */
module EcoGame {
  import opened Tables

  /** The displayed maximum: three categories of at most three points each. */
  const MaxScore := 9

  /** The answers the form offers, in the order it lists them. */
  const TransportOptions: seq<string> := ["Car", "Bus/Train", "Bike/Walk"]
  const DietOptions: seq<string> := ["Daily", "Weekly", "Sometimes", "Never"]
  const EnergyOptions: seq<string> := ["Regular Power", "Some Green Energy", "All Renewable"]

  const TransportTable: Table := map["Car" := 1, "Bus/Train" := 2, "Bike/Walk" := 3]
  const DietTable: Table := map["Daily" := 1, "Weekly" := 2, "Sometimes" := 3, "Never" := 3]
  const EnergyTable: Table :=
    map["Regular Power" := 1, "Some Green Energy" := 2, "All Renewable" := 3]

  /** Points for the commute; an answer the table lacks is worth nothing. */
  function TransportScore(transport: string): (r: int)
    ensures transport in TransportTable ==> 1 <= r <= 3
    ensures r == 0 <==> transport !in TransportTable
  {
    Lookup(TransportTable, transport, WithDefault(0)).value
  }

  /** Points for meat consumption; an answer the table lacks is worth nothing. */
  function DietScore(diet: string): (r: int)
    ensures diet in DietTable ==> 1 <= r <= 3
    ensures r == 0 <==> diet !in DietTable
  {
    Lookup(DietTable, diet, WithDefault(0)).value
  }

  /** Points for the energy source; an answer the table lacks is worth nothing. */
  function EnergyScore(energy: string): (r: int)
    ensures energy in EnergyTable ==> 1 <= r <= 3
    ensures r == 0 <==> energy !in EnergyTable
  {
    Lookup(EnergyTable, energy, WithDefault(0)).value
  }

  /** The eco score of a profile: whatever the answers, it lies in 0..MaxScore. */
  function TotalScore(transport: string, diet: string, energy: string): (total: int)
    ensures 0 <= total <= MaxScore
  {
    TransportScore(transport) + DietScore(diet) + EnergyScore(energy)
  }

  lemma TransportScoreTable()
    ensures TransportScore("Car") == 1
    ensures TransportScore("Bus/Train") == 2
    ensures TransportScore("Bike/Walk") == 3
    ensures forall s :: s != "Car" && s != "Bus/Train" && s != "Bike/Walk" ==> TransportScore(s) == 0
  {
  }

  /** The diet table is not injective: "Sometimes" and "Never" both earn 3. */
  lemma DietScoreTable()
    ensures DietScore("Daily") == 1
    ensures DietScore("Weekly") == 2
    ensures DietScore("Sometimes") == 3 && DietScore("Never") == 3
    ensures forall s :: s != "Daily" && s != "Weekly" && s != "Sometimes" && s != "Never" ==> DietScore(s) == 0
  {
  }

  lemma EnergyScoreTable()
    ensures EnergyScore("Regular Power") == 1
    ensures EnergyScore("Some Green Energy") == 2
    ensures EnergyScore("All Renewable") == 3
    ensures forall s :: s != "Regular Power" && s != "Some Green Energy" && s != "All Renewable" ==> EnergyScore(s) == 0
  {
  }

  /** Every offered answer is priced: each metric shows 1..3 of its "/3" and
      the total of an offered profile lies in 3..MaxScore. */
  lemma OfferedAnswersInRange(transport: string, diet: string, energy: string)
    requires transport in TransportOptions && diet in DietOptions && energy in EnergyOptions
    ensures 1 <= TransportScore(transport) <= 3
    ensures 1 <= DietScore(diet) <= 3
    ensures 1 <= EnergyScore(energy) <= 3
    ensures 3 <= TotalScore(transport, diet, energy) <= MaxScore
  {
  }

  /** MaxScore is exactly the sum of the tables' largest entries over the
      offered answers, so the displayed "/9" is the true maximum. */
  lemma MaxScoreMatchesTables()
    ensures Covers(TransportTable, TransportOptions)
    ensures Covers(DietTable, DietOptions)
    ensures Covers(EnergyTable, EnergyOptions)
    ensures MaxScore == MaxOver(TransportTable, TransportOptions)
                      + MaxOver(DietTable, DietOptions)
                      + MaxOver(EnergyTable, EnergyOptions)
  {
    MaxOverIs(TransportTable, TransportOptions, 2);
    MaxOverIs(DietTable, DietOptions, 3);
    MaxOverIs(EnergyTable, EnergyOptions, 2);
  }

  /** Going down each option list as the form shows it, the points never drop. */
  lemma ScoresFollowOptionOrder()
    ensures Covers(TransportTable, TransportOptions) && Ordered(TransportTable, TransportOptions, Ascending)
    ensures Covers(DietTable, DietOptions) && Ordered(DietTable, DietOptions, Ascending)
    ensures Covers(EnergyTable, EnergyOptions) && Ordered(EnergyTable, EnergyOptions, Ascending)
  {
    NeighboursOrdered(TransportTable, TransportOptions, Ascending);
    NeighboursOrdered(DietTable, DietOptions, Ascending);
    NeighboursOrdered(EnergyTable, EnergyOptions, Ascending);
  }

  /** The message shown under the total. */
  datatype Feedback = EcoChampion | GoodStart | RoomForGrowth

  /** Champion from 7 up, a good start from 4 to 6, room for growth below 4. */
  function FeedbackFor(total: int): (f: Feedback)
    ensures f == EcoChampion <==> total >= 7
    ensures f == GoodStart <==> 4 <= total < 7
    ensures f == RoomForGrowth <==> total < 4
  {
    if total >= 7 then EcoChampion
    else if total >= 4 then GoodStart
    else RoomForGrowth
  }

  /** How good a message is: the greener, the higher. */
  function Rank(f: Feedback): nat {
    match f
    case RoomForGrowth => 0
    case GoodStart => 1
    case EcoChampion => 2
  }

  /** A higher total never earns a worse message. */
  lemma FeedbackMonotone(a: int, b: int)
    requires a <= b
    ensures Rank(FeedbackFor(a)) <= Rank(FeedbackFor(b))
  {
  }

  /** What the results panel of `main` shows. */
  datatype Assessment = Assessment(transport: int, diet: int, energy: int, total: int, feedback: Feedback)

  /** The body of the score block in `main`: the three metrics, their
      inline sum, and the message for it. */
  function Assess(transport: string, diet: string, energy: string): (a: Assessment)
    ensures a.transport == TransportScore(transport)
    ensures a.diet == DietScore(diet)
    ensures a.energy == EnergyScore(energy)
    ensures a.total == TotalScore(transport, diet, energy)
    ensures a.total == a.transport + a.diet + a.energy
    ensures a.feedback == FeedbackFor(TotalScore(transport, diet, energy))
  {
    var ts := TransportScore(transport);
    var ds := DietScore(diet);
    var es := EnergyScore(energy);
    Assessment(ts, ds, es, ts + ds + es, FeedbackFor(ts + ds + es))
  }

  /** Every dictionary read in the score block is a defaulted one that
      succeeds, so no `KeyError` can reach the block's handler. */
  lemma KeyErrorHandlerUnreachable(transport: string, diet: string, energy: string)
    ensures Lookup(TransportTable, transport, WithDefault(0)).Ok?
    ensures Lookup(DietTable, diet, WithDefault(0)).Ok?
    ensures Lookup(EnergyTable, energy, WithDefault(0)).Ok?
  {
  }

  /** An unknown answer does not stop the form: it is scored 0 and the rest
      of the panel is shown as usual. */
  lemma UnknownTransportScoredZero(transport: string, diet: string, energy: string)
    requires transport !in TransportOptions
    ensures Assess(transport, diet, energy).transport == 0
    ensures Assess(transport, diet, energy).total == DietScore(diet) + EnergyScore(energy)
  {
  }

  /** A daily challenge and its award. */
  datatype Challenge = Challenge(name: string, points: int)

  const Challenges: seq<Challenge> := [
    Challenge("Public Transport Day", 2),
    Challenge("Veg Meal Day", 3),
    Challenge("Lights Off Hour", 1)
  ]

  predicate PositiveAwards(cs: seq<Challenge>) {
    forall i :: 0 <= i < |cs| ==> cs[i].points > 0
  }

  /** Points for completing the given challenges, in order. */
  function Earned(cs: seq<Challenge>): int {
    if cs == [] then 0 else cs[0].points + Earned(cs[1..])
  }

  /** The challenges whose buttons were pressed, in button order. */
  function Pressed(cs: seq<Challenge>, pressed: seq<bool>): (r: seq<Challenge>)
    requires |pressed| == |cs|
    ensures forall i :: 0 <= i < |r| ==> r[i] in cs
  {
    if cs == [] then []
    else Pressed(cs[..|cs| - 1], pressed[..|cs| - 1])
         + (if pressed[|cs| - 1] then [cs[|cs| - 1]] else [])
  }

  /** Awards add up across consecutive presses. */
  lemma {:induction false} EarnedConcat(a: seq<Challenge>, b: seq<Challenge>)
    ensures Earned(a + b) == Earned(a) + Earned(b)
  {
    if a != [] {
      assert (a + b)[1..] == a[1..] + b;
      EarnedConcat(a[1..], b);
    } else {
      assert a + b == b;
    }
  }

  /** With positive awards, pressed challenges earn at least nothing and at
      most what all of them together are worth. */
  lemma {:induction false} PressedEarnedBounded(cs: seq<Challenge>, pressed: seq<bool>)
    requires |pressed| == |cs| && PositiveAwards(cs)
    ensures 0 <= Earned(Pressed(cs, pressed)) <= Earned(cs)
  {
    if cs != [] {
      var n := |cs| - 1;
      var last := if pressed[n] then [cs[n]] else [];
      PressedEarnedBounded(cs[..n], pressed[..n]);
      EarnedConcat(Pressed(cs[..n], pressed[..n]), last);
      assert cs == cs[..n] + [cs[n]];
      EarnedConcat(cs[..n], [cs[n]]);
      assert Earned([cs[n]]) == cs[n].points;
    }
  }

  lemma ChallengeAwardsPositive()
    ensures PositiveAwards(Challenges)
    ensures Earned(Challenges) == 6
  {
  }

  /** The session-scoped score the challenge buttons feed. */
  class Session {
    var score: int

    /** A new session starts at zero. */
    constructor()
      ensures score == 0
    {
      score := 0;
    }

    /** A single press adds exactly that challenge's points. */
    method Press(c: Challenge)
      modifies this
      ensures score == old(score) + c.points
    {
      score := score + c.points;
    }

    /** One run of the challenge row: each button that was pressed adds its
        award, so the score grows by the pressed awards and never drops. */
    method ChallengeRow(pressed: seq<bool>)
      requires |pressed| == |Challenges|
      modifies this
      ensures score == old(score) + Earned(Pressed(Challenges, pressed))
      ensures score >= old(score)
    {
      for idx := 0 to |Challenges|
        invariant score == old(score) + Earned(Pressed(Challenges[..idx], pressed[..idx]))
      {
        var challenge := Challenges[idx];
        ghost var before := Pressed(Challenges[..idx], pressed[..idx]);
        assert Challenges[..idx + 1][..idx] == Challenges[..idx];
        assert pressed[..idx + 1][..idx] == pressed[..idx];
        if pressed[idx] {
          Press(challenge);
          EarnedConcat(before, [challenge]);
        } else {
          assert before + [] == before;
        }
      }
      assert Challenges[..|Challenges|] == Challenges;
      assert pressed[..|pressed|] == pressed;
      ChallengeAwardsPositive();
      PressedEarnedBounded(Challenges, pressed);
    }
  }
}
