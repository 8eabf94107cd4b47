/** `TradingBoss` of `trading_agents/agents.py`: scores every agent's recommendation,
    weights the scores per agent, picks the best one and keeps the history of decisions;
    the weight table can be replaced from performance figures. */
module Boss {
  import opened Stats
  import opened Market
  import opened Agents

  /** `evaluate_recommendation`: a fixed linear mix of confidence, expected return (in
      percent) and safety (one minus risk). It is not clamped: with confidence and risk in
      [0, 1], confidence and safety add at most 0.6 to the expected return's share. */
  function Score(r: Recommendation): (score: real)
    ensures 0.0 <= r.confidence <= 1.0 && 0.0 <= r.riskLevel <= 1.0 ==>
              r.expectedReturn * 0.004 <= score <= r.expectedReturn * 0.004 + 0.6
  {
    r.confidence * 0.4 + (r.expectedReturn / 100.0) * 0.4 + (1.0 - r.riskLevel) * 0.2
  }

  /** The score grows with confidence and expected return and falls with risk. */
  lemma ScoreMonotone(a: Recommendation, b: Recommendation)
    requires a.confidence <= b.confidence
    requires a.expectedReturn <= b.expectedReturn
    requires a.riskLevel >= b.riskLevel
    ensures Score(a) <= Score(b)
    ensures Score(a) == Score(b) <==>
              a.confidence == b.confidence && a.expectedReturn == b.expectedReturn && a.riskLevel == b.riskLevel
  {
  }

  /** Even with confidence and risk kept in [0, 1], the expected return alone drives the
      score past any bound in both directions. */
  lemma ScoreUnbounded(r: Recommendation, bound: real)
    requires 0.0 <= r.confidence <= 1.0 && 0.0 <= r.riskLevel <= 1.0
    ensures Score(r.(expectedReturn := 1000.0 * Abs(bound) + 1000.0)) > bound
    ensures Score(r.(expectedReturn := -1000.0 * Abs(bound) - 1000.0)) < bound
  {
    var up, down := r.(expectedReturn := 1000.0 * Abs(bound) + 1000.0), r.(expectedReturn := -1000.0 * Abs(bound) - 1000.0);
    assert Score(up) >= 4.0 * Abs(bound) + 4.0;
    assert Score(down) <= 0.6 - 4.0 * Abs(bound) - 4.0;
  }

  /** The agents in the order the boss registers them (the insertion order of its dict). */
  const Registry: seq<(string, Agent)> :=
    [("swing", Swing), ("momentum", MomentumTrader), ("value", ValueInvestor), ("quant", Quant)]

  const InitialWeights: map<string, real> :=
    map["swing" := 0.25, "momentum" := 0.25, "value" := 0.25, "quant" := 0.25]

  /** An agent object's `generate_recommendation`, defined on the series it accepts. */
  type Recommender = Series --> Recommendation

  /** The boss's agent table: each registered agent's recommender, the numeric library
      bound in. */
  function Bind(sqrt: SquareRoot): (agents: seq<(string, Recommender)>)
    ensures |agents| == |Registry|
    ensures forall j :: 0 <= j < |Registry| ==> agents[j].0 == Registry[j].0
    ensures forall j, s :: 0 <= j < |Registry| && |s| >= Registry[j].1.MinLength() && PositiveCloses(s) ==>
              agents[j].1.requires(s) && agents[j].1(s) == Registry[j].1.Recommend(sqrt, s)
  {
    seq(|Registry|, j requires 0 <= j < |Registry| =>
      (Registry[j].0, s requires |s| >= Registry[j].1.MinLength() && PositiveCloses(s) => Registry[j].1.Recommend(sqrt, s)))
  }

  function NamesOf<T>(entries: seq<(string, T)>): (names: seq<string>)
    ensures |names| == |entries| && forall j :: 0 <= j < |entries| ==> names[j] == entries[j].0
  {
    seq(|entries|, j requires 0 <= j < |entries| => entries[j].0)
  }

  /** Every name in `names` has a weight (otherwise `decide` fails on the lookup). */
  predicate Covers(names: seq<string>, weights: map<string, real>)
  {
    forall i :: 0 <= i < |names| ==> names[i] in weights
  }

  predicate Distinct(names: seq<string>)
  {
    forall i, j :: 0 <= i < j < |names| ==> names[i] != names[j]
  }

  /** The agent's score on `s` multiplied by its weight; a positive weight keeps the
      score's sign. */
  function WeightedScore(agent: (string, Recommender), weights: map<string, real>, s: Series): (ws: real)
    requires agent.0 in weights && agent.1.requires(s)
    ensures weights[agent.0] > 0.0 ==> (ws > 0.0 <==> Score(agent.1(s)) > 0.0)
    ensures weights[agent.0] > 0.0 ==> (ws < 0.0 <==> Score(agent.1(s)) < 0.0)
  {
    Score(agent.1(s)) * weights[agent.0]
  }

  /** The agents' weighted scores on `s`, in registration order. */
  function Ranking(agents: seq<(string, Recommender)>, weights: map<string, real>, s: Series): (ws: seq<real>)
    requires forall j :: 0 <= j < |agents| ==> agents[j].0 in weights && agents[j].1.requires(s)
    ensures |ws| == |agents| && forall j :: 0 <= j < |agents| ==> ws[j] == WeightedScore(agents[j], weights, s)
  {
    seq(|agents|, j requires 0 <= j < |agents| => WeightedScore(agents[j], weights, s))
  }

  /** The names listed in `names`, as a set (the keys of a dict built from them). */
  function NameSet(names: seq<string>): (keys: set<string>)
    ensures forall j :: 0 <= j < |names| ==> names[j] in keys
  {
    set j | 0 <= j < |names| :: names[j]
  }

  lemma NameSetStep(names: seq<string>, i: nat)
    requires i < |names|
    ensures NameSet(names[..i + 1]) == NameSet(names[..i]) + {names[i]}
  {
    var a, b := names[..i + 1], names[..i];
    assert forall j :: 0 <= j < i ==> a[j] == b[j];
    assert a[i] == names[i];
  }

  /** Each agent's recommendation on `s`, in registration order. */
  function Outputs(agents: seq<(string, Recommender)>, s: Series): (rs: seq<Recommendation>)
    requires forall j :: 0 <= j < |agents| ==> agents[j].1.requires(s)
    ensures |rs| == |agents| && forall j :: 0 <= j < |agents| ==> rs[j] == agents[j].1(s)
  {
    seq(|agents|, j requires 0 <= j < |agents| => agents[j].1(s))
  }

  /** The registered names are distinct, and each has an initial weight. */
  lemma RegistryNames()
    ensures Distinct(NamesOf(Registry)) && Covers(NamesOf(Registry), InitialWeights)
  {
    var names := NamesOf(Registry);
    assert names[0][0] == 's' && names[1][0] == 'm' && names[2][0] == 'v' && names[3][0] == 'q';
  }

  /** The boss's table is ready for `decide` on any series as long as the value
      investor's window with positive closes, where each entry recommends what its agent
      does. */
  lemma BoundRegistry(sqrt: SquareRoot, s: Series)
    requires |s| >= ValuationWindow && PositiveCloses(s)
    ensures Distinct(NamesOf(Bind(sqrt))) && Covers(NamesOf(Bind(sqrt)), InitialWeights)
    ensures forall j :: 0 <= j < |Registry| ==>
              Bind(sqrt)[j].1.requires(s) && Bind(sqrt)[j].1(s) == Registry[j].1.Recommend(sqrt, s)
  {
    RegistryNames();
    assert NamesOf(Bind(sqrt)) == NamesOf(Registry);
    forall j | 0 <= j < |Registry|
      ensures Bind(sqrt)[j].1.requires(s) && Bind(sqrt)[j].1(s) == Registry[j].1.Recommend(sqrt, s)
    {
      assert |s| >= Registry[j].1.MinLength();
    }
  }

  datatype Decision = Decision(
    finalAction: Action,
    confidence: real,
    riskLevel: real,
    expectedReturn: real,
    chosenAgent: string,
    allRecommendations: map<string, Recommendation>)

  // ------------------------------------------------------------- Weight updates

  /** Performance figures in the order the caller's dict lists them. */
  type Performance = seq<(string, real)>

  predicate DistinctAgents(perf: Performance)
  {
    forall i, j :: 0 <= i < j < |perf| ==> perf[i].0 != perf[j].0
  }

  function AgentsOf(perf: Performance): set<string>
  {
    set i | 0 <= i < |perf| :: perf[i].0
  }

  /** `sum(performance_data.values())`: never positive when no figure is. */
  function TotalPerformance(perf: Performance): (total: real)
    ensures (forall i :: 0 <= i < |perf| ==> perf[i].1 <= 0.0) ==> total <= 0.0
  {
    if |perf| == 0 then 0.0 else TotalPerformance(perf[..|perf| - 1]) + perf[|perf| - 1].1
  }

  /** The figure given for `agent`. */
  function PerformanceOf(perf: Performance, agent: string): real
    requires agent in AgentsOf(perf)
  {
    if perf[0].0 == agent then perf[0].1
    else
      assert agent in AgentsOf(perf[1..]) by {
        var i :| 0 <= i < |perf| && perf[i].0 == agent;
        assert perf[1..][i - 1].0 == agent;
      }
      PerformanceOf(perf[1..], agent)
  }

  lemma {:induction false} PerformanceOfAt(perf: Performance, i: nat)
    requires DistinctAgents(perf) && i < |perf|
    ensures perf[i].0 in AgentsOf(perf)
    ensures PerformanceOf(perf, perf[i].0) == perf[i].1
  {
    if i > 0 {
      assert perf[1..][i - 1] == perf[i];
      assert perf[0].0 != perf[i].0;
      PerformanceOfAt(perf[1..], i - 1);
    }
  }

  /** The table `update_weights` installs: each named agent's share of the total. */
  function Normalized(perf: Performance, total: real): (w: map<string, real>)
    requires total != 0.0
    ensures w.Keys == AgentsOf(perf)
  {
    map a | a in AgentsOf(perf) :: PerformanceOf(perf, a) / total
  }

  /** Sum of the weights of the agents `perf` names, in its order. */
  function WeightOfNamed(weights: map<string, real>, perf: Performance): real
    requires AgentsOf(perf) <= weights.Keys
  {
    if |perf| == 0 then 0.0
    else
      assert AgentsOf(perf[..|perf| - 1]) <= AgentsOf(perf) by {
        forall a | a in AgentsOf(perf[..|perf| - 1]) ensures a in AgentsOf(perf) {
          var i :| 0 <= i < |perf| - 1 && perf[..|perf| - 1][i].0 == a;
          assert perf[i].0 == a;
        }
      }
      assert perf[|perf| - 1].0 in AgentsOf(perf);
      WeightOfNamed(weights, perf[..|perf| - 1]) + weights[perf[|perf| - 1].0]
  }

  /** Each agent gets exactly its own figure divided by the total. */
  lemma NormalizedAt(perf: Performance, total: real, i: nat)
    requires DistinctAgents(perf) && total != 0.0 && i < |perf|
    ensures perf[i].0 in Normalized(perf, total)
    ensures Normalized(perf, total)[perf[i].0] == perf[i].1 / total
  {
    PerformanceOfAt(perf, i);
  }

  lemma AddDivided(a: real, b: real, t: real)
    requires t != 0.0
    ensures a / t + b / t == (a + b) / t
  {
  }

  lemma {:induction false} ScaledSum(weights: map<string, real>, perf: Performance, total: real)
    requires total != 0.0 && AgentsOf(perf) <= weights.Keys
    requires forall i :: 0 <= i < |perf| ==> weights[perf[i].0] == perf[i].1 / total
    ensures WeightOfNamed(weights, perf) == TotalPerformance(perf) / total
  {
    if |perf| > 0 {
      var init := perf[..|perf| - 1];
      assert AgentsOf(init) <= AgentsOf(perf) by {
        forall a | a in AgentsOf(init) ensures a in AgentsOf(perf) {
          var i :| 0 <= i < |init| && init[i].0 == a;
          assert perf[i].0 == a;
        }
      }
      ScaledSum(weights, init, total);
      AddDivided(TotalPerformance(init), perf[|perf| - 1].1, total);
    }
  }

  /** With a positive total, the new weights of the named agents sum to one. */
  lemma NormalizedSumsToOne(perf: Performance)
    requires DistinctAgents(perf) && TotalPerformance(perf) > 0.0
    ensures WeightOfNamed(Normalized(perf, TotalPerformance(perf)), perf) == 1.0
  {
    var total := TotalPerformance(perf);
    forall i | 0 <= i < |perf| ensures Normalized(perf, total)[perf[i].0] == perf[i].1 / total {
      NormalizedAt(perf, total, i);
    }
    ScaledSum(Normalized(perf, total), perf, total);
    DivSelf(total);
  }

  lemma DivSelf(t: real)
    requires t != 0.0
    ensures t / t == 1.0
  {
  }

  /** After a replacement, `decide` finds a weight for every agent exactly when every
      agent was among the agents in the performance figures. */
  lemma NormalizedCoversIff(names: seq<string>, perf: Performance, total: real)
    requires total != 0.0
    ensures Covers(names, Normalized(perf, total)) <==>
              forall i :: 0 <= i < |names| ==> names[i] in AgentsOf(perf)
  {
  }

  // ------------------------------------------------------------------- The boss

  class TradingBoss {
    ghost const sqrt: SquareRoot
    const agents: seq<(string, Recommender)>
    var weights: map<string, real>
    var pastDecisions: seq<Decision>

    /** The agent table lists the registered names, in order and distinct, and each of its
        entries accepts every series of the value investor's window with positive closes,
        recommending there with confidence at most 1 and risk in [0, 1]. */
    ghost predicate Valid()
    {
      NamesOf(agents) == NamesOf(Registry) && Distinct(NamesOf(agents)) &&
      forall s: Series, j :: |s| >= ValuationWindow && PositiveCloses(s) && 0 <= j < |agents| ==>
        agents[j].1.requires(s) &&
        agents[j].1(s).confidence <= 1.0 && 0.0 <= agents[j].1(s).riskLevel <= 1.0
    }

    /** The boss registers the four agents, each with weight 0.25, and no history. */
    constructor (sqrt: SquareRoot)
      ensures Valid() && this.sqrt == sqrt
      ensures agents == Bind(sqrt)
      ensures weights == InitialWeights
      ensures pastDecisions == []
    {
      this.sqrt := sqrt;
      agents := Bind(sqrt);
      weights := InitialWeights;
      pastDecisions := [];
      new;
      forall s: Series | |s| >= ValuationWindow && PositiveCloses(s)
        ensures forall j :: 0 <= j < |agents| ==>
          (agents[j].1.requires(s) &&
           agents[j].1(s).confidence <= 1.0 && 0.0 <= agents[j].1(s).riskLevel <= 1.0)
      {
        BoundRegistry(sqrt, s);
      }
      RegistryNames();
      assert NamesOf(Bind(sqrt)) == NamesOf(Registry);
    }

    /** The first loop of `decide`: every agent's recommendation on `s` and its score,
        keyed by the agent's name. */
    method Evaluate(s: Series) returns (recommendations: map<string, Recommendation>, scores: map<string, real>)
      requires Distinct(NamesOf(agents))
      requires forall j :: 0 <= j < |agents| ==> agents[j].1.requires(s)
      ensures recommendations.Keys == scores.Keys == NameSet(NamesOf(agents))
      ensures forall j :: 0 <= j < |agents| ==> agents[j].0 in recommendations && recommendations[agents[j].0] == agents[j].1(s)
      ensures forall a :: a in scores ==> scores[a] == Score(recommendations[a])
    {
      ghost var names := NamesOf(agents);
      recommendations, scores := map[], map[];
      for i := 0 to |agents|
        invariant recommendations.Keys == scores.Keys == NameSet(names[..i])
        invariant forall j :: 0 <= j < i ==> recommendations[names[j]] == agents[j].1(s)
        invariant forall a :: a in scores ==> scores[a] == Score(recommendations[a])
      {
        var (name, agent) := agents[i];
        var recommendation := agent(s);
        NameSetStep(names, i);
        assert forall j :: 0 <= j < i ==> names[j] != name;
        recommendations := recommendations[name := recommendation];
        scores := scores[name := Score(recommendation)];
      }
      assert names[..|agents|] == names;
    }

    /** The middle of `decide`: each score multiplied by its agent's weight, listed in
        the agents' order (the order `max` visits the weighted scores in). Every agent
        needs a weight here. */
    method Rank(s: Series, recommendations: map<string, Recommendation>, scores: map<string, real>)
      returns (ranking: seq<real>)
      requires Covers(NamesOf(agents), weights)
      requires forall j :: 0 <= j < |agents| ==> agents[j].1.requires(s)
      requires forall j :: 0 <= j < |agents| ==> agents[j].0 in recommendations && recommendations[agents[j].0] == agents[j].1(s)
      requires scores.Keys == recommendations.Keys == NameSet(NamesOf(agents))
      requires forall a :: a in scores ==> scores[a] == Score(recommendations[a])
      ensures ranking == Ranking(agents, weights, s)
    {
      var weighted := map a | a in scores :: scores[a] * weights[a];
      ranking := seq(|agents|, j requires 0 <= j < |agents| => weighted[agents[j].0]);
      forall j | 0 <= j < |agents| ensures ranking[j] == WeightedScore(agents[j], weights, s) {
        var a := agents[j].0;
        assert ranking[j] == scores[a] * weights[a];
      }
    }

    /** `decide`: one recommendation per agent, keyed by its name; the chosen agent is the
        one `max` picks from the weighted scores, so the first of the greatest; the
        decision copies that agent's recommendation and is appended to the history. */
    method Decide(s: Series) returns (d: Decision)
      requires Valid() && Covers(NamesOf(agents), weights)
      requires |s| >= ValuationWindow && PositiveCloses(s)
      modifies this`pastDecisions
      ensures d.allRecommendations.Keys == NameSet(NamesOf(agents))
      ensures forall j :: 0 <= j < |agents| ==> d.allRecommendations[agents[j].0] == Outputs(agents, s)[j]
      ensures d.chosenAgent == agents[ArgMax(Ranking(agents, weights, s))].0
      ensures d.chosenAgent in NamesOf(Registry)
      ensures d.confidence <= 1.0 && 0.0 <= d.riskLevel <= 1.0
      ensures var best := d.allRecommendations[d.chosenAgent];
                d.finalAction == best.action && d.confidence == best.confidence &&
                d.riskLevel == best.riskLevel && d.expectedReturn == best.expectedReturn
      ensures pastDecisions == old(pastDecisions) + [d]
    {
      var recommendations, scores := Evaluate(s);
      var ranking := Rank(s, recommendations, scores);
      var bestAgent := agents[ArgMax(ranking)].0;
      var best := recommendations[bestAgent];
      d := Decision(best.action, best.confidence, best.riskLevel, best.expectedReturn,
                    bestAgent, recommendations);
      pastDecisions := pastDecisions + [d];
    }

    /** `update_weights`: a positive total replaces the whole table by the figures'
        shares of it (agents not named lose their weight); otherwise nothing changes. */
    method UpdateWeights(performance: Performance)
      requires DistinctAgents(performance)
      modifies this`weights
      ensures TotalPerformance(performance) <= 0.0 ==> weights == old(weights)
      ensures TotalPerformance(performance) > 0.0 ==>
                weights == Normalized(performance, TotalPerformance(performance))
      ensures TotalPerformance(performance) > 0.0 ==>
                weights.Keys == AgentsOf(performance) && WeightOfNamed(weights, performance) == 1.0
    {
      var total := TotalPerformance(performance);
      if total > 0.0 {
        weights := Normalized(performance, total);
        NormalizedSumsToOne(performance);
      }
    }
  }
}
