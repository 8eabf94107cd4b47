/** The language-model trading desk: four analysts whose remote analysis falls back to a
    moving-average rule, and a boss whose remote verdict falls back to a majority vote
    over the analysts' recommendations. The remote calls themselves are parameters: each
    either returns a value or raises. */
module OpenAIAgents {
  import opened Wrappers
  import opened Stats
  import opened Market

  /** Outcome of one remote call: the value it produced, or an exception. */
  datatype Reply<T> = Returned(value: T) | Raised

  /** The action text of a recommendation: one of the three words the vote table counts,
      or any other text a remote reply may carry there. */
  datatype Action = Buy | Sell | Hold | Other(text: string)

  /** One analyst's recommendation (its free-text reasoning is not modelled). */
  datatype Analysis = Analysis(action: Action, confidence: real, riskLevel: real, expectedReturn: real)

  /** The boss's verdict, with the recommendations it was made from in the order the
      analysts were consulted. */
  datatype FinalDecision = FinalDecision(
    finalAction: Action,
    confidence: real,
    riskLevel: real,
    expectedReturn: real,
    chosenAgent: string,
    allRecommendations: seq<(string, Analysis)>)

  /** The configured API key is usable: present and not the empty string. */
  predicate HasKey(key: Option<string>)
  {
    key.Some? && |key.value| > 0
  }

  /** The actions a vote is counted for, in the order the vote table lists them. */
  const Votes: seq<Action> := [Buy, Sell, Hold]

  predicate IsVote(action: Action)
  {
    action in Votes
  }

  const FastAverageWindow: nat := 20
  const SlowAverageWindow: nat := 50
  const VolatilityWindow: nat := 20
  const TrendLag: nat := 5

  /** Enough rows with positive closes for every statistic of the basic analysis. */
  predicate Analysable(s: Series)
  {
    |s| >= SlowAverageWindow && PositiveCloses(s)
  }

  /** Ten times the standard deviation of the last 20 daily returns, capped at 1: at
      most 1, at most the scaled volatility, and equal to one of the two. */
  function BasicRisk(sqrt: SquareRoot, s: Series): (r: real)
    requires Analysable(s)
    ensures 0.0 <= r <= 1.0
    ensures r <= 10.0 * StdDev(sqrt, Tail(Returns(s), VolatilityWindow))
    ensures r == 1.0 || r == 10.0 * StdDev(sqrt, Tail(Returns(s), VolatilityWindow))
  {
    Cap(StdDev(sqrt, Tail(Returns(s), VolatilityWindow)) * 10.0)
  }

  /** The change from the close four rows back to the last close, in percent. */
  function BasicExpectedReturn(s: Series): real
    requires Analysable(s)
  {
    RelativeDiff(Last(s).close, s[|s| - TrendLag].close) * 100.0
  }

  /** The basic trading rule on the last close and the two averages: buy above both
      with confidence 0.7, sell below both with confidence 0.7, hold with 0.5 otherwise. */
  function BasicRule(price: real, fast: real, slow: real): (r: (Action, real))
    ensures IsVote(r.0)
    ensures r.0 == Buy <==> price > fast && price > slow
    ensures r.0 == Sell <==> price < fast && price < slow
    ensures r.1 == if r.0 == Hold then 0.5 else 0.7
  {
    if price > fast && price > slow then (Buy, 0.7)
    else if price < fast && price < slow then (Sell, 0.7)
    else (Hold, 0.5)
  }

  /** The basic technical analysis: the trading rule applied to the last close and its
      20- and 50-day averages, risk from the 20-day volatility of daily returns, expected
      return from the change over the last five rows. */
  function BasicAnalyze(sqrt: SquareRoot, s: Series): (r: Analysis)
    requires Analysable(s)
    ensures IsVote(r.action)
    ensures (r.action, r.confidence) ==
      BasicRule(Last(s).close, MovingAverage(s, FastAverageWindow), MovingAverage(s, SlowAverageWindow))
    ensures r.riskLevel == BasicRisk(sqrt, s) && r.expectedReturn == BasicExpectedReturn(s)
  {
    var rule := BasicRule(Last(s).close, MovingAverage(s, FastAverageWindow), MovingAverage(s, SlowAverageWindow));
    Analysis(rule.0, rule.1, BasicRisk(sqrt, s), BasicExpectedReturn(s))
  }

  /** The basic analysis expects a gain exactly when the last close is above the close
      four rows earlier, and a loss exactly when it is below. */
  lemma BasicTrend(s: Series)
    requires Analysable(s)
    ensures BasicExpectedReturn(s) > 0.0 <==> Last(s).close > s[|s| - TrendLag].close
    ensures BasicExpectedReturn(s) < 0.0 <==> Last(s).close < s[|s| - TrendLag].close
  {
    var price, earlier := Last(s).close, s[|s| - TrendLag].close;
    DivSign(price - earlier, earlier);
    assert BasicExpectedReturn(s) == (price - earlier) / earlier * 100.0;
  }

  /** One analyst's answer, given the outcome of its remote call and `fallback`, the basic
      analysis of the same table: the remote recommendation when a key is configured and
      the call returns, the basic analysis when there is no key or the call raises. */
  function AgentAnalyze(key: Option<string>, reply: Reply<Analysis>, fallback: Analysis): (r: Analysis)
    ensures !HasKey(key) || reply.Raised? ==> r == fallback
    ensures HasKey(key) && reply.Returned? ==> r == reply.value
  {
    if !HasKey(key) then fallback
    else
      match reply
      case Returned(value) => value
      case Raised => fallback
  }

  /** The analysts the boss consults, in order. */
  const AgentNames: seq<string> := ["Technical Analyst", "Fundamental Analyst", "Sentiment Analyst", "News Analyst"]

  /** How many of the recommendations vote for `v`. */
  function Count(recs: seq<(string, Analysis)>, v: Action): (n: nat)
    ensures n <= |recs|
  {
    if |recs| == 0 then 0
    else Count(recs[..|recs| - 1], v) + (if recs[|recs| - 1].1.action == v then 1 else 0)
  }

  function Confidences(recs: seq<(string, Analysis)>): (xs: seq<real>)
    ensures |xs| == |recs| && forall i :: 0 <= i < |recs| ==> xs[i] == recs[i].1.confidence
  {
    seq(|recs|, i requires 0 <= i < |recs| => recs[i].1.confidence)
  }

  function Risks(recs: seq<(string, Analysis)>): (xs: seq<real>)
    ensures |xs| == |recs| && forall i :: 0 <= i < |recs| ==> xs[i] == recs[i].1.riskLevel
  {
    seq(|recs|, i requires 0 <= i < |recs| => recs[i].1.riskLevel)
  }

  function ExpectedReturns(recs: seq<(string, Analysis)>): (xs: seq<real>)
    ensures |xs| == |recs| && forall i :: 0 <= i < |recs| ==> xs[i] == recs[i].1.expectedReturn
  {
    seq(|recs|, i requires 0 <= i < |recs| => recs[i].1.expectedReturn)
  }

  /** The vote table, one count per entry of `Votes`. */
  function VoteCounts(recs: seq<(string, Analysis)>): (c: seq<real>)
    ensures |c| == |Votes| && forall k :: 0 <= k < |Votes| ==> c[k] == Count(recs, Votes[k]) as real
  {
    seq(|Votes|, k requires 0 <= k < |Votes| => Count(recs, Votes[k]) as real)
  }

  /** Every recommendation votes for one of the counted actions. */
  predicate AllVotes(recs: seq<(string, Analysis)>)
  {
    forall i :: 0 <= i < |recs| ==> IsVote(recs[i].1.action)
  }

  /** Position in `Votes` of the winning action: a largest count, the earliest listed
      action on a tie. */
  function MajorityIndex(recs: seq<(string, Analysis)>): (k: nat)
    ensures k < |Votes|
    ensures forall m :: 0 <= m < |Votes| ==> Count(recs, Votes[m]) <= Count(recs, Votes[k])
    ensures forall m :: 0 <= m < k ==> Count(recs, Votes[m]) < Count(recs, Votes[k])
  {
    ArgMax(VoteCounts(recs))
  }

  /** Position of the most confident recommendation, the earliest one on a tie. */
  function MostConfident(recs: seq<(string, Analysis)>): (i: nat)
    requires |recs| > 0
    ensures i < |recs|
    ensures forall j :: 0 <= j < |recs| ==> recs[j].1.confidence <= recs[i].1.confidence
    ensures forall j :: 0 <= j < i ==> recs[j].1.confidence < recs[i].1.confidence
  {
    ArgMax(Confidences(recs))
  }

  /** The boss's verdict without the remote model: the majority action, the mean
      confidence, risk and expected return, credited to the most confident analyst. */
  function BasicDecision(recs: seq<(string, Analysis)>): (d: FinalDecision)
    requires |recs| > 0 && AllVotes(recs)
    ensures IsVote(d.finalAction)
    ensures d.allRecommendations == recs
  {
    FinalDecision(
      Votes[MajorityIndex(recs)],
      Mean(Confidences(recs)),
      Mean(Risks(recs)),
      Mean(ExpectedReturns(recs)),
      recs[MostConfident(recs)].0,
      recs)
  }

  /** The verdict's confidence, risk and expected return are the averages of the reported
      values, so each lies between the smallest and the largest of them. */
  lemma DecisionAverages(recs: seq<(string, Analysis)>)
    requires |recs| > 0 && AllVotes(recs)
    ensures var d := BasicDecision(recs);
      Min(Confidences(recs)) <= d.confidence <= Max(Confidences(recs)) &&
      Min(Risks(recs)) <= d.riskLevel <= Max(Risks(recs)) &&
      Min(ExpectedReturns(recs)) <= d.expectedReturn <= Max(ExpectedReturns(recs))
    ensures var d := BasicDecision(recs);
      d.confidence == Mean(Confidences(recs)) && d.riskLevel == Mean(Risks(recs)) &&
      d.expectedReturn == Mean(ExpectedReturns(recs))
  {
    MeanBounds(Confidences(recs));
    MeanBounds(Risks(recs));
    MeanBounds(ExpectedReturns(recs));
  }

  /** The verdict credits the most confident analyst, the earliest one on a tie, and its
      action has the largest vote count, the earliest listed action on a tie. */
  lemma DecisionChoices(recs: seq<(string, Analysis)>)
    requires |recs| > 0 && AllVotes(recs)
    ensures var d := BasicDecision(recs); var i := MostConfident(recs);
      d.chosenAgent == recs[i].0 &&
      (forall j :: 0 <= j < |recs| ==> recs[j].1.confidence <= recs[i].1.confidence) &&
      (forall j :: 0 <= j < i ==> recs[j].1.confidence < recs[i].1.confidence)
    ensures var d := BasicDecision(recs); var k := MajorityIndex(recs);
      d.finalAction == Votes[k] &&
      (forall m :: 0 <= m < |Votes| ==> Count(recs, Votes[m]) <= Count(recs, d.finalAction)) &&
      (forall m :: 0 <= m < k ==> Count(recs, Votes[m]) < Count(recs, d.finalAction))
  {
  }

  /** Every recommendation is counted for exactly one action. */
  lemma {:induction false} CountsSumToLength(recs: seq<(string, Analysis)>)
    requires AllVotes(recs)
    ensures Count(recs, Buy) + Count(recs, Sell) + Count(recs, Hold) == |recs|
  {
    if |recs| > 0 {
      CountsSumToLength(recs[..|recs| - 1]);
      assert IsVote(recs[|recs| - 1].1.action);
    }
  }

  /** A recommendation is counted for at most one of two different actions. */
  lemma {:induction false} CountsOfTwo(recs: seq<(string, Analysis)>, v: Action, w: Action)
    requires v != w
    ensures Count(recs, v) + Count(recs, w) <= |recs|
  {
    if |recs| > 0 {
      CountsOfTwo(recs[..|recs| - 1], v, w);
    }
  }

  /** An action backed by more than half of the recommendations is the final action. */
  lemma MajorityWins(recs: seq<(string, Analysis)>, v: Action)
    requires |recs| > 0 && AllVotes(recs) && IsVote(v)
    requires 2 * Count(recs, v) > |recs|
    ensures BasicDecision(recs).finalAction == v
  {
    var k := MajorityIndex(recs);
    var m :| 0 <= m < |Votes| && Votes[m] == v;
    assert Count(recs, v) <= Count(recs, Votes[k]);
    if Votes[k] != v {
      CountsOfTwo(recs, Votes[k], v);
      assert false;
    }
  }

  /** When all recommendations agree on one action, every other action gets no vote. */
  lemma {:induction false} CountUnanimous(recs: seq<(string, Analysis)>, v: Action, w: Action)
    requires forall i :: 0 <= i < |recs| ==> recs[i].1.action == v
    ensures Count(recs, v) == |recs|
    ensures w != v ==> Count(recs, w) == 0
  {
    if |recs| > 0 {
      CountUnanimous(recs[..|recs| - 1], v, w);
    }
  }

  /** Among equally confident analysts the first one is the most confident. */
  lemma FirstOfEqualConfidence(recs: seq<(string, Analysis)>, c: real)
    requires |recs| > 0
    requires forall i :: 0 <= i < |recs| ==> recs[i].1.confidence == c
    ensures MostConfident(recs) == 0
  {
    var i := MostConfident(recs);
    assert recs[0].1.confidence == c == recs[i].1.confidence;
  }

  /** When every analyst gives the same analysis `a`, the verdict is `a` itself, credited
      to the first analyst. */
  lemma UnanimousDecision(recs: seq<(string, Analysis)>, a: Analysis)
    requires |recs| > 0 && IsVote(a.action)
    requires forall i :: 0 <= i < |recs| ==> recs[i].1 == a
    ensures AllVotes(recs)
    ensures BasicDecision(recs) == FinalDecision(a.action, a.confidence, a.riskLevel, a.expectedReturn, recs[0].0, recs)
  {
    var k := MajorityIndex(recs);
    CountUnanimous(recs, a.action, Votes[k]);
    assert Count(recs, a.action) <= Count(recs, Votes[k]) by {
      var m :| 0 <= m < |Votes| && Votes[m] == a.action;
    }
    MeanOfConstant(Confidences(recs), a.confidence);
    MeanOfConstant(Risks(recs), a.riskLevel);
    MeanOfConstant(ExpectedReturns(recs), a.expectedReturn);
    FirstOfEqualConfidence(recs, a.confidence);
  }

  /** The pass over the recommendations: the vote table and the three running totals. */
  method Tally(recs: seq<(string, Analysis)>)
    returns (actionCounts: map<Action, nat>, totalConfidence: real, totalRisk: real, totalReturn: real)
    requires AllVotes(recs)
    ensures Buy in actionCounts && actionCounts[Buy] == Count(recs, Buy)
    ensures Sell in actionCounts && actionCounts[Sell] == Count(recs, Sell)
    ensures Hold in actionCounts && actionCounts[Hold] == Count(recs, Hold)
    ensures totalConfidence == Sum(Confidences(recs))
    ensures totalRisk == Sum(Risks(recs))
    ensures totalReturn == Sum(ExpectedReturns(recs))
  {
    actionCounts := map[Buy := 0, Sell := 0, Hold := 0];
    totalConfidence, totalRisk, totalReturn := 0.0, 0.0, 0.0;
    for i := 0 to |recs|
      invariant Buy in actionCounts && actionCounts[Buy] == Count(recs[..i], Buy)
      invariant Sell in actionCounts && actionCounts[Sell] == Count(recs[..i], Sell)
      invariant Hold in actionCounts && actionCounts[Hold] == Count(recs[..i], Hold)
      invariant totalConfidence == Sum(Confidences(recs)[..i])
      invariant totalRisk == Sum(Risks(recs)[..i])
      invariant totalReturn == Sum(ExpectedReturns(recs)[..i])
    {
      var rec := recs[i].1;
      assert IsVote(rec.action);
      actionCounts := actionCounts[rec.action := actionCounts[rec.action] + 1];
      totalConfidence := totalConfidence + rec.confidence;
      totalRisk := totalRisk + rec.riskLevel;
      totalReturn := totalReturn + rec.expectedReturn;
      assert recs[..i + 1][..i] == recs[..i];
      SumPrefixStep(Confidences(recs), i);
      SumPrefixStep(Risks(recs), i);
      SumPrefixStep(ExpectedReturns(recs), i);
    }
    assert recs[..|recs|] == recs;
    assert Confidences(recs)[..|recs|] == Confidences(recs);
    assert Risks(recs)[..|recs|] == Risks(recs);
    assert ExpectedReturns(recs)[..|recs|] == ExpectedReturns(recs);
  }

  /** The majority-vote decision: tally the recommendations, take the action with the
      largest count, average the totals and credit the most confident analyst. */
  method MakeBasicDecision(recs: seq<(string, Analysis)>) returns (d: FinalDecision)
    requires |recs| > 0 && AllVotes(recs)
    ensures d == BasicDecision(recs)
  {
    var actionCounts, totalConfidence, totalRisk, totalReturn := Tally(recs);
    var counts := [actionCounts[Buy] as real, actionCounts[Sell] as real, actionCounts[Hold] as real];
    assert counts == VoteCounts(recs);
    var finalAction := Votes[ArgMax(counts)];
    var n := |recs| as real;
    var chosenAgent := recs[ArgMax(Confidences(recs))].0;
    d := FinalDecision(finalAction, totalConfidence / n, totalRisk / n, totalReturn / n, chosenAgent, recs);
  }

  /** Ask every analyst in turn, recording each answer under the analyst's name. */
  method Consult(key: Option<string>, agentReplies: seq<Reply<Analysis>>, fallback: Analysis)
    returns (recommendations: seq<(string, Analysis)>)
    requires |agentReplies| == |AgentNames|
    ensures |recommendations| == |AgentNames|
    ensures forall i :: 0 <= i < |AgentNames| ==>
      recommendations[i] == (AgentNames[i], AgentAnalyze(key, agentReplies[i], fallback))
  {
    recommendations := [];
    for i := 0 to |AgentNames|
      invariant |recommendations| == i
      invariant forall j :: 0 <= j < i ==>
        recommendations[j] == (AgentNames[j], AgentAnalyze(key, agentReplies[j], fallback))
    {
      recommendations := recommendations + [(AgentNames[i], AgentAnalyze(key, agentReplies[i], fallback))];
    }
  }

  /** The boss's decision: ask every analyst in turn, then take the remote verdict when a
      key is configured and the call returns, and the majority vote otherwise. The
      analysts' replies and the boss's reply are the outcomes of the remote calls, and
      `fallback` is the basic analysis of the table (`BasicAnalyze`), which an analyst
      reports when it falls back. The analysts' actions must be counted words whenever
      the boss falls back, as the vote table has no entry for any other text. */
  method Decide(key: Option<string>, agentReplies: seq<Reply<Analysis>>, bossReply: Reply<FinalDecision>,
                fallback: Analysis) returns (d: FinalDecision)
    requires |agentReplies| == |AgentNames|
    requires !HasKey(key) || bossReply.Raised? ==> IsVote(fallback.action)
    requires HasKey(key) && bossReply.Raised? ==>
      forall i :: 0 <= i < |agentReplies| && agentReplies[i].Returned? ==> IsVote(agentReplies[i].value.action)
    ensures !HasKey(key) ==>
      d.finalAction == fallback.action && d.confidence == fallback.confidence &&
      d.riskLevel == fallback.riskLevel && d.expectedReturn == fallback.expectedReturn &&
      d.chosenAgent == AgentNames[0]
    ensures HasKey(key) && bossReply.Returned? ==> d == bossReply.value
    ensures !HasKey(key) || bossReply.Raised? ==>
      |d.allRecommendations| == |AgentNames| && AllVotes(d.allRecommendations) &&
      d == BasicDecision(d.allRecommendations) &&
      forall i :: 0 <= i < |AgentNames| ==>
        d.allRecommendations[i] == (AgentNames[i], AgentAnalyze(key, agentReplies[i], fallback))
  {
    var recommendations := Consult(key, agentReplies, fallback);
    if !HasKey(key) {
      UnanimousDecision(recommendations, fallback);
      d := MakeBasicDecision(recommendations);
    } else if bossReply.Returned? {
      d := bossReply.value;
    } else {
      assert AllVotes(recommendations) by {
        forall j | 0 <= j < |recommendations|
          ensures IsVote(recommendations[j].1.action)
        {
          if agentReplies[j].Raised? {
            assert recommendations[j].1 == fallback;
          }
        }
      }
      d := MakeBasicDecision(recommendations);
    }
  }
}
