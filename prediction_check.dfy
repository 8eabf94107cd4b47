/** Verification of stored news-based predictions against the latest price move: every
    pending prediction of a company made within the last week is labelled with the
    actual movement, the price change, whether it was right, and when it was checked. */
module PredictionCheck {
  import opened Wrappers

  /** The prediction choices: the price goes up, goes down, or does not change much. */
  datatype Movement = Up | Down | Neutral

  /** Seconds in the seven-day window of predictions still worth checking. */
  const Week: int := 7 * 24 * 60 * 60

  /** A stored prediction (its news article, confidence score and verification delay are
      not read by the prediction check and are left out). `company` is the company's ticker symbol,
      which identifies it; instants are seconds on one clock. The last four fields are
      unset until the prediction is checked. */
  datatype Prediction = Prediction(
    company: string,
    prediction: Movement,
    predictionDate: int,
    actualMovement: Option<Movement>,
    actualPriceChange: Option<real>,
    isCorrect: Option<bool>,
    verifiedAt: Option<int>)

  /** The prediction is one the query for `company` returns at `now`: made for that
      company, no earlier than a week before `now`, and not yet labelled. */
  predicate Pending(p: Prediction, company: string, now: int)
  {
    p.company == company && p.predictionDate >= now - Week && p.actualMovement.None?
  }

  /** The prediction checked against a price change: `Up` exactly for a rise, `Down`
      otherwise (so no change counts as down), correct exactly when an up call met a
      rise or a down call met a fall; its subject and its call stay as they were. */
  function Verify(p: Prediction, change: real, now: int): (r: Prediction)
    ensures r.actualMovement == Some(Up) <==> change > 0.0
    ensures r.actualMovement == Some(Down) <==> change <= 0.0
    ensures r.isCorrect == Some(true) <==> (p.prediction == Up && change > 0.0) || (p.prediction == Down && change < 0.0)
    ensures r.isCorrect.Some?
    ensures r.actualPriceChange == Some(change) && r.verifiedAt == Some(now)
    ensures r.company == p.company && r.prediction == p.prediction && r.predictionDate == p.predictionDate
  {
    var movement := if change > 0.0 then Up else Down;
    var correct := (p.prediction == Up && change > 0.0) || (p.prediction == Down && change < 0.0);
    p.(actualMovement := Some(movement), actualPriceChange := Some(change), isCorrect := Some(correct),
       verifiedAt := Some(now))
  }

  /** A neutral call is never marked correct, and with no price change no call is. */
  lemma NeverCorrect(p: Prediction, change: real, now: int)
    requires p.prediction == Neutral || change == 0.0
    ensures Verify(p, change, now).isCorrect == Some(false)
  {
  }

  /** One company's step: check the prediction if that company has a price change and the
      prediction is pending for it, leave it alone otherwise. */
  function Step(p: Prediction, company: string, change: Option<real>, now: int): Prediction
  {
    if change.Some? && Pending(p, company, now) then Verify(p, change.value, now) else p
  }

  /** The prediction after the steps of `companies`, in order. */
  function Settle(p: Prediction, companies: seq<string>, changes: map<string, Option<real>>, now: int): Prediction
    requires forall c :: c in companies ==> c in changes
  {
    if |companies| == 0 then p
    else
      var c := companies[|companies| - 1];
      Step(Settle(p, companies[..|companies| - 1], changes, now), c, changes[c], now)
  }

  /** The prediction is due: its company is among those visited, that company has a price
      change, and the prediction is pending for it. */
  predicate Due(p: Prediction, companies: seq<string>, changes: map<string, Option<real>>, now: int)
  {
    p.company in companies && p.company in changes && changes[p.company].Some? && Pending(p, p.company, now)
  }

  /** Visiting the companies checks exactly the due predictions, each once, against its
      own company's change, and leaves every other prediction as it was; visiting a
      company twice changes nothing more, since a checked prediction is no longer pending. */
  lemma {:induction false} SettleChecksDue(p: Prediction, companies: seq<string>, changes: map<string, Option<real>>, now: int)
    requires forall c :: c in companies ==> c in changes
    ensures Due(p, companies, changes, now) ==> Settle(p, companies, changes, now) == Verify(p, changes[p.company].value, now)
    ensures !Due(p, companies, changes, now) ==> Settle(p, companies, changes, now) == p
  {
    if |companies| > 0 {
      var init, c := companies[..|companies| - 1], companies[|companies| - 1];
      SettleChecksDue(p, init, changes, now);
      assert forall x :: x in companies <==> x in init || x == c;
    }
  }

  /** The verification pass: for each company in turn, check every pending prediction of
      that company when it has a price change. The new table holds exactly the due
      predictions checked and every other one unchanged. */
  method UpdatePredictions(companies: seq<string>, changes: map<string, Option<real>>,
                           predictions: array<Prediction>, now: int)
    requires forall c :: c in companies ==> c in changes
    modifies predictions
    ensures forall i :: 0 <= i < predictions.Length && Due(old(predictions[i]), companies, changes, now) ==>
      predictions[i] == Verify(old(predictions[i]), changes[old(predictions[i]).company].value, now)
    ensures forall i :: 0 <= i < predictions.Length && !Due(old(predictions[i]), companies, changes, now) ==>
      predictions[i] == old(predictions[i])
  {
    for k := 0 to |companies|
      invariant forall i :: 0 <= i < predictions.Length ==>
        predictions[i] == Settle(old(predictions[i]), companies[..k], changes, now)
    {
      var company := companies[k];
      var change := changes[company];
      assert companies[..k + 1][..k] == companies[..k];
      if change.Some? {
        for i := 0 to predictions.Length
          invariant forall j :: 0 <= j < i ==>
            predictions[j] == Step(Settle(old(predictions[j]), companies[..k], changes, now), company, change, now)
          invariant forall j :: i <= j < predictions.Length ==>
            predictions[j] == Settle(old(predictions[j]), companies[..k], changes, now)
        {
          if Pending(predictions[i], company, now) {
            predictions[i] := Verify(predictions[i], change.value, now);
          }
        }
      }
    }
    assert companies[..|companies|] == companies;
    forall i | 0 <= i < predictions.Length
      ensures Due(old(predictions[i]), companies, changes, now) ==>
        predictions[i] == Verify(old(predictions[i]), changes[old(predictions[i]).company].value, now)
      ensures !Due(old(predictions[i]), companies, changes, now) ==> predictions[i] == old(predictions[i])
    {
      SettleChecksDue(old(predictions[i]), companies, changes, now);
    }
  }
}
