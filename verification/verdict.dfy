/**
 The verdict shown after a prediction: the classifier's churn probability is
 read as "likely to churn" only above the fixed cut-off 0.5; a probability of
 exactly 0.5 is read as "likely to stay".
 */
module ChurnVerdict {

  const ChurnThreshold: real := 0.5

  datatype Verdict = LikelyToChurn | LikelyToStay

  /** The verdict for a churn probability: churn exactly when it is strictly above the cut-off. */
  function Decide(probability: real): (v: Verdict)
    ensures v == LikelyToChurn <==> probability > ChurnThreshold
    ensures v == LikelyToStay <==> probability <= ChurnThreshold
  {
    if probability > ChurnThreshold then LikelyToChurn else LikelyToStay
  }

  /** The cut-off itself is read as "likely to stay". */
  lemma DecideAtThreshold()
    ensures Decide(0.5) == LikelyToStay
  {
  }

  /** A higher probability never turns a churn verdict into a stay verdict. */
  lemma DecideMonotone(p: real, q: real)
    requires p <= q
    ensures Decide(p) == LikelyToChurn ==> Decide(q) == LikelyToChurn
    ensures Decide(q) == LikelyToStay ==> Decide(p) == LikelyToStay
  {
  }

}
