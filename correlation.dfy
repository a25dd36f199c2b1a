/** The guard around the correlation coefficient of the joined series. */
module Correlation {
  import opened Stats
  import opened Alignment

  /** No coefficient, or the sentiment and closing-price arrays, paired index by
      index, from which Pearson's coefficient is computed. */
  datatype CorrelationInput = NotComputed | Computed(sentiments: seq<real>, closes: seq<real>)

  /** Line 188: a coefficient only when more than one row was joined. */
  function CorrelationOf(aligned: seq<AlignedPoint>): (c: CorrelationInput)
    ensures c.Computed? <==> |aligned| > 1
    ensures c.Computed? ==> |c.sentiments| == |aligned| && |c.closes| == |aligned|
    ensures c.Computed? ==> forall k :: 0 <= k < |aligned| ==>
      c.sentiments[k] == aligned[k].sentiment && c.closes[k] == aligned[k].close
  {
    if |aligned| > 1 then
      Computed(seq(|aligned|, k requires 0 <= k < |aligned| => aligned[k].sentiment),
               seq(|aligned|, k requires 0 <= k < |aligned| => aligned[k].close))
    else NotComputed
  }

  /** The covariance of the paired arrays is defined whenever a coefficient is
      computed, and it is the same taken either way round. */
  lemma CovarianceWhenComputed(aligned: seq<AlignedPoint>)
    requires CorrelationOf(aligned).Computed?
    ensures var c := CorrelationOf(aligned);
            |c.sentiments| == |c.closes| >= 2 &&
            Covariance(c.sentiments, c.closes) == Covariance(c.closes, c.sentiments)
  {
    var c := CorrelationOf(aligned);
    CovarianceSymmetric(c.sentiments, c.closes);
  }
}
