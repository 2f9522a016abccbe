/**
 * Post-processing of the query classifier. The chat-completion call and the
 * JSON decoding of its reply are one oracle value, `Reply`: either the call
 * or the decoding raised (`Failed`), or the reply decoded to an object whose
 * fields the pipeline reads. Exactly one such reply is consumed per call;
 * there is no retry.
 */
module QueryClassifier {
  import opened Wrappers

  /** An entry of `mentioned_companies`; its `ticker` key may be missing. */
  datatype Mention = Mention(ticker: Option<string>, name: Option<string>)

  /**
   * The decoded reply. The two keys the code reads may be missing or `null`;
   * the others are passed on untouched, so only their presence is kept.
   */
  datatype Reply =
    | Failed
    | Json(queryType: Field<string>, reasoning: Option<string>,
           companies: Field<seq<Mention>>, metrics: Option<seq<string>>,
           aspects: Option<seq<string>>)

  /**
   * The classification handed to the orchestrator: the decoded object plus
   * `mentioned_tickers`. Keys the reply left out stay absent (`None`), and
   * a `query_type` that is `null` is `None` too.
   */
  datatype Classification = Classification(
    queryType: Option<string>, reasoning: Option<string>, companies: Option<seq<Mention>>,
    tickers: seq<string>, metrics: Option<seq<string>>, aspects: Option<seq<string>>)

  const FallbackReasoning := "Classification failed, defaulting to hybrid search"

  /** What any exception turns the classification into. */
  const Fallback := Classification(Some("HYBRID"), Some(FallbackReasoning), Some([]), [], Some([]), Some([]))

  /**
   * The `ticker` field of each mention, in order; `None` when some mention
   * has no `ticker` key (the comprehension raises `KeyError`).
   */
  function Tickers(ms: seq<Mention>): (r: Option<seq<string>>)
    ensures r.Some? <==> forall i :: 0 <= i < |ms| ==> ms[i].ticker.Some?
    ensures r.Some? ==> |r.value| == |ms| && forall i :: 0 <= i < |ms| ==> r.value[i] == ms[i].ticker.value
  {
    if ms == [] then Some([])
    else match (ms[0].ticker, Tickers(ms[1..]))
      case (Some(t), Some(rest)) => Some([t] + rest)
      case _ => None
  }

  /**
   * `classify`: the reply is used as decoded, with `mentioned_tickers` added.
   * A failed call, a reply that does not decode, a `mentioned_companies`
   * that is `null` (iterating it raises), a mention without a ticker or a
   * missing `query_type` (the log line's lookup raises) all give the HYBRID
   * fallback. A `query_type` that is `null` is kept as `None`.
   */
  function Classify(reply: Reply): (c: Classification)
    // The fallback is taken on each of the failures listed above.
    ensures c == Fallback <==
      (reply.Failed? || reply.queryType.Missing? || reply.companies.Null? ||
       (reply.companies.Present? && exists i :: 0 <= i < |reply.companies.value| && reply.companies.value[i].ticker.None?))
    // Otherwise the query type passes through unchecked, whatever string it
    // is or `None`, and the tickers are those of the mentions, in order.
    ensures reply.Json? && !reply.queryType.Missing? && reply.companies.Present? &&
            (forall i :: 0 <= i < |reply.companies.value| ==> reply.companies.value[i].ticker.Some?) ==>
      (reply.queryType.Present? ==> c.queryType == Some(reply.queryType.value)) &&
      (reply.queryType.Null? ==> c.queryType == None) &&
      c.companies == Some(reply.companies.value) &&
      |c.tickers| == |reply.companies.value| &&
      forall i :: 0 <= i < |c.tickers| ==> c.tickers[i] == reply.companies.value[i].ticker.value
    ensures reply.Json? && !reply.queryType.Missing? && reply.companies.Missing? ==>
      (reply.queryType.Present? ==> c.queryType == Some(reply.queryType.value)) &&
      (reply.queryType.Null? ==> c.queryType == None) &&
      c.companies == None && c.tickers == []
  {
    match reply
    case Failed => Fallback
    case Json(qt, reasoning, companies, metrics, aspects) =>
      var mentions: Option<seq<Mention>> := match companies case Present(ms) => Some(ms) case _ => None;
      var tickers := Tickers(match companies case Present(ms) => ms case _ => []);
      var queryType: Option<string> := match qt case Present(t) => Some(t) case _ => None;
      if companies.Null? || tickers.None? || qt.Missing? then Fallback
      else Classification(queryType, reasoning, mentions, tickers.value, metrics, aspects)
  }
}
