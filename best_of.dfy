/**
 * The Best-Of Selector: `find_best_response` in agents.py, a left-to-right
 * scan that starts from the sentinel score -1 and replaces the best entry
 * only on a strictly greater score.
 */
module BestOf {
  import opened Wrappers

  /** A Scored Candidate, created for every successful scored step. */
  datatype Candidate = Candidate(step: nat, model: string, output: string, score: int)

  /** What `find_best_response` returns: (output, score, model). */
  datatype Best = Best(output: string, score: int, model: string)

  /** The score the scan starts from. */
  const Sentinel: int := -1

  /**
   * The scan's state (`temp`, index of `best_response`) after it has seen
   * all of `cs`.
   */
  function Scan(cs: seq<Candidate>): (r: (int, Option<nat>))
    ensures r.1.None? ==> r.0 == Sentinel
    ensures r.1.Some? ==> r.1.value < |cs| && r.0 == cs[r.1.value].score
    ensures r.0 >= Sentinel
  {
    if cs == [] then (Sentinel, None)
    else
      var (temp, best) := Scan(cs[..|cs| - 1]);
      if cs[|cs| - 1].score > temp then (cs[|cs| - 1].score, Some(|cs| - 1)) else (temp, best)
  }

  /** Entry `k` has the greatest score and no earlier entry reaches it. */
  predicate IsFirstMax(cs: seq<Candidate>, k: int) {
    && 0 <= k < |cs|
    && (forall j :: 0 <= j < |cs| ==> cs[j].score <= cs[k].score)
    && (forall j :: 0 <= j < k ==> cs[j].score < cs[k].score)
  }

  /** The scan finds the first maximal entry, unless no score beats the sentinel. */
  lemma {:induction false} ScanIsFirstMax(cs: seq<Candidate>)
    ensures Scan(cs).1.None? <==> forall j :: 0 <= j < |cs| ==> cs[j].score <= Sentinel
    ensures Scan(cs).1.Some? ==> IsFirstMax(cs, Scan(cs).1.value)
    ensures forall j :: 0 <= j < |cs| ==> cs[j].score <= Scan(cs).0
  {
    if cs != [] {
      var init := cs[..|cs| - 1];
      ScanIsFirstMax(init);
      assert forall j :: 0 <= j < |init| ==> init[j] == cs[j];
    }
  }

  /** The best score seen never decreases as candidates are appended. */
  lemma {:induction false} ScanMonotone(cs: seq<Candidate>, n: nat)
    requires n <= |cs|
    ensures Scan(cs[..n]).0 <= Scan(cs).0
  {
    ScanIsFirstMax(cs[..n]);
    ScanIsFirstMax(cs);
    if Scan(cs[..n]).1.Some? {
      var k := Scan(cs[..n]).1.value;
      assert cs[..n][k] == cs[k];
    }
  }

  /** Appending one candidate: the scan either keeps its choice or picks the new one. */
  lemma ScanAppend(cs: seq<Candidate>, c: Candidate)
    ensures Scan(cs + [c]) == if c.score > Scan(cs).0 then (c.score, Some(|cs|)) else Scan(cs)
  {
    assert (cs + [c])[..|cs|] == cs;
  }

  /** `find_best_response` as a value: None where the source would raise. */
  function BestResponse(cs: seq<Candidate>): (r: Option<Best>)
    ensures r.None? <==> forall j :: 0 <= j < |cs| ==> cs[j].score <= Sentinel
    ensures r.Some? ==> exists k :: IsFirstMax(cs, k) && r.value == Best(cs[k].output, cs[k].score, cs[k].model)
  {
    ScanIsFirstMax(cs);
    match Scan(cs).1
    case None => None
    case Some(k) => Some(Best(cs[k].output, cs[k].score, cs[k].model))
  }

  /**
   * `find_best_response(all_responses)`. When no score exceeds -1 (in
   * particular on an empty list) `best_response` stays `None` and the
   * source fails indexing it; that case is the `None` result.
   */
  method FindBestResponse(cs: seq<Candidate>) returns (r: Option<Best>)
    ensures r == BestResponse(cs)
    ensures r.None? <==> forall j :: 0 <= j < |cs| ==> cs[j].score <= Sentinel
    ensures r.Some? ==> exists k :: IsFirstMax(cs, k) && r.value == Best(cs[k].output, cs[k].score, cs[k].model)
  {
    var temp := Sentinel;
    var bestResponse: Option<Candidate> := None;
    for i := 0 to |cs|
      invariant temp == Scan(cs[..i]).0
      invariant Scan(cs[..i]).1.None? ==> bestResponse.None?
      invariant Scan(cs[..i]).1.Some? ==> bestResponse == Some(cs[Scan(cs[..i]).1.value])
    {
      assert cs[..i + 1][..i] == cs[..i];
      if cs[i].score > temp {
        temp := cs[i].score;
        bestResponse := Some(cs[i]);
      }
    }
    assert cs[..|cs|] == cs;
    ScanIsFirstMax(cs);
    match bestResponse
    case None => r := None;
    case Some(b) => r := Some(Best(b.output, temp, b.model));
  }
}
