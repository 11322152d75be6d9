/**
 * The Refinement Chain Driver as a specification: one step of
 * `sequential_model_chain` / `sequential_model_chain_with_full_history`
 * as a function on the run state, the run as the fold of that step over
 * the model list, and the invariants the run keeps.
 */
module Chain {
  import opened Wrappers
  import opened Invoker
  import opened Scoring
  import opened BestOf

  /** One entry of `all_steps`: the call record, its 1-based step and its timestamp. */
  datatype StepRecord = StepRecord(call: CallResult, step: nat, timestamp: string)

  /** Readings of `datetime.now().isoformat()`, numbered in the order they are taken. */
  type Clock = nat -> string

  /**
   * What a run is given. `rubric` selects the prompt templates with scoring
   * hints (full-history driver); `scoring` is `scoring_enabled` (always
   * false for the plain driver).
   */
  datatype Config = Config(task: string, apiKey: string, models: seq<string>,
                           rubric: bool, scoring: bool, service: Service, clock: Clock)

  /** The loop's variables: `current_output`, `results`, `all_responses`. */
  datatype RunState = RunState(carried: string, steps: seq<StepRecord>, candidates: seq<Candidate>)

  datatype Progress = Running(state: RunState) | Aborted(reason: string)

  /** The failure raised when `find_best_response` finds nothing (unreachable, see `RunInvariant`). */
  const NoBestFailure: string := "'NoneType' object is not subscriptable"

  function InitialState(cfg: Config): RunState { RunState(cfg.task, [], []) }

  /** Step 1 embeds the task; later steps embed the task, the previous model and the carried output. */
  function StepPrompt(cfg: Config, st: RunState, i: nat): (p: Prompt)
    requires i < |cfg.models| && |st.steps| == i
    ensures i == 0 ==> p == Opening(|cfg.models|, st.carried, cfg.rubric)
    ensures i > 0 ==> p.Refinement? && p.step == i + 1 && p.task == cfg.task
                      && p.previousModel == st.steps[i - 1].call.model && p.previousOutput == st.carried
  {
    if i == 0 then Opening(|cfg.models|, st.carried, cfg.rubric)
    else Refinement(i + 1, |cfg.models|, cfg.task, st.steps[i - 1].call.model, st.carried, cfg.rubric)
  }

  function StepRequest(cfg: Config, st: RunState, i: nat): Request
    requires i < |cfg.models| && |st.steps| == i
  {
    Request(i + 1, cfg.models[i], StepPrompt(cfg, st, i), cfg.apiKey)
  }

  /** The candidate a successful step `i` (0-based) contributes: evaluation score plus step number. */
  function ScoredCandidate(service: Service, task: string, apiKey: string, models: seq<string>,
                           i: nat, output: string): (c: Candidate)
    requires i < |models|
    ensures c.step == i + 1 && c.output == output && c.model == models[i]
    ensures c.score == Evaluate(service, i + 1, output, task, apiKey).score + (i + 1)
    ensures i + 1 + MinScore <= c.score <= i + 1 + MaxScore
  {
    Candidate(i + 1, models[i], output, Evaluate(service, i + 1, output, task, apiKey).score + (i + 1))
  }

  /** One pass of the loop body for model `i` (0-based). */
  function Advance(cfg: Config, st: RunState, i: nat): (p: Progress)
    requires i < |cfg.models| && |st.steps| == i
    ensures cfg.service(StepRequest(cfg, st, i)).Crash? ==> p.Aborted?
    ensures p.Running? ==>
      var st' := p.state;
      && |st'.steps| == i + 1 && st'.steps[..i] == st.steps
      && CallModel(cfg.service, StepRequest(cfg, st, i)) == Returned(st'.steps[i].call)
      && st'.steps[i].step == i + 1 && st'.steps[i].call.model == cfg.models[i]
      && st'.steps[i].timestamp == cfg.clock(i + 1)
      && (!st'.steps[i].call.Success() ==> st'.carried == st.carried && st'.candidates == st.candidates)
      && (st'.steps[i].call.Success() && !cfg.scoring ==>
            st'.carried == st'.steps[i].call.text && st'.candidates == st.candidates)
      && (st'.steps[i].call.Success() && cfg.scoring ==>
            && st'.candidates == st.candidates + [ScoredCandidate(cfg.service, cfg.task, cfg.apiKey, cfg.models, i, st'.steps[i].call.text)]
            && BestResponse(st'.candidates).Some?
            && st'.carried == BestResponse(st'.candidates).value.output)
  {
    match CallModel(cfg.service, StepRequest(cfg, st, i))
    case Raised(reason) => Aborted(reason)
    case Returned(res) =>
      var record := StepRecord(res, i + 1, cfg.clock(i + 1));
      if !res.Success() then
        Running(RunState(st.carried, st.steps + [record], st.candidates))
      else if !cfg.scoring then
        Running(RunState(res.Output(), st.steps + [record], st.candidates))
      else
        var candidates := st.candidates + [ScoredCandidate(cfg.service, cfg.task, cfg.apiKey, cfg.models, i, res.Output())];
        match BestResponse(candidates)
        case None => Aborted(NoBestFailure)
        case Some(best) => Running(RunState(best.output, st.steps + [record], candidates))
  }

  /** The run after the first `k` models. */
  function RunPrefix(cfg: Config, k: nat): (p: Progress)
    requires k <= |cfg.models|
    ensures p.Running? ==> |p.state.steps| == k
  {
    if k == 0 then Running(InitialState(cfg))
    else
      match RunPrefix(cfg, k - 1)
      case Aborted(reason) => Aborted(reason)
      case Running(st) => Advance(cfg, st, k - 1)
  }

  /**
   * The whole run: every configured model is processed, there is no early
   * exit, and only a crashing call stops it.
   */
  function Run(cfg: Config): (p: Progress)
    ensures p.Running? ==> |p.state.steps| == |cfg.models|
    ensures (forall req :: !cfg.service(req).Crash?) ==> p.Running?
  {
    RunInvariant(cfg, |cfg.models|);
    RunPrefix(cfg, |cfg.models|)
  }

  // ---------------------------------------------------------------------
  // Views of the history

  /** `sum(1 for r in results if r["success"])`. */
  function CountSuccessful(steps: seq<StepRecord>): (n: nat)
    ensures n <= |steps|
  {
    if steps == [] then 0
    else CountSuccessful(steps[..|steps| - 1]) + (if steps[|steps| - 1].call.Success() then 1 else 0)
  }

  /** The output of the last successful step, or `default` when none succeeded. */
  function LastSuccessfulOutput(steps: seq<StepRecord>, default: string): string {
    if steps == [] then default
    else if steps[|steps| - 1].call.Success() then steps[|steps| - 1].call.text
    else LastSuccessfulOutput(steps[..|steps| - 1], default)
  }

  predicate AllFailed(steps: seq<StepRecord>) {
    forall j :: 0 <= j < |steps| ==> !steps[j].call.Success()
  }

  /** With no successful step nothing is counted and nothing is forwarded. */
  lemma {:induction false} AllFailedForwardsNothing(steps: seq<StepRecord>, default: string)
    requires AllFailed(steps)
    ensures CountSuccessful(steps) == 0
    ensures LastSuccessfulOutput(steps, default) == default
  {
    if steps != [] {
      AllFailedForwardsNothing(steps[..|steps| - 1], default);
    }
  }

  // ---------------------------------------------------------------------
  // The invariant of the loop

  /** `all_steps` holds one record per processed model, numbered 1.. in order. */
  predicate HistoryShape(cfg: Config, steps: seq<StepRecord>) {
    && |steps| <= |cfg.models|
    && forall j :: 0 <= j < |steps| ==>
         steps[j].step == j + 1 && steps[j].call.model == cfg.models[j]
         && steps[j].timestamp == cfg.clock(j + 1)
  }

  /** Every stored candidate is a successful step's output, scored in [step + 1, step + 100]. */
  predicate CandidatesFromSteps(steps: seq<StepRecord>, cands: seq<Candidate>) {
    && (forall m :: 0 <= m < |cands| ==>
          && 1 <= cands[m].step <= |steps|
          && steps[cands[m].step - 1].call.Success()
          && cands[m].output == steps[cands[m].step - 1].call.text
          && cands[m].model == steps[cands[m].step - 1].call.model
          && cands[m].step + MinScore <= cands[m].score <= cands[m].step + MaxScore)
    && (forall m, m' :: 0 <= m < m' < |cands| ==> cands[m].step < cands[m'].step)
  }

  /** What the carried output is, with and without scoring. */
  predicate CarriedOutput(cfg: Config, st: RunState) {
    && (!cfg.scoring ==> st.candidates == [] && st.carried == LastSuccessfulOutput(st.steps, cfg.task))
    && (cfg.scoring ==>
          && |st.candidates| == CountSuccessful(st.steps)
          && (st.candidates == [] ==> st.carried == cfg.task)
          && (st.candidates != [] ==>
                BestResponse(st.candidates).Some? && st.carried == BestResponse(st.candidates).value.output))
  }

  /** Every stored score is the evaluator's score of the candidate's output plus its step number. */
  predicate ScoresFromEvaluator(cfg: Config, cands: seq<Candidate>) {
    forall m :: 0 <= m < |cands| ==>
      cands[m].score == Evaluate(cfg.service, cands[m].step, cands[m].output, cfg.task, cfg.apiKey).score + cands[m].step
  }

  predicate Inv(cfg: Config, st: RunState) {
    && HistoryShape(cfg, st.steps) && CandidatesFromSteps(st.steps, st.candidates)
    && ScoresFromEvaluator(cfg, st.candidates) && CarriedOutput(cfg, st)
  }

  /**
   * Appending a candidate that scores above the best-of sentinel makes the
   * scan find one, whatever came before; every scored candidate does.
   */
  lemma CandidatesBeatSentinel(cands: seq<Candidate>, c: Candidate)
    requires c.score > Sentinel
    ensures BestResponse(cands + [c]).Some?
  {
    ScanIsFirstMax(cands + [c]);
    assert (cands + [c])[|cands|] == c;
  }

  /** The records after a running step are the old ones plus the step's own. */
  lemma StepAppendsRecord(cfg: Config, st: RunState, i: nat)
    requires i < |cfg.models| && |st.steps| == i
    requires Advance(cfg, st, i).Running?
    ensures var st' := Advance(cfg, st, i).state;
      st'.steps == st.steps + [st'.steps[i]] && (forall j :: 0 <= j < i ==> st'.steps[j] == st.steps[j])
  {
    var st' := Advance(cfg, st, i).state;
    assert st'.steps == st'.steps[..i] + [st'.steps[i]];
  }

  lemma StepPreservesHistoryShape(cfg: Config, st: RunState, i: nat)
    requires i < |cfg.models| && |st.steps| == i
    requires HistoryShape(cfg, st.steps)
    requires Advance(cfg, st, i).Running?
    ensures HistoryShape(cfg, Advance(cfg, st, i).state.steps)
  {
    StepAppendsRecord(cfg, st, i);
  }

  lemma AppendRecordKeepsCandidates(steps: seq<StepRecord>, cands: seq<Candidate>, r: StepRecord)
    requires CandidatesFromSteps(steps, cands)
    ensures CandidatesFromSteps(steps + [r], cands)
  {
    assert forall j :: 0 <= j < |steps| ==> (steps + [r])[j] == steps[j];
  }

  lemma AppendScoredCandidate(steps: seq<StepRecord>, cands: seq<Candidate>, r: StepRecord, c: Candidate)
    requires CandidatesFromSteps(steps, cands)
    requires r.call.Success() && c.step == |steps| + 1
    requires c.output == r.call.text && c.model == r.call.model
    requires c.step + MinScore <= c.score <= c.step + MaxScore
    ensures CandidatesFromSteps(steps + [r], cands + [c])
  {
    AppendRecordKeepsCandidates(steps, cands, r);
    assert forall m :: 0 <= m < |cands| ==> (cands + [c])[m] == cands[m];
  }

  lemma StepPreservesCandidates(cfg: Config, st: RunState, i: nat)
    requires i < |cfg.models| && |st.steps| == i
    requires CandidatesFromSteps(st.steps, st.candidates)
    requires Advance(cfg, st, i).Running?
    ensures CandidatesFromSteps(Advance(cfg, st, i).state.steps, Advance(cfg, st, i).state.candidates)
  {
    StepAppendsRecord(cfg, st, i);
    var st' := Advance(cfg, st, i).state;
    var r := st'.steps[i];
    if r.call.Success() && cfg.scoring {
      AppendScoredCandidate(st.steps, st.candidates, r, ScoredCandidate(cfg.service, cfg.task, cfg.apiKey, cfg.models, i, r.call.text));
    } else {
      AppendRecordKeepsCandidates(st.steps, st.candidates, r);
    }
  }

  lemma StepPreservesScores(cfg: Config, st: RunState, i: nat)
    requires i < |cfg.models| && |st.steps| == i
    requires ScoresFromEvaluator(cfg, st.candidates)
    requires Advance(cfg, st, i).Running?
    ensures ScoresFromEvaluator(cfg, Advance(cfg, st, i).state.candidates)
  {
    var st' := Advance(cfg, st, i).state;
    var r := st'.steps[i];
    if r.call.Success() && cfg.scoring {
      var c := ScoredCandidate(cfg.service, cfg.task, cfg.apiKey, cfg.models, i, r.call.text);
      assert st'.candidates == st.candidates + [c];
      assert forall m :: 0 <= m < |st.candidates| ==> st'.candidates[m] == st.candidates[m];
      assert st'.candidates[|st.candidates|] == c;
    }
  }

  lemma StepPreservesCarried(cfg: Config, st: RunState, i: nat)
    requires i < |cfg.models| && |st.steps| == i
    requires CarriedOutput(cfg, st)
    requires Advance(cfg, st, i).Running?
    ensures CarriedOutput(cfg, Advance(cfg, st, i).state)
  {
    StepAppendsRecord(cfg, st, i);
    var st' := Advance(cfg, st, i).state;
    assert st'.steps[..|st'.steps| - 1] == st.steps;
  }

  /** A step aborts exactly when its call crashes: the best-of scan always finds a candidate. */
  lemma StepAbortsOnlyOnCrash(cfg: Config, st: RunState, i: nat)
    requires i < |cfg.models| && |st.steps| == i
    requires CandidatesFromSteps(st.steps, st.candidates)
    ensures cfg.service(StepRequest(cfg, st, i)).Crash? <==> Advance(cfg, st, i).Aborted?
  {
    var reply := cfg.service(StepRequest(cfg, st, i));
    if reply.Text? && cfg.scoring {
      CandidatesBeatSentinel(st.candidates, ScoredCandidate(cfg.service, cfg.task, cfg.apiKey, cfg.models, i, reply.text));
    }
  }

  lemma StepPreservesInv(cfg: Config, st: RunState, i: nat)
    requires i < |cfg.models| && |st.steps| == i
    requires Inv(cfg, st)
    ensures Advance(cfg, st, i).Running? ==> Inv(cfg, Advance(cfg, st, i).state)
    ensures cfg.service(StepRequest(cfg, st, i)).Crash? <==> Advance(cfg, st, i).Aborted?
  {
    StepAbortsOnlyOnCrash(cfg, st, i);
    if Advance(cfg, st, i).Running? {
      StepPreservesHistoryShape(cfg, st, i);
      StepPreservesCandidates(cfg, st, i);
      StepPreservesScores(cfg, st, i);
      StepPreservesCarried(cfg, st, i);
    }
  }

  /** The invariant holds after every prefix of the run, and only a crashing call aborts it. */
  lemma {:induction false} RunInvariant(cfg: Config, k: nat)
    requires k <= |cfg.models|
    ensures RunPrefix(cfg, k).Running? ==> Inv(cfg, RunPrefix(cfg, k).state)
    ensures (forall req :: !cfg.service(req).Crash?) ==> RunPrefix(cfg, k).Running?
  {
    if k > 0 {
      RunInvariant(cfg, k - 1);
      if RunPrefix(cfg, k - 1).Running? {
        StepPreservesInv(cfg, RunPrefix(cfg, k - 1).state, k - 1);
      }
    }
  }

  /** An abort is final: once a call crashes the run, every longer prefix has the same outcome. */
  lemma {:induction false} AbortIsFinal(cfg: Config, j: nat, k: nat)
    requires j <= k <= |cfg.models|
    requires RunPrefix(cfg, j).Aborted?
    ensures RunPrefix(cfg, k) == RunPrefix(cfg, j)
    decreases k - j
  {
    if j < k {
      AbortIsFinal(cfg, j, k - 1);
    }
  }

  /** A running prefix of length `k` extends the prefix of length `k - 1`, which is running too. */
  lemma PrefixGrows(cfg: Config, k: nat)
    requires 0 < k <= |cfg.models|
    requires RunPrefix(cfg, k).Running?
    ensures RunPrefix(cfg, k - 1).Running?
    ensures var s, t := RunPrefix(cfg, k - 1).state, RunPrefix(cfg, k).state;
      && t.steps[..k - 1] == s.steps
      && |s.candidates| <= |t.candidates| && t.candidates[..|s.candidates|] == s.candidates
  {
    StepExtends(cfg, RunPrefix(cfg, k - 1).state, k - 1);
  }

  /** Being a prefix is transitive. */
  lemma PrefixOfPrefix<T>(a: seq<T>, b: seq<T>, c: seq<T>)
    requires |a| <= |b| <= |c| && b[..|a|] == a && c[..|b|] == b
    ensures c[..|a|] == a
  {
    assert c[..|a|] == c[..|b|][..|a|];
  }

  /** One step keeps the history and the candidates it was given as a prefix. */
  lemma StepExtends(cfg: Config, st: RunState, i: nat)
    requires i < |cfg.models| && |st.steps| == i
    requires Advance(cfg, st, i).Running?
    ensures Advance(cfg, st, i).state.steps[..i] == st.steps
    ensures var c := Advance(cfg, st, i).state.candidates;
      |st.candidates| <= |c| && c[..|st.candidates|] == st.candidates
  {
    var c := Advance(cfg, st, i).state.candidates;
    if c != st.candidates {
      assert c[..|st.candidates|] == st.candidates;
    }
  }

  /** A running prefix extends every shorter one: history and candidates are append-only. */
  lemma {:induction false} PrefixesExtend(cfg: Config, j: nat, k: nat)
    requires j <= k <= |cfg.models|
    requires RunPrefix(cfg, k).Running?
    ensures RunPrefix(cfg, j).Running?
    ensures RunPrefix(cfg, k).state.steps[..j] == RunPrefix(cfg, j).state.steps
    ensures var cj := RunPrefix(cfg, j).state.candidates;
      |cj| <= |RunPrefix(cfg, k).state.candidates| && RunPrefix(cfg, k).state.candidates[..|cj|] == cj
    decreases k - j
  {
    if j < k {
      PrefixGrows(cfg, k);
      PrefixesExtend(cfg, j, k - 1);
      var sj := RunPrefix(cfg, j).state;
      var sk1 := RunPrefix(cfg, k - 1).state;
      var sk := RunPrefix(cfg, k).state;
      PrefixOfPrefix(sj.steps, sk1.steps, sk.steps);
      PrefixOfPrefix(sj.candidates, sk1.candidates, sk.candidates);
    }
  }

  /** With scoring, the best score held never decreases from one step to a later one. */
  lemma BestScoreNeverDecreases(cfg: Config, j: nat, k: nat)
    requires j <= k <= |cfg.models|
    requires RunPrefix(cfg, k).Running?
    ensures RunPrefix(cfg, j).Running?
    ensures Scan(RunPrefix(cfg, j).state.candidates).0 <= Scan(RunPrefix(cfg, k).state.candidates).0
  {
    PrefixesExtend(cfg, j, k);
    var cj := RunPrefix(cfg, j).state.candidates;
    ScanMonotone(RunPrefix(cfg, k).state.candidates, |cj|);
  }

  /** When every step fails, the final output is the task itself. */
  lemma AllFailedKeepsTask(cfg: Config)
    requires Run(cfg).Running?
    requires AllFailed(Run(cfg).state.steps)
    ensures Run(cfg).state.carried == cfg.task
    ensures Run(cfg).state.candidates == []
  {
    RunInvariant(cfg, |cfg.models|);
    AllFailedForwardsNothing(Run(cfg).state.steps, cfg.task);
  }

  // ---------------------------------------------------------------------
  // Results

  /** The dictionary `sequential_model_chain` returns. */
  datatype ChainResult = ChainResult(initialTask: string, finalOutput: string, allSteps: seq<StepRecord>,
                                     totalModels: nat, successfulModels: nat, completedAt: string)

  /** The extra fields of `sequential_model_chain_with_full_history`. */
  datatype HistoryResult = HistoryResult(summary: ChainResult, allResponses: seq<Candidate>,
                                         scoringEnabled: bool, selectBestFromAll: bool)

  /** A run either returns its result or lets an exception escape. */
  datatype RunOutcome<T> = Finished(result: T) | Crashed(reason: string)

  /** The summary built after the loop; the completion time is the clock reading after the last step's. */
  function Summary(cfg: Config, st: RunState): (r: ChainResult)
    ensures r.successfulModels <= |r.allSteps|
  {
    ChainResult(cfg.task, st.carried, st.steps, |cfg.models|, CountSuccessful(st.steps),
                cfg.clock(|cfg.models| + 1))
  }

  /** What `sequential_model_chain` returns for a configuration, or the exception that escapes it. */
  function ChainOutcome(cfg: Config): (r: RunOutcome<ChainResult>)
    ensures r.Crashed? <==> Run(cfg).Aborted?
    ensures r.Finished? ==>
      && r.result.initialTask == cfg.task && r.result.finalOutput == Run(cfg).state.carried
      && |r.result.allSteps| == r.result.totalModels && r.result.successfulModels <= r.result.totalModels
  {
    match Run(cfg)
    case Aborted(reason) => Crashed(reason)
    case Running(st) => Finished(Summary(cfg, st))
  }

  /** What `sequential_model_chain_with_full_history` returns, or the exception that escapes it. */
  function HistoryOutcome(cfg: Config, selectBestFromAll: bool): (r: RunOutcome<HistoryResult>)
    ensures r.Crashed? <==> Run(cfg).Aborted?
    ensures r.Finished? ==>
      && r.result.summary.finalOutput == Run(cfg).state.carried
      && |r.result.summary.allSteps| == r.result.summary.totalModels
      && r.result.allResponses == Run(cfg).state.candidates
      && (cfg.scoring ==> |r.result.allResponses| == r.result.summary.successfulModels)
      && (!cfg.scoring ==> r.result.allResponses == [])
  {
    RunInvariant(cfg, |cfg.models|);
    match Run(cfg)
    case Aborted(reason) => Crashed(reason)
    case Running(st) => Finished(HistoryResult(Summary(cfg, st), st.candidates, cfg.scoring, selectBestFromAll))
  }
}
