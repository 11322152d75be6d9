/**
 * The two chain drivers of agents.py as loops over the model list, each
 * proved equal to the specification in `Chain`, and `super_code_generator`,
 * which picks the chain by mode and runs the full-history driver.
 */
module Drivers {
  import opened Wrappers
  import opened Invoker
  import opened Scoring
  import opened BestOf
  import opened Chain
  import Chains

  /** The properties every finished run has, stated on its summary. */
  predicate SummaryFacts(cfg: Config, r: ChainResult) {
    && r.initialTask == cfg.task
    && r.totalModels == |cfg.models| == |r.allSteps|
    && (forall j :: 0 <= j < |r.allSteps| ==>
          r.allSteps[j].step == j + 1 && r.allSteps[j].call.model == cfg.models[j])
    && r.successfulModels == CountSuccessful(r.allSteps)
    && (AllFailed(r.allSteps) ==> r.finalOutput == cfg.task)
  }

  lemma FinishedRunFacts(cfg: Config)
    requires Run(cfg).Running?
    ensures SummaryFacts(cfg, Summary(cfg, Run(cfg).state))
    ensures Inv(cfg, Run(cfg).state)
  {
    RunInvariant(cfg, |cfg.models|);
    if AllFailed(Run(cfg).state.steps) {
      AllFailedKeepsTask(cfg);
    }
  }

  /** What a full-history run guarantees about its result. */
  ghost predicate HistoryFacts(cfg: Config, selectBestFromAll: bool, r: RunOutcome<HistoryResult>) {
    && (r.Finished? ==> SummaryFacts(cfg, r.result.summary))
    && (r.Finished? ==> CandidatesFromSteps(r.result.summary.allSteps, r.result.allResponses))
    && (r.Finished? ==> ScoresFromEvaluator(cfg, r.result.allResponses))
    && (r.Finished? && cfg.scoring ==> |r.result.allResponses| == r.result.summary.successfulModels)
    && (r.Finished? && cfg.scoring && r.result.allResponses != [] ==>
          BestResponse(r.result.allResponses).Some?
          && r.result.summary.finalOutput == BestResponse(r.result.allResponses).value.output)
    && (r.Finished? && !cfg.scoring ==>
          r.result.allResponses == []
          && r.result.summary.finalOutput == LastSuccessfulOutput(r.result.summary.allSteps, cfg.task))
    && ((forall req :: !cfg.service(req).Crash?) ==> r.Finished?)
  }

  lemma HistoryOutcomeFacts(cfg: Config, selectBestFromAll: bool)
    ensures HistoryFacts(cfg, selectBestFromAll, HistoryOutcome(cfg, selectBestFromAll))
  {
    RunInvariant(cfg, |cfg.models|);
    if Run(cfg).Running? {
      FinishedRunFacts(cfg);
    }
  }

  /** `sequential_model_chain`; `models = None` selects the "fast" chain. */
  method SequentialModelChain(service: Service, clock: Clock,
                              task: string, apiKey: string, models: Option<seq<string>> := None)
    returns (r: RunOutcome<ChainResult>)
    ensures var cfg := Config(task, apiKey, models.GetOr(Chains.ModelChain3), false, false, service, clock);
      r == ChainOutcome(cfg) && ChainFacts(cfg, r)
  {
    r := PlainChainLoop(task, apiKey, models.GetOr(Chains.ModelChain3), service, clock);
  }

  /** The loop of `sequential_model_chain` over a chosen model list. */
  method PlainChainLoop(task: string, apiKey: string, chain: seq<string>, service: Service, clock: Clock)
    returns (r: RunOutcome<ChainResult>)
    ensures var cfg := Config(task, apiKey, chain, false, false, service, clock);
      r == ChainOutcome(cfg) && ChainFacts(cfg, r)
  {
    ghost var cfg := Config(task, apiKey, chain, false, false, service, clock);
    ChainOutcomeFacts(cfg);
    var results: seq<StepRecord> := [];
    var currentOutput := task;
    for i := 0 to |chain|
      invariant RunPrefix(cfg, i) == Running(RunState(currentOutput, results, []))
    {
      var next := PlainStep(task, apiKey, chain, service, clock, i, currentOutput, results);
      assert RunPrefix(cfg, i + 1) == next;
      if next.Aborted? {
        AbortIsFinal(cfg, i + 1, |chain|);
        return Crashed(next.reason);
      }
      assert next.state.candidates == [];
      currentOutput, results := next.state.carried, next.state.steps;
    }
    assert Run(cfg) == Running(RunState(currentOutput, results, []));
    r := Finished(ChainResult(task, currentOutput, results, |chain|, CountSuccessful(results),
                              clock(|chain| + 1)));
  }

  /** One pass of the plain driver's loop body for model `i` (0-based). */
  method PlainStep(task: string, apiKey: string, models: seq<string>, service: Service, clock: Clock,
                   i: nat, currentOutput: string, results: seq<StepRecord>)
    returns (next: Progress)
    requires i < |models| && |results| == i
    ensures next == Advance(Config(task, apiKey, models, false, false, service, clock),
                            RunState(currentOutput, results, []), i)
  {
    var prompt := if i == 0 then Opening(|models|, currentOutput, false)
                  else Refinement(i + 1, |models|, task, results[|results| - 1].call.model, currentOutput, false);
    var outcome := CallModel(service, Request(i + 1, models[i], prompt, apiKey));
    if outcome.Raised? {
      return Aborted(outcome.reason);
    }
    var result := outcome.result;
    var output := currentOutput;
    if result.Success() {
      output := result.Output();
    }
    next := Running(RunState(output, results + [StepRecord(result, i + 1, clock(i + 1))], []));
  }

  /** What a plain run guarantees about its result. */
  ghost predicate ChainFacts(cfg: Config, r: RunOutcome<ChainResult>) {
    && (r.Finished? ==> SummaryFacts(cfg, r.result))
    && (r.Finished? ==> r.result.finalOutput == LastSuccessfulOutput(r.result.allSteps, cfg.task))
    && ((forall req :: !cfg.service(req).Crash?) ==> r.Finished?)
  }

  lemma ChainOutcomeFacts(cfg: Config)
    requires !cfg.scoring
    ensures ChainFacts(cfg, ChainOutcome(cfg))
  {
    RunInvariant(cfg, |cfg.models|);
    if Run(cfg).Running? {
      FinishedRunFacts(cfg);
    }
  }

  /**
   * `sequential_model_chain_with_full_history`. With scoring on, every
   * successful output is evaluated, stored with score plus step number, and
   * the carried output becomes the best stored candidate.
   */
  method SequentialModelChainWithFullHistory(service: Service, clock: Clock,
                                             task: string, apiKey: string, models: seq<string>,
                                             scoringEnabled: bool := true, selectBestFromAll: bool := false)
    returns (r: RunOutcome<HistoryResult>)
    ensures var cfg := Config(task, apiKey, models, true, scoringEnabled, service, clock);
      && r == HistoryOutcome(cfg, selectBestFromAll)
      && HistoryFacts(cfg, selectBestFromAll, r)
  {
    ghost var cfg := Config(task, apiKey, models, true, scoringEnabled, service, clock);
    HistoryOutcomeFacts(cfg, selectBestFromAll);
    var results: seq<StepRecord> := [];
    var currentOutput := task;
    var allResponses: seq<Candidate> := [];
    for i := 0 to |models|
      invariant RunPrefix(cfg, i) == Running(RunState(currentOutput, results, allResponses))
    {
      var next := FullHistoryStep(task, apiKey, models, scoringEnabled, service, clock, i,
                                  RunState(currentOutput, results, allResponses));
      assert RunPrefix(cfg, i + 1) == next;
      if next.Aborted? {
        AbortIsFinal(cfg, i + 1, |models|);
        return Crashed(next.reason);
      }
      currentOutput, results, allResponses := next.state.carried, next.state.steps, next.state.candidates;
    }
    assert Run(cfg) == Running(RunState(currentOutput, results, allResponses));
    r := Finished(HistoryResult(
           ChainResult(task, currentOutput, results, |models|, CountSuccessful(results), clock(|models| + 1)),
           allResponses, scoringEnabled, selectBestFromAll));
  }

  /**
   * One pass of the full-history loop body for model `i` (0-based), on the
   * loop variables `current_output`, `results` and `all_responses`.
   */
  method FullHistoryStep(task: string, apiKey: string, models: seq<string>, scoringEnabled: bool,
                         service: Service, clock: Clock, i: nat, st: RunState)
    returns (next: Progress)
    requires i < |models| && |st.steps| == i
    ensures next == Advance(Config(task, apiKey, models, true, scoringEnabled, service, clock), st, i)
  {
    var currentOutput, results, allResponses := st.carried, st.steps, st.candidates;
    var prompt := if i == 0 then Opening(|models|, currentOutput, true)
                  else Refinement(i + 1, |models|, task, results[|results| - 1].call.model, currentOutput, true);
    var outcome := CallModel(service, Request(i + 1, models[i], prompt, apiKey));
    if outcome.Raised? {
      return Aborted(outcome.reason);
    }
    var result := outcome.result;
    if result.Success() {
      currentOutput := result.Output();
      if scoringEnabled {
        var best;
        allResponses, best := ScoreAndSelectBest(service, task, apiKey, models, i, currentOutput, allResponses);
        if best.None? {
          return Aborted(NoBestFailure);
        }
        currentOutput := best.value.output;
      }
    }
    results := results + [StepRecord(result, i + 1, clock(i + 1))];
    next := Running(RunState(currentOutput, results, allResponses));
  }

  /**
   * The scoring block of the full-history loop for model `i` (0-based):
   * evaluate the new output, store it with score plus step number, and
   * select the best stored candidate.
   */
  method ScoreAndSelectBest(service: Service, task: string, apiKey: string, models: seq<string>,
                            i: nat, output: string, allResponses: seq<Candidate>)
    returns (responses: seq<Candidate>, best: Option<Best>)
    requires i < |models|
    ensures responses == allResponses + [ScoredCandidate(service, task, apiKey, models, i, output)]
    ensures best == BestResponse(responses)
  {
    var evaluation := Evaluate(service, i + 1, output, task, apiKey);
    var scoredResponse := Candidate(i + 1, models[i], output, evaluation.score + (i + 1));
    assert scoredResponse == ScoredCandidate(service, task, apiKey, models, i, output);
    responses := allResponses + [scoredResponse];
    best := FindBestResponse(responses);
  }

  /**
   * `super_code_generator`: the chain named by `mode`, run by the
   * full-history driver with scoring on; only the final output is returned.
   */
  method SuperCodeGenerator(service: Service, clock: Clock, task: string, apiKey: string, mode: string := "fast")
    returns (r: RunOutcome<string>)
    ensures var cfg := Config(task, apiKey, Chains.ChainByMode(mode), true, true, service, clock);
      && (r.Finished? <==> Run(cfg).Running?)
      && (r.Finished? ==> r.result == Run(cfg).state.carried)
      && (r.Finished? && AllFailed(Run(cfg).state.steps) ==> r.result == task)
      && (r.Finished? && !AllFailed(Run(cfg).state.steps) ==>
            exists k :: IsFirstMax(Run(cfg).state.candidates, k) && r.result == Run(cfg).state.candidates[k].output)
      && ((forall req :: !service(req).Crash?) ==> r.Finished?)
  {
    var models := Chains.ChainByMode(mode);
    var result := SequentialModelChainWithFullHistory(service, clock, task, apiKey, models);
    match result
    case Crashed(reason) => r := Crashed(reason);
    case Finished(res) =>
      r := Finished(res.summary.finalOutput);
      ghost var cfg := Config(task, apiKey, models, true, true, service, clock);
      ghost var st := Run(cfg).state;
      FinishedRunFacts(cfg);
      if !AllFailed(st.steps) {
        NotAllFailedCounts(st.steps);
        ScanIsFirstMax(st.candidates);
      }
  }

  /** Some successful step means a positive success count. */
  lemma {:induction false} NotAllFailedCounts(steps: seq<StepRecord>)
    requires !AllFailed(steps)
    ensures CountSuccessful(steps) > 0
  {
    var n := |steps|;
    if steps[n - 1].call.Success() {
    } else {
      assert steps[..n - 1] != [] && !AllFailed(steps[..n - 1]) by {
        var j :| 0 <= j < n && steps[j].call.Success();
        assert steps[..n - 1][j] == steps[j];
      }
      NotAllFailedCounts(steps[..n - 1]);
    }
  }
}
