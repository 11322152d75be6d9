/**
 * Concrete runs of the full-history driver with scoring on: because each
 * step carries the best stored candidate forward, the carried output can
 * revert to an earlier step's output when that output scored higher.
 */
module Scenarios {
  import opened Wrappers
  import opened Invoker
  import opened Scoring
  import opened BestOf
  import opened Chain

  /** Step 1 answers "A", step 2 answers "B"; the evaluator rates "A" 90 and anything else 10. */
  function RevertingService(req: Request): Reply {
    if req.prompt.Evaluation? then
      (if req.prompt.response == "A" then Text("90") else Text("10"))
    else if req.step == 1 then Text("A") else Text("B")
  }

  function NoClock(n: nat): string { "" }

  function RevertingConfig(task: string, key: string): Config {
    Config(task, key, ["m1", "m2"], true, true, RevertingService, NoClock)
  }

  lemma RevertingScores(task: string, key: string)
    ensures Evaluate(RevertingService, 1, "A", task, key).score == 90
    ensures Evaluate(RevertingService, 2, "B", task, key).score == 10
  {
    assert DecimalString(90) == "90" && DecimalString(10) == "10";
    EvaluateOfPlainNumber(RevertingService, 1, "A", task, key, 90);
    EvaluateOfPlainNumber(RevertingService, 2, "B", task, key, 10);
  }

  /** A single candidate above the sentinel is the best one. */
  lemma BestOfOne(a: Candidate)
    requires a.score > Sentinel
    ensures BestResponse([a]) == Some(Best(a.output, a.score, a.model))
  {
    assert [a][..0] == [];
  }

  /** Of two candidates, the earlier wins unless the later scores strictly higher. */
  lemma BestOfTwoKeepsEarlier(a: Candidate, b: Candidate)
    requires a.score > Sentinel && b.score <= a.score
    ensures BestResponse([a, b]) == Some(Best(a.output, a.score, a.model))
  {
    assert [a, b][..1] == [a];
    assert [a][..0] == [];
    assert Scan([a]) == (a.score, Some(0));
    assert Scan([a, b]) == (a.score, Some(0));
  }

  /** A scored step whose call succeeds and whose candidates have a best one. */
  lemma ScoredStep(cfg: Config, st: RunState, i: nat, text: string, best: Best)
    requires i < |cfg.models| && |st.steps| == i && cfg.scoring
    requires cfg.service(StepRequest(cfg, st, i)) == Text(text)
    requires BestResponse(st.candidates + [ScoredCandidate(cfg.service, cfg.task, cfg.apiKey, cfg.models, i, text)])
             == Some(best)
    ensures Advance(cfg, st, i) == Running(RunState(
              best.output, st.steps + [StepRecord(Generated(cfg.models[i], text), i + 1, cfg.clock(i + 1))],
              st.candidates + [ScoredCandidate(cfg.service, cfg.task, cfg.apiKey, cfg.models, i, text)]))
  {
  }

  /**
   * Any two-model run with scoring whose first output is rated at least one
   * point above the second ends with the first output, though both steps
   * succeed: the step bonus (1 and 2) is all the second output gains.
   */
  lemma {:induction false} RevertsToHigherScored(cfg: Config, x: string, y: string)
    requires |cfg.models| == 2 && cfg.scoring
    requires cfg.service(Request(1, cfg.models[0], Opening(2, cfg.task, cfg.rubric), cfg.apiKey)) == Text(x)
    requires cfg.service(Request(2, cfg.models[1], Refinement(2, 2, cfg.task, cfg.models[0], x, cfg.rubric),
                                 cfg.apiKey)) == Text(y)
    requires Evaluate(cfg.service, 2, y, cfg.task, cfg.apiKey).score + 2
             <= Evaluate(cfg.service, 1, x, cfg.task, cfg.apiKey).score + 1
    ensures Run(cfg).Running?
    ensures Run(cfg).state.steps[0].call == Generated(cfg.models[0], x)
    ensures Run(cfg).state.steps[1].call == Generated(cfg.models[1], y)
    ensures Run(cfg).state.carried == x && |Run(cfg).state.candidates| == 2
  {
    var a := ScoredCandidate(cfg.service, cfg.task, cfg.apiKey, cfg.models, 0, x);
    var st1 := RunState(x, [StepRecord(Generated(cfg.models[0], x), 1, cfg.clock(1))], [a]);
    FirstScoredStep(cfg, x);
    SecondScoredStep(cfg, x, y);
    assert RunPrefix(cfg, 2) == Advance(cfg, st1, 1);
  }

  lemma FirstScoredStep(cfg: Config, x: string)
    requires |cfg.models| == 2 && cfg.scoring
    requires cfg.service(Request(1, cfg.models[0], Opening(2, cfg.task, cfg.rubric), cfg.apiKey)) == Text(x)
    ensures var a := ScoredCandidate(cfg.service, cfg.task, cfg.apiKey, cfg.models, 0, x);
      RunPrefix(cfg, 1) == Running(RunState(x, [StepRecord(Generated(cfg.models[0], x), 1, cfg.clock(1))], [a]))
  {
    var st0 := InitialState(cfg);
    var a := ScoredCandidate(cfg.service, cfg.task, cfg.apiKey, cfg.models, 0, x);
    assert StepRequest(cfg, st0, 0) == Request(1, cfg.models[0], Opening(2, cfg.task, cfg.rubric), cfg.apiKey);
    BestOfOne(a);
    assert [] + [a] == [a];
    ScoredStep(cfg, st0, 0, x, Best(x, a.score, a.model));
  }

  lemma SecondScoredStep(cfg: Config, x: string, y: string)
    requires |cfg.models| == 2 && cfg.scoring
    requires cfg.service(Request(2, cfg.models[1], Refinement(2, 2, cfg.task, cfg.models[0], x, cfg.rubric),
                                 cfg.apiKey)) == Text(y)
    requires Evaluate(cfg.service, 2, y, cfg.task, cfg.apiKey).score + 2
             <= Evaluate(cfg.service, 1, x, cfg.task, cfg.apiKey).score + 1
    ensures var a := ScoredCandidate(cfg.service, cfg.task, cfg.apiKey, cfg.models, 0, x);
      var b := ScoredCandidate(cfg.service, cfg.task, cfg.apiKey, cfg.models, 1, y);
      var st1 := RunState(x, [StepRecord(Generated(cfg.models[0], x), 1, cfg.clock(1))], [a]);
      Advance(cfg, st1, 1) == Running(RunState(x, st1.steps + [StepRecord(Generated(cfg.models[1], y), 2, cfg.clock(2))],
                                               [a, b]))
  {
    var a := ScoredCandidate(cfg.service, cfg.task, cfg.apiKey, cfg.models, 0, x);
    var b := ScoredCandidate(cfg.service, cfg.task, cfg.apiKey, cfg.models, 1, y);
    var st1 := RunState(x, [StepRecord(Generated(cfg.models[0], x), 1, cfg.clock(1))], [a]);
    assert StepRequest(cfg, st1, 1)
        == Request(2, cfg.models[1], Refinement(2, 2, cfg.task, cfg.models[0], x, cfg.rubric), cfg.apiKey);
    assert a.score == Evaluate(cfg.service, 1, x, cfg.task, cfg.apiKey).score + 1;
    assert b.score == Evaluate(cfg.service, 2, y, cfg.task, cfg.apiKey).score + 2;
    BestOfTwoKeepsEarlier(a, b);
    assert [a] + [b] == [a, b];
    ScoredStep(cfg, st1, 1, y, Best(x, a.score, a.model));
  }

  /**
   * Both steps succeed, yet the run ends with step 1's output: "A" is stored
   * with 90 + 1, "B" with 10 + 2, and the best candidate wins.
   */
  lemma CarriedOutputCanRevert(task: string, key: string)
    ensures var cfg := RevertingConfig(task, key);
      && Run(cfg).Running?
      && Run(cfg).state.steps[1].call == Generated("m2", "B")
      && Run(cfg).state.carried == "A"
      && |Run(cfg).state.candidates| == 2
  {
    RevertingScores(task, key);
    RevertsToHigherScored(RevertingConfig(task, key), "A", "B");
  }
}
