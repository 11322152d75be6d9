# codechain in Dafny

codechain sends a coding task through a chain of hosted Gemini models, one
after the other. Each model is asked to improve the previous model's
answer, and the final answer goes back to the client of the `POST /run`
endpoint. This project models the deterministic core of that pipeline and
proves what it promises. The hosted model service is an oracle: every
outbound call is a `Request`, and the service maps it to a `Reply`.

- **Chains** (`chains.dfy`): the seven preset model lists and
  `get_model_chain_by_mode`, which lower-cases the mode name and looks it
  up, with "fast" as the fallback.
- **Invoker** (`invoker.dfy`): `call_model`. The service either generates
  text or fails inside the guarded call, and in both cases a record comes
  back. It can also crash while building the client. That exception is
  raised outside the `try`, so it escapes `call_model`.
- **Scoring** (`scoring.dfy`): `evaluate_response_quality`, in two parts:
  - The text handling is modelled on ASCII digits: `str.strip`,
    `str.isdigit`, `re.findall(r'\d+')`, `int` and the clamp
    `min(100, max(1, n))`. `int` raises on more than 4300 digits, CPython's
    default limit, and the evaluator turns that into the neutral score.
  - The evaluator call goes through the oracle. The evaluator never raises
    and always returns a score in [1, 100].
- **BestOf** (`best_of.dfy`): `find_best_response`, a loop over the
  candidates that starts from the sentinel -1. It replaces the best only on
  a strictly greater score, so the first maximal candidate wins.
- **Chain** (`chain.dfy`): the specification of both chain drivers.
  - One pass of their loop body is the function `Advance`, and a run is the
    fold of `Advance` over the model list.
  - The invariants of the run are stated and proved over this fold: the
    history shape, where the candidates come from, and what the carried
    output is.
- **Drivers** (`drivers.dfy`): `sequential_model_chain`,
  `sequential_model_chain_with_full_history` and `super_code_generator`.
  The two drivers are loops, and each is proved equal to the specification.
- **Api** (`api.py` side, `api.dfy`): `trim`, plus three pieces of the
  `run_task` handler: the API-key fallback, the mode default and the payload
  built from a text result or a dictionary result.
- **Scenarios** (`scenarios.dfy`): a two-model run where both steps succeed
  but the run ends with the first step's output. This happens because the
  first output was rated higher.

The presets are as the code defines them (agents.py:14-205). There are
seven of them: "full power", "advance", "fast", "optimized", "aggressive",
"balanced" and "strongest". The "strongest" preset (`MODEL_CHAIN4`) has 31
entries.

## Model

| member | source | states |
|---|---|---|
| Chains.ToLower | agents.py:227 | lower-casing keeps the length and maps every character through `LowerChar` (ASCII letters only) |
| Chains.ToLowerIdempotent | agents.py:227 | lower-casing an already lower-cased name changes nothing |
| Chains.ChainByMode | agents.py:225-241 | for every preset, the lookup returns that preset iff the lower-cased mode is one of its names ("full power"/"fullpower"/"full", "advance"/"advanced", "optimized", "aggressive", "balanced", "strongest"); it returns the "fast" chain iff the mode is none of them; the result is always a preset |
| Chains.PresetLengths | agents.py:14-205 | the presets have 30, 6, 4, 12, 9, 15 and 31 models |
| Chains.DefaultIsShortestStrongestIsLongest | agents.py:73-78 | every chain the lookup returns has between 4 and 31 models; an unrecognised mode gives exactly 4 |
| Chains.ChainByModeIgnoresCase | agents.py:227-241 | two mode names that agree after lower-casing select the same chain |
| Invoker.CallModel | agents.py:250-272 | the call returns a record iff the service does not crash; the record names the requested model; it is a success iff the service generated text, and then its output is that text; a failure has output "" and carries the error; a crash escapes with its reason |
| Scoring.Strip | agents.py:608 | the result is the piece of the text after its leading whitespace, with only whitespace after it; it neither starts nor ends with whitespace; it is empty iff the text is all whitespace |
| Scoring.DecimalValue | agents.py:614 | the value of a string of k decimal digits is below 10^k |
| Scoring.DecimalString | agents.py:614 | the decimal spelling of a number is a non-empty digit string |
| Scoring.DecimalRoundTrip | agents.py:614 | the value of the decimal spelling of n is n |
| Scoring.IntOf | agents.py:614 | `int` of a digit string fails iff it has more than 4300 digits, and otherwise gives the string's value |
| Scoring.IntRoundTrip | agents.py:614 | `int` of the decimal spelling of n gives n when the spelling has at most 4300 digits, and fails otherwise |
| Scoring.DigitRunsFrom | agents.py:618 | every entry of the `\d+` scan is a non-empty digit string |
| Scoring.LastRunUnique | agents.py:618-622 | a text has at most one last maximal digit run |
| Scoring.LastOfRunsFrom | agents.py:618-622 | the scan from a run boundary finds nothing iff no digit follows; otherwise its last entry is the text's last maximal digit run |
| Scoring.DigitRuns | agents.py:618-622 | every match is a digit string; there is none iff the text has no digit; otherwise the last match is the text's last maximal digit run |
| Scoring.Converted | agents.py:613-627 | the ladder hands `int` a digit string iff the text has a digit |
| Scoring.RawScore | agents.py:613-627 | a text without digits yields 50; the ladder fails only on a text with digits whose converted string has more than 4300 digits |
| Scoring.RawScoreIsLastNumber | agents.py:613-627 | the ladder yields 50 on a text without digits, and otherwise `int` of the text's last maximal digit run; the all-digit rung agrees with this |
| Scoring.RawScoreOfLastRun | agents.py:613-627 | whatever the last maximal digit run of the text, the ladder yields `int` of it |
| Scoring.Clamp | agents.py:630 | the result lies in [1, 100]; values inside are kept, values below become 1 and values above become 100 |
| Scoring.ParseScore | agents.py:608-630 | a parsed score always lies in [1, 100] |
| Scoring.ScoreOfLastRun | agents.py:608-630 | a text without surrounding whitespace whose last number has at most 4300 digits scores that number clamped |
| Scoring.NoDigitScoresDefault | agents.py:608-627 | every answer without a digit scores 50 |
| Scoring.StripDigitString | agents.py:608 | stripping a digit string leaves it unchanged |
| Scoring.ScoreOfDigitString | agents.py:608-630 | an answer that is a bare digit string scores its value clamped into [1, 100] when it has at most 4300 digits, and fails to convert otherwise |
| Scoring.ScoreOfPlainNumber | agents.py:608-630 | an answer that is just the number n scores n clamped into [1, 100] when its spelling has at most 4300 digits, and fails to convert otherwise |
| Scoring.PlainNumberExample | agents.py:613-614 | "87" scores 87 |
| Scoring.ClampHighExample | agents.py:608-630 | " 250\n" is stripped and scores 100 |
| Scoring.ClampLowExample | agents.py:630 | "0" scores 1 |
| Scoring.NoNumberExample | agents.py:625-627 | the answer "no numbers here" scores 50 |
| Scoring.LastNumberWinsExample | agents.py:618-622 | "Score: 42 out of 100, final: 91" scores 91, because the last number wins |
| Scoring.ScoreText | agents.py:608-636 | the evaluation built from a generated answer has a score in [1, 100] |
| Scoring.Evaluate | agents.py:579-654 | the evaluator never raises, and its score always lies in [1, 100] |
| Scoring.EvaluateCases | agents.py:602-654 | the evaluation succeeds iff the evaluator generated text whose score converts, and then keeps the parsed score and the stripped text; generated text whose number exceeds 4300 digits gives 50 with "Exception: " and the `int` message; a failed call gives 50 with "Evaluation failed: " and the error; an exception from the call gives 50 with "Exception: " and its message |
| Scoring.EvaluateOfDigitString | agents.py:602-654 | an evaluator answering with a bare digit string yields a successful evaluation with its value clamped when it has at most 4300 digits, and otherwise 50 with the `int` message |
| Scoring.EvaluateOfPlainNumber | agents.py:602-636 | an evaluator that answers with a bare number in [1, 100] produces a successful evaluation with exactly that score |
| BestOf.Scan | agents.py:658-666 | when no candidate is chosen the running best stays at -1; otherwise the chosen index is in range and the running best is its score |
| BestOf.ScanIsFirstMax | agents.py:657-670 | nothing is chosen iff every score is at most -1; a chosen entry has the greatest score and no earlier entry reaches it; the score found bounds every entry |
| BestOf.ScanMonotone | agents.py:663-665 | the best score of a prefix of the candidates never exceeds the best score of the whole list |
| BestOf.ScanAppend | agents.py:663-666 | appending a candidate makes it the best iff it beats the current best score strictly |
| BestOf.BestResponse | agents.py:657-670 | the selection is None iff no score exceeds -1; otherwise it is the output, score and model of a first maximal candidate |
| BestOf.FindBestResponse | agents.py:657-670 | the loop returns the first maximal candidate's output, score and model; it returns None (where the source fails on `None`) iff no score exceeds -1 |
| Chain.StepPrompt | agents.py:302-327 | step 1 embeds the task as the current output; every later step embeds its step number, the task, the previous record's model and the carried output |
| Chain.ScoredCandidate | agents.py:531-539 | a scored candidate records the step, its model and its output, with score equal to the evaluator's score of that output plus the step number, hence in [step + 1, step + 100] |
| Chain.Advance | agents.py:295-346 | a crashing call aborts the step; a running step appends exactly one record, numbered i + 1, for model i, holding the result `call_model` returned for the step's request; a failed call keeps the carried output and the candidates; a success without scoring carries the new text; a success with scoring appends the candidate and carries the best candidate's output |
| Chain.RunPrefix | agents.py:295 | a running prefix over k models holds exactly k records |
| Chain.Run | agents.py:295-346 | a completed run holds one record per model, and a service that never crashes lets the run complete |
| Chain.CountSuccessful | agents.py:361 | the success count never exceeds the number of records |
| Chain.AllFailedForwardsNothing | agents.py:332-337 | when no step succeeds the count is 0 and nothing replaces the initial output |
| Chain.CandidatesBeatSentinel | agents.py:540-542 | appending any candidate that scores above -1 makes the best-of selection find a candidate, whatever the list held before |
| Chain.StepAppendsRecord | agents.py:552-556 | a running step keeps every earlier record and appends one |
| Chain.StepPreservesHistoryShape | agents.py:342-346 | one record per processed model, numbered 1.. in order, naming the model and the step's clock reading, is kept by every step |
| Chain.StepPreservesCandidates | agents.py:530-540 | each candidate is a successful step's output, with model and score in [step + 1, step + 100] and steps increasing; every step keeps this |
| Chain.StepPreservesScores | agents.py:530-540 | every stored score equals the evaluator's score of the candidate's output plus its step number; every step keeps this |
| Chain.StepPreservesCarried | agents.py:524-542 | without scoring the carried output is the last successful output, or the task if there is none; with scoring there is one candidate per success and the carried output is the best candidate's; every step keeps this |
| Chain.StepAbortsOnlyOnCrash | agents.py:330-542 | a step aborts exactly when its call crashes; the best-of selection never fails |
| Chain.StepPreservesInv | agents.py:295-556 | every step keeps the invariants and aborts only on a crash |
| Chain.RunInvariant | agents.py:470-556 | every running prefix of the run satisfies the invariants; a service that never crashes lets the whole run complete |
| Chain.AbortIsFinal | agents.py:330 | once a call crashes, every longer prefix ends in the same abort |
| Chain.PrefixGrows | agents.py:540-556 | a running prefix extends the one before it, in history and in candidates |
| Chain.StepExtends | agents.py:540-556 | one step keeps the history and the candidates it was given as a prefix |
| Chain.PrefixesExtend | agents.py:470-556 | the history and the candidate list are append-only across the whole run |
| Chain.BestScoreNeverDecreases | agents.py:540-542 | with scoring, the best score held after step j is never above the best score held after a later step k |
| Chain.Summary | agents.py:356-363 | the success count of a summary never exceeds its number of records |
| Chain.ChainOutcome | agents.py:274-363 | `sequential_model_chain` raises iff the run aborts; a finished result keeps the task, returns the carried output, and has one record per model and at most that many successes |
| Chain.HistoryOutcome | agents.py:459-574 | the full-history driver raises iff the run aborts; a finished result returns the carried output and the run's candidates, with one record per model; with scoring there is one candidate per success, and without it there are none |
| Chain.AllFailedKeepsTask | agents.py:293-358 | when every step fails, the final output is the initial task and there are no candidates |
| Drivers.FinishedRunFacts | agents.py:356-363 | a completed run's summary keeps the task, has one record per model numbered 1..N in order, counts its successes, and returns the task when every step failed |
| Drivers.ChainOutcomeFacts | agents.py:274-363 | a plain run's final output is the last successful output (or the task), on top of the summary facts; a service that never crashes lets it finish |
| Drivers.HistoryOutcomeFacts | agents.py:459-574 | a full-history run's candidates come from its steps, each scored as the evaluator's score of its output plus its step number; with scoring there is one per success, and the final output is the best candidate's output (or the task if none); without scoring there are none and the final output is the last successful output |
| Drivers.SequentialModelChain | agents.py:274-363 | `models` defaults to None, which selects the "fast" chain; the result equals the specification run, with the summary and final-output facts above |
| Drivers.PlainChainLoop | agents.py:292-363 | the loop over the chosen list equals the specification run and has the plain run's facts |
| Drivers.PlainStep | agents.py:302-346 | one pass of the plain loop body is one `Advance` step without scoring |
| Drivers.SequentialModelChainWithFullHistory | agents.py:459-574 | scoring defaults to on and best-from-all to off; the result equals the specification run and has the full-history facts above |
| Drivers.FullHistoryStep | agents.py:479-556 | one pass of the full-history loop body is one `Advance` step with the scoring templates |
| Drivers.ScoreAndSelectBest | agents.py:530-542 | the candidate list gains exactly the scored candidate, and the selected best is the first maximal candidate of the new list |
| Drivers.SuperCodeGenerator | agents.py:427-453 | the mode defaults to "fast"; the chain named by the mode is run with scoring on, and the run finishes iff the specification run does; its output is the task when every step failed, and otherwise the output of a first maximal candidate; a service that never crashes lets it finish |
| Drivers.NotAllFailedCounts | agents.py:361 | a run with some successful step has a positive success count |
| Scenarios.RevertsToHigherScored | agents.py:524-542 | in a two-model scored run, if the first output is rated at least one point above the second, the run ends carrying the first output even though both steps succeed |
| Scenarios.CarriedOutputCanRevert | agents.py:524-542 | a concrete evaluator that rates "A" 90 and "B" 10 makes a run ending with "A" after step 2 answered "B" |
| Api.Trim | api.py:28-31 | a text within the limit is returned unchanged; a longer one becomes its first `limit` characters followed by "\n\n...[truncated]"; the length follows |
| Api.MarkerLength | api.py:31 | the truncation marker is 16 characters long |
| Api.TrimKeepsPrefix | api.py:28-31 | the trimmed text is at most limit + 16 long and starts with the kept prefix of the original |
| Api.TrimIdempotent | api.py:28-31 | trimming twice with the same limit gives the same result as trimming once |
| Api.TrimValue | api.py:29-31 | strings are trimmed and every other value is returned as it is |
| Api.Get | api.py:66-76 | `d.get(key, default)` returns the stored value when there is one and the default otherwise |
| Api.SelectApiKey | api.py:39-43 | a non-empty request key wins; otherwise the `GOOGLE_API_KEY` value, or "" if it is unset; the key is empty iff both are missing or empty |
| Api.EffectiveMode | api.py:54 | a missing or empty mode becomes "fast" and any other mode is kept; the mode is never empty |
| Api.BuildPayload | api.py:63-92 | every payload has the same eleven keys; a text result gives `final_code` = trim(text, 8000), 0 models, no messages, empty text fields, an empty metrics dictionary, 0.0 complexity and no timestamps |
| Api.DictPayloadFallbacks | api.py:68-76 | `final_code` falls back from "final_code" to "final_output" to "", `total_models_used` from "total_models_used" to "total_models" to 0, `messages` from "messages" to "all_steps" to [], and `workflow_completed` from "workflow_completed" to "completed_at" to null |
| Api.RunTask | api.py:33-99 | no key gives status 400 with the fixed message, before the generator is consulted; a raising generator gives status 500 with "Error: " and the message; otherwise the payload of the result is returned |
| Api.MissingKeyRejectedBeforeWork | api.py:46-51 | without a key, the response is the same 400 error whatever the generator would do |
| Api.TextResultReachesClient | api.py:56-93 | a text result reaches the client as `final_code`: unchanged within 8000 characters, and otherwise with its first 8000 characters kept and at most 16 more |

## Left out

- The Gemini client and the network (agents.py:10-11, 252-258): the hosted service is the oracle `Service`. Its answer may differ on every call, because the request carries the step number.
- Prompt wording (agents.py:304-327, 480-518, 583-600): prompts are the structured `Prompt` datatype. It records what each template embeds: the task, the chain length, the step, the previous model, the carried output, and whether the scoring hints are appended.
- Printing, the `verbose` flag and `traceback` output: none of them affect a result while generated text is a string (see the `None` line below for when it is not).
- Timestamps: `datetime.now().isoformat()` readings are the oracle `Clock`. It is numbered by step, and the completion time is reading N + 1.
- `display_chain_results` and `save_chain_results` (agents.py:365-422): console output and file I/O.
- Unicode: `str.lower`, `str.isdigit` and `\d` use ASCII letters and digits only. `str.strip` uses Python's full whitespace set.
- `response.text` being `None`: generated text is always a string here. In the source a `None` output has two different consequences:
  - as the evaluator's reply, `.strip()` at agents.py:608 raises inside the `try`, and the evaluation scores 50 with "Exception: …";
  - as a chain step's output, `sequential_model_chain` with the default `verbose=True` raises a `TypeError` on `len(current_output)` at agents.py:335, which escapes the driver. The full-history driver instead carries the `None` (agents.py:526), interpolates it into the evaluator's prompt without error (agents.py:598), stores it as a candidate's output, and can return it as `final_output`; `run_task` then sends the string "None" to the client through `trim(str(result), 8000)` (api.py:83).
- `sequential_model_chain_with_full_history` with `models = None`: the source fails on `enumerate(None)` at agents.py:476. The model takes a list, and `super_code_generator` always passes one.
- The `all_outputs_history` and `best_selections` fields are left out: the source returns them, but it never fills them.
- The constant `"success": True` field of each stored scored response (agents.py:538) is not part of `Candidate`: every stored candidate comes from a successful step, which `Chain.CandidatesFromSteps` states.
- `select_best_from_all`: it is recorded in the result and has no other effect, as in the source.
- The `model` loop variable is rebound to the best candidate's model (agents.py:542). This has no effect, because the record appended at agents.py:552 is built from the call's result, and the next pass of the loop rebinds `model`.
- Api.BuildPayload: a result that is neither a dictionary nor a string goes through `str(result)` in the source. Only those two result shapes are modelled, and `super_code_generator` returns a string as long as generated text is a string (see the `None` line above).
- Request validation by pydantic, the FastAPI app, CORS middleware and static files, and the `/health`, `/` and `OPTIONS /run` routes (api.py:18-26, 101-123): framework glue.
- The `__main__` blocks: api.py:125-134 is a launcher whose last line is shell syntax, so it is not valid Python. agents.py:675-676 is a demo call. start.py is a process launcher and is not part of this model.
- The `int` digit limit is fixed at CPython's default of 4300 (`sys.set_int_max_str_digits` is not modelled). The message `Scoring.IntLimitMessage` follows CPython 3.12's wording, which other versions phrase differently.
- `find_best_response` on a list where no score exceeds -1: the source fails on `None`, and the model returns `None` for it. `Chain.CandidatesBeatSentinel` proves that the drivers never reach this case.
