# A verified model of the slime Megatron training actor and the BFCL plug-ins

This project models three parts of the slime reinforcement-learning trainer
and states what each of them promises.

- **The Megatron training actor** (`MegatronTrainRayActor`, module `Actor`, file
  `actor.dfy`). It is a class whose fields follow the actor's own fields:
  - `args`, a record of the configuration flags it reads;
  - `model`, the live parameters as a map from parameter name to value;
  - `weights`, the role snapshots `"actor"`, `"ref"` and `"old_actor"` as maps
    of the same kind;
  - the weight updater, the rollout engines and the post-processing hook.

  Effects the actor hands to Megatron, CUDA or Ray are appended to a `trace`
  of events instead of being performed. These are the allocator's sleep and
  wake, the forward-only log-prob passes, advantage computation, the
  optimiser step, logging, saving, connecting engines and the weight push.
  The optimiser's update and the checkpoint contents are parameters
  (`step`, `checkpoint`).
- **The BFCL multi-turn rollout** (module `Rollout`, and module `Reply` for the
  two reply classifiers). It covers:
  - dataset loading, with the package, project-root and mock fallbacks;
  - the bounded multi-turn simulation against a chat endpoint;
  - the GRPO groups of samples handed back to the trainer.

  The chat endpoint is a function from the messages and the request's
  ordinal to the reply. The file system is a map from path to the parsed
  content of the file there. `random.sample` is a function that returns k
  distinct positions.
- **The BFCL reward** (module `Reward`). It covers:
  - decoding each raw step with the handler's decoder;
  - looking up the test entry and the ground truth in the evaluator's data
    files;
  - mapping the checker's verdict to a reward of 0.0 or 1.0.

  The decoder, the checker and the set of known handler names are parameters.

Shared modules:
- `Json` holds JSON values as Python holds them after `json.load`, Python's
  `d[k]`, `d.get`, `for x in v`, `bool(v)` and `==` on them, and
  `json.dumps`.
- `Text` holds the string operations.
- `Wrappers` holds `Option` and `Result`.

Each method that loops is proved against a specification function: the
method's `ensures` equates its result, or its new state, with that function.
Lemmas then state what the function means.

The model follows the code where its description of the system differs from
it. `load_other_checkpoint` loads a checkpoint into the live model, snapshots
it and does not put the previous live model back. Only `init` restores the
actor's parameters afterwards, and only under `offload`
(slime/backends/megatron_utils/actor.py:64-66). The model reproduces this
instead of a restoring load.

Snapshots are copies, not aliases. A snapshot is a value, so a later change
to the live model cannot reach it. This shows in the contracts: `Train`
changes `model` while it ensures `weights == old(weights)`, and
`LoadOtherCheckpoint` loads into the live model after the other snapshots
were taken and leaves them unchanged.

## Model

| member | source | states |
|---|---|---|
| Text.Lower | bfcl_slime/rollout_bfcl.py:262 | lower-casing keeps the length and maps each character through ASCII lower-casing |
| Text.ContainsMeaning | bfcl_slime/rollout_bfcl.py:264 | the substring scan succeeds exactly when the substring occurs at some position |
| Text.JoinSpaceLength | bfcl_slime/rollout_bfcl.py:81 | a space-joined string is as long as its parts plus one separator between each two |
| Json.Subscript | bfcl_slime/rm_bfcl.py:24-27 | `v[key]` succeeds exactly on a dict holding the key and then returns the value stored under it; it raises KeyError on a dict without the key and TypeError on anything else |
| Json.GetOr | bfcl_slime/rm_bfcl.py:113-114 | `v.get(key, default)` on a dict returns the value stored under the key, or the default when the key is absent; on anything else it raises AttributeError |
| Json.Iterate | bfcl_slime/rm_bfcl.py:36-38 | `for x in v` visits a list's elements, a dict's keys in order, or a string's characters; on any other value it raises TypeError |
| Json.PyEqString | bfcl_slime/rm_bfcl.py:93 | a string equals exactly the same string, in either operand position |
| Json.EncodeIdentifierObject | bfcl_slime/rollout_bfcl.py:254 | `json.dumps` of a one-key dict with an identifier key is `{"key": <value's JSON>}` |
| Reply.ExtractRawReply | bfcl_slime/rollout_bfcl.py:250-256 | with tool calls, the reply is the JSON text `{"tool_calls": ...}`; otherwise it is the content, read as "" when missing or null; it agrees with the code as written wherever that returns a string |
| Reply.NullContentStepIsNone | bfcl_slime/rollout_bfcl.py:256-264 | as written, a reply with null content and no tool calls yields a step that is None, and it ends its turn |
| Reply.CallFromMeaning | bfcl_slime/rollout_bfcl.py:264 | the search succeeds exactly when the pattern matches at some position from the start on |
| Reply.CallAtMatches | bfcl_slime/rollout_bfcl.py:264 | where the greedy scan succeeds, the regular expression `\b[a-zA-Z_]\w*\s*\(` matches |
| Reply.MatchIsCallAt | bfcl_slime/rollout_bfcl.py:264 | every match of that regular expression is found by the greedy scan |
| Reply.CallPatternIsRegexSearch | bfcl_slime/rollout_bfcl.py:264 | the scan finds a call exactly when `re.search` of the pattern would |
| Reply.SeemsFunctionCallMeaning | bfcl_slime/rollout_bfcl.py:259-264 | a reply continues its turn iff it has truthy tool calls, or its lower-cased content contains both `"function"` and `"arguments"`, or it matches the call pattern |
| Rollout.ProjectRecord | bfcl_slime/rollout_bfcl.py:165-170 | projection succeeds exactly on a parsed dict holding `id`, `question` and `func_doc`, and the item is those three stored values; a line that does not parse raises ValueError, a record that is not a dict TypeError, and a dict missing a field KeyError |
| Rollout.Records | bfcl_slime/rollout_bfcl.py:163-169 | a `.jsonl` file yields its lines, in order; any other file yields the elements `for rec in json.load(f)` visits, in order, raising ValueError when it does not parse and TypeError when the document is not iterable |
| Rollout.ProjectAllMeaning | bfcl_slime/rollout_bfcl.py:160-171 | reading keeps every record, in order, projected to id, question and func_doc; it fails with the first failing record's error |
| Rollout.ReadBfclFile | bfcl_slime/rollout_bfcl.py:160-171 | the reading loop returns what the projection specification gives |
| Rollout.FirstExisting | bfcl_slime/rollout_bfcl.py:106-109 | the chosen path exists and no earlier candidate does; none is chosen only when no candidate exists |
| Rollout.MockItems | bfcl_slime/rollout_bfcl.py:139-157 | the mock dataset has ten items, with ids `mock_<category>_0` to `mock_<category>_9` |
| Rollout.MockIdsDistinct | bfcl_slime/rollout_bfcl.py:140-142 | the mock ids are pairwise distinct |
| Rollout.LoadBfclMultiTurnItems | bfcl_slime/rollout_bfcl.py:93-157 | loading follows the fallback order: first a package file (.json before .jsonl, read errors swallowed), then FileNotFoundError when no project root is set, then the first project-root candidate, then the mock items |
| Rollout.LoadSpecOutcomes | bfcl_slime/rollout_bfcl.py:100-157 | items found in the package are returned; failing that, an unset or empty project root raises FileNotFoundError, and a root under which no candidate exists yields ten mock items with ids `mock_<category>_0` to `mock_<category>_9` |
| Rollout.TurnReplies | bfcl_slime/rollout_bfcl.py:211-224 | a turn with a positive budget has between 1 and budget replies; reply j answers request from+j with the same messages; every reply but the last looks like a function call |
| Rollout.TurnStopsOnPlainReply | bfcl_slime/rollout_bfcl.py:221-224 | a turn that ends before its budget ends on a reply that does not look like a function call |
| Rollout.Conversation | bfcl_slime/rollout_bfcl.py:204-229 | a conversation has exactly the requested number of turns |
| Rollout.RunTurn | bfcl_slime/rollout_bfcl.py:211-224 | the step loop with its `break` returns the raw text of the turn's replies and advances the request count by their number |
| Rollout.SimulateMultiTurn | bfcl_slime/rollout_bfcl.py:174-230 | the nested loop returns the raw steps of the specified conversation, grouped by turn |
| Rollout.ConversationPrefix | bfcl_slime/rollout_bfcl.py:204-229 | the first t turns of a longer conversation are the conversation of t turns |
| Rollout.ConversationTurns | bfcl_slime/rollout_bfcl.py:202-218 | every turn starts again from the same two messages; its requests are numbered after those of the earlier turns |
| Rollout.ConversationRequests | bfcl_slime/rollout_bfcl.py:204-224 | a conversation of n turns makes between n and n times the budget requests, and none when the budget is not positive |
| Rollout.SimulationShape | bfcl_slime/rollout_bfcl.py:204-229 | the simulation returns `max_turns` turns (none when negative); each has 1 to `max_steps_per_turn` steps, or none when that is not positive |
| Rollout.ResponseLengthCounts | bfcl_slime/rollout_bfcl.py:81 | `response_length` counts every character of every step plus one separator between two steps of a turn |
| Rollout.BuildGroup | bfcl_slime/rollout_bfcl.py:51-85 | the group loop builds `group_size` samples from one item, as the group specification gives |
| Rollout.BuildGroups | bfcl_slime/rollout_bfcl.py:47-86 | one group per picked item, in the order of the picks, each the group specification of that item and its position |
| Rollout.GenerateRollout | bfcl_slime/rollout_bfcl.py:8-87 | the rollout, with its settings defaulted (8, 32, multi_turn_base, 3, 6, openai), is the specified one |
| Rollout.RolloutShape | bfcl_slime/rollout_bfcl.py:43-87 | a rollout fails exactly when loading fails or the batch size is negative; otherwise it has `min(batch_size, len(items))` groups, every one of exactly `group_size` samples (none for a negative size), each from a distinct sampled item; every sample carries that item's id and question, `max_turns` turns, a response length that is the sum of its space-joined turns' lengths, reward 0.0, tokens None and truncated False |
| Reward.DecodeStep | bfcl_slime/rm_bfcl.py:39-47 | a decoded list is spliced in, any other decoded value is one element, and a decoding failure is one `""` |
| Reward.DecodeTurnLength | bfcl_slime/rm_bfcl.py:37-47 | a decoded turn is as long as the sum over its steps of the list length, or 1 |
| Reward.DecodeTurnAppend | bfcl_slime/rm_bfcl.py:38-47 | decoding a turn distributes over concatenating its steps |
| Reward.DecodeSteps | bfcl_slime/rm_bfcl.py:37-48 | the extend/append loop over the steps yields the specified decoded turn |
| Reward.DecodeTurnsMeaning | bfcl_slime/rm_bfcl.py:35-48 | decoding yields one decoded turn per turn of the result, in order; it fails with TypeError exactly when some turn is not iterable |
| Reward.DecodeResult | bfcl_slime/rm_bfcl.py:35-48 | the loop over the turns returns what the decoding specification gives |
| Reward.FindTestEntryMeaning | bfcl_slime/rm_bfcl.py:89-100 | the scan returns the first record whose id equals the wanted one, reached without an error; when every record parses, has an id and differs, it raises KeyError |
| Reward.FindTestEntryFails | bfcl_slime/rm_bfcl.py:89-100 | a failing entry scan raises KeyError after reading past every record, or the error of the first record it cannot read: ValueError for an unparsable line, KeyError or TypeError from `rec["id"]` |
| Reward.LoadTestEntry | bfcl_slime/rm_bfcl.py:78-100 | the `.json` data file is used when it exists: its read error, else the first-match scan over its records; otherwise the `.jsonl` file's lines are scanned; with neither file it raises FileNotFoundError |
| Reward.LoadTestEntryPrefersJson | bfcl_slime/rm_bfcl.py:81-85 | when the `.json` file exists, the `.jsonl` file's presence or content does not change the outcome |
| Reward.FindAnswersMeaning | bfcl_slime/rm_bfcl.py:111-115 | the list scan returns the answers of the first record whose `id` matches, and raises KeyError when every record is a dict with another id |
| Reward.FindAnswersFails | bfcl_slime/rm_bfcl.py:111-115 | a failing answer scan raises KeyError after reading past every record, or AttributeError from `rec.get` at the first record that is not a dict |
| Reward.AnswersOf | bfcl_slime/rm_bfcl.py:114 | the answers are `answers` if present, else `answer`, else `[]` |
| Reward.InDict | bfcl_slime/rm_bfcl.py:109 | `bfcl_id in data` raises exactly for an unhashable id, and is true exactly for a string key of the dict |
| Reward.LoadGroundTruth | bfcl_slime/rm_bfcl.py:102-115 | a missing file raises FileNotFoundError and an unparsable one ValueError; for a dict document, a list or dict id raises TypeError (unhashable), a present string key gives its value and any other id raises KeyError; a list gives the first matching record's answers; any other document raises KeyError |
| Reward.ReadFields | bfcl_slime/rm_bfcl.py:24-28 | reading succeeds exactly when `metadata` holds `id`, `result` and `bfcl_meta` and that holds `category`; the fields are those stored values, with `handler_name` defaulting to "openai"; otherwise it raises the error of the first subscript that fails, in the order `metadata`, `id`, `result`, `bfcl_meta`, `category`: KeyError on a dict without the key, TypeError on a non-dict |
| Reward.HandlerDefaultsToOpenai | bfcl_slime/rm_bfcl.py:28 | the handler name is `bfcl_meta["handler_name"]` when present, otherwise "openai" |
| Reward.HandlerClass | bfcl_slime/rm_bfcl.py:31 | the handler lookup succeeds exactly for a known string name; an unknown name raises KeyError and an unhashable one TypeError |
| Reward.Score | bfcl_slime/rm_bfcl.py:64 | the reward is 0.0 or 1.0; it is 1.0 iff the verdict's `overall_valid` is present and truthy; a verdict that is not a dict raises |
| Reward.SampleReward | bfcl_slime/rm_bfcl.py:23-64 | a sample's reward, when it does not raise, is 0.0 or 1.0 |
| Reward.RewardsMeaning | bfcl_slime/rm_bfcl.py:22-65 | scoring gives one reward per sample, in input order; it fails exactly when some sample's scoring raises, with the error of the first one |
| Reward.BfclRewardMeaning | bfcl_slime/rm_bfcl.py:6-65 | without the evaluator package it raises ImportError; otherwise every reward is sample i's own score, and 0.0 or 1.0 |
| Reward.ScoreSample | bfcl_slime/rm_bfcl.py:23-64 | scoring one sample returns its specified reward |
| Reward.BfclReward | bfcl_slime/rm_bfcl.py:6-65 | the reward loop returns the specified rewards |
| Actor.ModelOf | slime/backends/megatron_utils/actor.py:51-53 | a built model has exactly the parameter names as keys |
| Actor.CheckpointModel | slime/backends/megatron_utils/actor.py:316-322 | a model loaded from a checkpoint has exactly the parameter names as keys |
| Actor.CopyNames | slime/backends/megatron_utils/actor.py:95-107 | after a copy loop the target's keys are its old keys plus every parameter name (a missing entry is allocated) |
| Actor.CopyNamesMeaning | slime/backends/megatron_utils/actor.py:95-107 | every parameter name then holds the source's value, and every other entry of the target is unchanged |
| Actor.CpuGpuRoundTrip | slime/backends/megatron_utils/actor.py:95-107 | copying the live model into any dict and restoring from that dict leaves the live model unchanged |
| Actor.CopyCovers | slime/backends/megatron_utils/actor.py:95-107 | copying from a source over exactly the parameter names into a target with no other names makes the target equal to the source |
| Actor.SleepTagsMeaning | slime/backends/megatron_utils/actor.py:112-114 | a string tag passes the check exactly when "model" occurs in it, yet its normalised tuple names "model" only when the string is exactly "model"; a tuple passes exactly when it names "model" |
| Actor.SleepTagCheck | slime/backends/megatron_utils/actor.py:112-114 | example instances of Actor.SleepTagsMeaning: the string "model" passes the tag check and becomes the tuple ("model",); a string that merely contains "model" passes too, though its tuple does not name "model" |
| Actor.LogProbEventsNoOptimizer | slime/backends/megatron_utils/actor.py:210-234 | the log-prob phase never calls the optimiser |
| Actor.OptimizerRunsOnce | slime/backends/megatron_utils/actor.py:187-250 | one `train` call runs the optimiser exactly once, and never under `debug_rollout_only` |
| Actor.DebugRolloutOnlyTrain | slime/backends/megatron_utils/actor.py:187-193 | under `debug_rollout_only`, `train` fetches and logs the data and nothing else; it never wakes, forwards, computes advantages or trains, and the model is unchanged |
| Actor.NoAdvantagesNoForward | slime/backends/megatron_utils/actor.py:210-250 | without advantage computation there is no forward pass and no advantage step; the optimiser trains the model as it was on entry |
| Actor.LogProbOrder | slime/backends/megatron_utils/actor.py:210-250 | the `ref_` pass occurs iff "ref" is a role and comes before the `""` pass, which loads `old_actor` under `keep_old_actor` and `actor` otherwise; advantages follow both, and the optimiser comes after |
| Actor.LogProbPhaseEndsOnActor | slime/backends/megatron_utils/actor.py:221-230 | after the log-prob phase the live model equals the `"actor"` snapshot |
| Actor.CurrentSnapshotTrainsLive | slime/backends/megatron_utils/actor.py:221-250 | when the `"actor"` snapshot is current, one `train` applies the optimiser step to the live model |
| Actor.TrainingProgressLostWithoutOffload | slime/backends/megatron_utils/actor.py:221-250 | as written, without offload, two steps of "add one" from 0 leave a parameter at 1, not 2 |
| Actor.MegatronTrainActor.constructor | slime/backends/megatron_utils/actor.py:33-34 | a new actor holds its configuration and nothing else |
| Actor.MegatronTrainActor.UpdateCpuParamsDict | slime/backends/megatron_utils/actor.py:95-100 | only snapshot `tag` changes, to the copy of the live model into it; the model is unchanged |
| Actor.MegatronTrainActor.UpdateGpuParamsDict | slime/backends/megatron_utils/actor.py:103-107 | requires every parameter name in the snapshot; the model becomes the restore from it, and the snapshots are unchanged |
| Actor.MegatronTrainActor.SnapshotAndRestore | slime/backends/megatron_utils/actor.py:95-107 | a snapshot followed by a restore leaves the live model as it was and the snapshot equal to it |
| Actor.MegatronTrainActor.Sleep | slime/backends/megatron_utils/actor.py:110-121 | requires `offload` and "model" in the tags; refreshes the `"actor"` snapshot from the live model, then records the allocator sleep with the normalised tags |
| Actor.MegatronTrainActor.WakeUp | slime/backends/megatron_utils/actor.py:127-136 | requires `offload`; records the allocator wake and changes nothing else |
| Actor.MegatronTrainActor.ComputeLogProb | slime/backends/megatron_utils/actor.py:158-180 | loads snapshot `tag` into the live model, then records the forward pass on it |
| Actor.MegatronTrainActor.RefLogProb | slime/backends/megatron_utils/actor.py:211-218 | when a `"ref"` snapshot exists, the live model becomes it and the trace gains the `ref_` forward pass; otherwise nothing changes |
| Actor.MegatronTrainActor.RestoreActor | slime/backends/megatron_utils/actor.py:226-228 | when an `"old_actor"` snapshot exists, the live model is restored from `"actor"`; otherwise it stays; the trace and the snapshots are unchanged |
| Actor.MegatronTrainActor.LogProbPhase | slime/backends/megatron_utils/actor.py:210-230 | the trace gains exactly the log-prob events and the live model ends as the specified post-log-prob model, with the snapshots unchanged |
| Actor.MegatronTrainActor.Train | slime/backends/megatron_utils/actor.py:182-250 | the trace gains the flag-gated event sequence, the snapshots are unchanged, and the model is the specified trained model |
| Actor.MegatronTrainActor.TrainKeepingSnapshot | slime/backends/megatron_utils/actor.py:182-250 | `train` followed by a refresh of the `"actor"` snapshot; when the snapshot was current, the model is the optimiser step of the old model and the snapshot stays current |
| Actor.MegatronTrainActor.Eval | slime/backends/megatron_utils/actor.py:270-275 | logs the evaluation unless `debug_train_only`; nothing else changes |
| Actor.MegatronTrainActor.SaveModel | slime/backends/megatron_utils/actor.py:277-284 | records a save, with or without the optimiser, unless `debug_rollout_only` |
| Actor.MegatronTrainActor.ConnectRolloutEngines | slime/backends/megatron_utils/actor.py:286-293 | always records the engines; connects the updater unless a debug flag is set |
| Actor.MegatronTrainActor.UpdateWeights | slime/backends/megatron_utils/actor.py:296-308 | does nothing under a debug flag; otherwise pushes the weights and, under `keep_old_actor`, then copies the live model into `"old_actor"` |
| Actor.MegatronTrainActor.LoadWithOverrides | slime/backends/megatron_utils/actor.py:311-323 | the load runs with `no_load_optim`, `no_load_rng` and `finetune` set and the given path; afterwards the four overridden `args` fields hold their values on entry |
| Actor.MegatronTrainActor.LoadOtherCheckpoint | slime/backends/megatron_utils/actor.py:310-326 | the configuration is restored; the live model is the loaded checkpoint and is not put back; snapshot `tag` is replaced by a copy of it and the other snapshots are unchanged |
| Actor.MegatronTrainActor.BuildModel | slime/backends/megatron_utils/actor.py:51-56 | the model is built over the parameter names and the `"actor"` snapshot is a copy of it |
| Actor.MegatronTrainActor.LoadRoles | slime/backends/megatron_utils/actor.py:58-62 | adds `"ref"` iff requested and `"old_actor"` iff `keep_old_actor`, each a copy of its checkpoint; the live model is left at the last one loaded |
| Actor.MegatronTrainActor.RestoreActorAndSleep | slime/backends/megatron_utils/actor.py:64-67 | the live model is restored from the `"actor"` snapshot, then put to sleep |
| Actor.MegatronTrainActor.Init | slime/backends/megatron_utils/actor.py:34-92 | see the summary below this table |

`Actor.MegatronTrainActor.Init` ensures the following.
- Under `debug_rollout_only` it returns 0 and changes nothing: the model, the snapshots, the trace, the parameter names, the updater, the engines and the post-processing hook all keep their values.
- Otherwise it returns the loaded rollout id plus one.
- The roles are `"actor"`, plus `"ref"` iff `with_ref`, plus `"old_actor"` iff `keep_old_actor`.
- Each role holds its own checkpoint.
- The live model is the `"actor"` snapshot under `offload`, and otherwise the last checkpoint loaded.
- The updater is chosen by `colocate`.
- The engines are unset.
- The post-processing hook is the configured one.

## Left out

- The HTTP request of `_chat_once`, its timeout and its errors (a missing `choices` raises) are left out; the chat endpoint is a function of the messages and the request number.
- The sampling parameters `temperature`, `top_p` and `max_tokens`, and the router URL, are left out: only the endpoint reads them.
- Settings are taken as already parsed. The `int()` parsing of `BFCL_MAX_TURNS` and `BFCL_MAX_STEPS_PER_TURN`, and its ValueError, are left out.
- `random.sample` is a function that returns k distinct positions below n. Which positions it picks is not modelled.
- Text.Lower: only ASCII letters are lower-cased, and `\w` and `\s` are restricted to ASCII.
- Json.Str: lists and dicts are rendered by their JSON text, not by Python's `repr`.
- JSON numbers are integers only. Floats, `NaN` and duplicate keys in `json.load` are left out.
- File reading is a map from path to parsed content. Encoding errors and a file that disappears between the existence check and the open are left out.
- Handler construction (`HandlerCls()`), the handler's decoder and `multi_turn_checker` are parameters. Their internals and their exceptions are left out.
- Tensors are values. The actor's snapshots are value maps, so the model does not capture that the weight updater holds `self.weights` by reference.
- The pinned memory, the non-blocking copies and `torch.cuda.synchronize` are each taken as one atomic map copy.
- The optimiser step is a parameter that computes each parameter's new value from the rollout id and the live model.
- The allocator's sleep and wake are recorded in the trace and keep the values. Memory placement is left out.
- `set_data_buffer` and `_get_rollout_data` are left out: they pass data along without state the model tracks. The fetch appears as a trace event.
- Timers, `print_memory`, `clear_memory`, logging, wandb, `log_perf_data` and the `save_debug_train_data` dump are left out; they are I/O.
- `dist.barrier` and the rank-serialised config and tokenizer loading loop (actor.py:41-45) are left out; they are collective concurrency.
- Rollout.RunTurn: uses the corrected `Reply.ExtractRawReply` (first finding below), so a reply with null content and no tool calls gives the step "" where the source appends None.
- Rollout.SimulateMultiTurn: built on Rollout.RunTurn, so a null-content step in its turns is "" where the source appends None.
- Rollout.GenerateRollout: its samples come from Rollout.SimulateMultiTurn, so a null-content step is "" where the source appends None. As written, `" ".join` at rollout_bfcl.py:81 then raises TypeError and `generate_rollout` fails; the model does not carry that failure up.
- Rollout.RolloutShape: states the rollout of Rollout.GenerateRollout, so a null-content step is "" where the source appends None, and "fails exactly when" holds of the corrected extraction only (the TypeError of rollout_bfcl.py:81 is not a failure case).
- `slime/rollout/rm_hub/judge_rm.py` is not part of this model. It wraps a network call to a judge model.

## Findings

| source | as written | input that shows it | evidently intended | confidence | as-written member | corrected member |
|---|---|---|---|---|---|---|
| bfcl_slime/rollout_bfcl.py:250-256 | `message.get("content", "")` returns None when the reply's `content` is JSON null, although the function promises a str; the later `" ".join(t)` at line 81 then raises TypeError | a reply `{"content": null}` with no `tool_calls` (the step is None, and the reply ends its turn) | a null content is read as "", as `_seems_function_call` does at line 262 | not executed | Reply.ExtractRawReplyAsWritten, Reply.NullContentStepIsNone | Reply.ExtractRawReply |
| slime/backends/megatron_utils/actor.py:221-230 | without `offload`, `weights["actor"]` is refreshed only at `init` (line 56), since `sleep` (line 118) requires `offload`; with `compute_advantages_and_returns`, every `train` reloads that stale snapshot before the optimiser, so each step restarts from the initial parameters | offload off, advantages on, one parameter at 0, an optimiser step that adds one: after two `train` calls it is 1, not 2 | the `"actor"` snapshot is kept current after each optimiser step, so training continues from the trained model | not executed; depends on callers outside this file refreshing the snapshot | Actor.TrainingProgressLostWithoutOffload | Actor.MegatronTrainActor.TrainKeepingSnapshot |
