/**
 * The training-side actor of slime's Megatron backend (`MegatronTrainRayActor`):
 * the live model, the per-role host snapshots (`"actor"`, `"ref"`,
 * `"old_actor"`), the allocator offload/wake-up, and the sequencing of one
 * training step around them. Parameter values are of an arbitrary type `V`;
 * the effects the actor hands to Megatron, the allocator and the weight
 * updater are recorded in an event trace.
 */
module Actor {
  import opened Wrappers
  import opened Text

  /** The names `named_parameters` yields, as a set. */
  function NameSet(names: seq<string>): set<string> {
    set k | 0 <= k < |names| :: names[k]
  }

  /** A live model whose parameter `n` holds `value(n)`. */
  function ModelOf<V>(names: seq<string>, value: string -> V): (m: map<string, V>)
    ensures m.Keys == NameSet(names)
  {
    map n | n in NameSet(names) :: value(n)
  }

  /** The parameters as the checkpoint at `path` holds them; `checkpoint(p, n)` is parameter `n` in the checkpoint at `p`. */
  function CheckpointModel<V>(names: seq<string>, checkpoint: (Option<string>, string) -> V, path: Option<string>): (m: map<string, V>)
    ensures m.Keys == NameSet(names)
  {
    map n | n in NameSet(names) :: checkpoint(path, n)
  }

  // ---- the two copy loops, as a function of the maps they read

  /**
   * Every parameter name, in `named_parameters` order, gets (a new entry
   * holding) the source's value: `update_cpu_params_dict` copies the live
   * model into a dict, `update_gpu_params_dict` copies a dict into the live
   * model.
   */
  function CopyNames<V>(target: map<string, V>, source: map<string, V>, names: seq<string>): (r: map<string, V>)
    requires forall k :: 0 <= k < |names| ==> names[k] in source
    ensures r.Keys == target.Keys + NameSet(names)
  {
    if |names| == 0 then target
    else
      var last := names[|names| - 1];
      CopyNames(target, source, names[..|names| - 1])[last := source[last]]
  }

  /**
   * After a copy the target holds every parameter name with the source's
   * value, and every other entry as it was; the source is only read.
   */
  lemma {:induction false} CopyNamesMeaning<V>(target: map<string, V>, source: map<string, V>, names: seq<string>)
    requires forall k :: 0 <= k < |names| ==> names[k] in source
    ensures forall n :: n in names ==> CopyNames(target, source, names)[n] == source[n]
    ensures forall n :: n in target && n !in names ==> CopyNames(target, source, names)[n] == target[n]
  {
    if |names| > 0 {
      var init := names[..|names| - 1];
      CopyNamesMeaning(target, source, init);
      assert names == init + [names[|names| - 1]];
    }
  }

  /** Copying the live model to a dict and back from the same dict leaves the live model as it was. */
  lemma CpuGpuRoundTrip<V>(dict: map<string, V>, live: map<string, V>, names: seq<string>)
    requires live.Keys == NameSet(names)
    ensures CopyNames(live, CopyNames(dict, live, names), names) == live
  {
    CopyNamesMeaning(dict, live, names);
    CopyNamesMeaning(live, CopyNames(dict, live, names), names);
  }

  /**
   * A copy from a source over exactly the parameter names into a target with
   * no other names makes the target that source: a fresh or refreshed
   * snapshot is the live model, and a restore makes the live model the snapshot.
   */
  lemma CopyCovers<V>(target: map<string, V>, source: map<string, V>, names: seq<string>)
    requires source.Keys == NameSet(names) && target.Keys <= NameSet(names)
    ensures CopyNames(target, source, names) == source
  {
    CopyNamesMeaning(target, source, names);
  }

  // ---- configuration, allocator tags and the event trace

  /** The `args` fields the actor reads. */
  datatype Args = Args(
    offload: bool,
    keepOldActor: bool,
    debugRolloutOnly: bool,
    debugTrainOnly: bool,
    computeAdvantagesAndReturns: bool,
    colocate: bool,
    load: Option<string>,
    refLoad: Option<string>,
    noLoadOptim: bool,
    noLoadRng: bool,
    finetune: bool,
    rolloutDataPostprocessPath: Option<string>)

  /** The `tags` argument of `sleep`/`wake_up`: a plain string or a tuple of strings. */
  datatype Tags = TagStr(s: string) | TagTuple(items: seq<string>)

  /** `"model" in tags`, evaluated before normalisation: on a string it is a substring test. */
  predicate NamesModel(tags: Tags) {
    match tags
    case TagStr(s) => Contains(s, "model")
    case TagTuple(ts) => "model" in ts
  }

  /** A string becomes the one-element tuple. */
  function Normalize(tags: Tags): seq<string> {
    match tags
    case TagStr(s) => [s]
    case TagTuple(ts) => ts
  }

  /**
   * For any tags given as one string, the check passes exactly when "model"
   * occurs somewhere in the string, while the normalised tags name "model"
   * only when the string is exactly "model"; a tuple passes exactly when it
   * names "model".
   */
  lemma SleepTagsMeaning(tags: Tags)
    ensures tags.TagStr? ==> (NamesModel(tags) <==> exists k :: OccursAt(tags.s, "model", k))
    ensures tags.TagStr? ==> ("model" in Normalize(tags) <==> tags.s == "model")
    ensures tags.TagTuple? ==> (NamesModel(tags) <==> "model" in Normalize(tags))
  {
    if tags.TagStr? {
      ContainsMeaning(tags.s, "model");
    }
  }

  /**
   * `("model")` is the string "model" and passes the check; so does any
   * string that merely contains "model", whose normalised tags then do not
   * name "model" at all.
   */
  lemma SleepTagCheck()
    ensures NamesModel(TagStr("model")) && Normalize(TagStr("model")) == ["model"]
    ensures NamesModel(TagStr("model_weights")) && "model" !in Normalize(TagStr("model_weights"))
  {
    assert OccursAt("model", "model", 0);
    assert "model_weights"[0..5] == "model";
    assert OccursAt("model_weights", "model", 0);
  }

  /** The weight updater class `init` picks. */
  datatype Updater = FromTensor | FromDistributed

  /** The effects the actor hands to code outside it, in the order it issues them. */
  datatype Event<V> =
    | LoadCheckpoint(load: Option<string>, noLoadOptim: bool, noLoadRng: bool, finetune: bool)
    | AllocatorSleep(tags: seq<string>)
    | AllocatorWake(tags: seq<string>)
    | FetchRolloutData(rolloutId: int)
    | ForwardOnly(prefix: string, params: map<string, V>)
    | ComputeAdvantages
    | Postprocess
    | LogRolloutData(rolloutId: int)
    | OptimizerTrain(rolloutId: int, params: map<string, V>)
    | LogEval(rolloutId: int)
    | Save(iteration: int, withOptimizer: bool)
    | ConnectEngines(engines: nat)
    | PushWeights

  // ---- one training step, as a function of the state it starts from

  /** The snapshots `train` reads exist: `"actor"` always, `"old_actor"` when it is kept. */
  predicate RolesPresent<V>(args: Args, weights: map<string, map<string, V>>) {
    "actor" in weights && (args.keepOldActor ==> "old_actor" in weights)
  }

  /** The role whose snapshot the `""`-prefixed log-prob pass loads. */
  function BehaviourRole(args: Args): string {
    if args.keepOldActor then "old_actor" else "actor"
  }

  /** The log-prob phase of `train`: the ref pass, the behaviour-policy pass, then advantages. */
  function LogProbEvents<V>(args: Args, weights: map<string, map<string, V>>): seq<Event<V>>
    requires RolesPresent(args, weights)
  {
    if !args.computeAdvantagesAndReturns then []
    else
      (if "ref" in weights then [ForwardOnly("ref_", weights["ref"])] else [])
      + [ForwardOnly("", weights[BehaviourRole(args)])]
      + [ComputeAdvantages]
  }

  /** The live model when the log-prob phase is over, following the loads `train` performs. */
  function AfterLogProbs<V>(args: Args, weights: map<string, map<string, V>>, live: map<string, V>): map<string, V>
    requires RolesPresent(args, weights)
  {
    if !args.computeAdvantagesAndReturns then live
    else if "old_actor" in weights then weights["actor"]
    else weights[BehaviourRole(args)]
  }

  /** The events one call of `train` issues. */
  function TrainEvents<V>(args: Args, weights: map<string, map<string, V>>, live: map<string, V>,
                          rolloutId: int, hasPostprocess: bool): seq<Event<V>>
    requires args.debugRolloutOnly || RolesPresent(args, weights)
  {
    if args.debugRolloutOnly then [FetchRolloutData(rolloutId), LogRolloutData(rolloutId)]
    else
      (if args.offload then [AllocatorWake(["model"])] else [])
      + [FetchRolloutData(rolloutId)]
      + LogProbEvents(args, weights)
      + (if hasPostprocess then [Postprocess] else [])
      + [LogRolloutData(rolloutId), OptimizerTrain(rolloutId, AfterLogProbs(args, weights, live))]
  }

  /** The optimiser step: each parameter's new value, given the values it starts from. */
  function Step<V>(step: (int, map<string, V>, string) -> V, rolloutId: int, live: map<string, V>): map<string, V> {
    map n | n in live :: step(rolloutId, live, n)
  }

  /** The live model after one call of `train`. */
  function TrainedModel<V>(args: Args, weights: map<string, map<string, V>>, live: map<string, V>,
                           rolloutId: int, step: (int, map<string, V>, string) -> V): map<string, V>
    requires args.debugRolloutOnly || RolesPresent(args, weights)
  {
    if args.debugRolloutOnly then live else Step(step, rolloutId, AfterLogProbs(args, weights, live))
  }

  predicate IsOptimizerTrain<V>(e: Event<V>) {
    e.OptimizerTrain?
  }

  function CountOptimizer<V>(events: seq<Event<V>>): nat {
    if |events| == 0 then 0
    else (if IsOptimizerTrain(events[0]) then 1 else 0) + CountOptimizer(events[1..])
  }

  lemma {:induction false} CountOptimizerAppend<V>(a: seq<Event<V>>, b: seq<Event<V>>)
    ensures CountOptimizer(a + b) == CountOptimizer(a) + CountOptimizer(b)
  {
    if |a| == 0 {
      assert a + b == b;
    } else {
      assert (a + b)[0] == a[0];
      assert (a + b)[1..] == a[1..] + b;
      CountOptimizerAppend(a[1..], b);
    }
  }

  /** No event of the log-prob phase is an optimiser step. */
  lemma LogProbEventsNoOptimizer<V>(args: Args, weights: map<string, map<string, V>>)
    requires RolesPresent(args, weights)
    ensures CountOptimizer(LogProbEvents(args, weights)) == 0
  {
    if args.computeAdvantagesAndReturns {
      var refPart: seq<Event<V>> := if "ref" in weights then [ForwardOnly("ref_", weights["ref"])] else [];
      CountOptimizerAppend(refPart, [ForwardOnly("", weights[BehaviourRole(args)])]);
      CountOptimizerAppend(refPart + [ForwardOnly("", weights[BehaviourRole(args)])], [ComputeAdvantages]);
    }
  }

  /** The optimiser runs exactly once per call of `train`, and never under debug-rollout-only. */
  lemma OptimizerRunsOnce<V>(args: Args, weights: map<string, map<string, V>>, live: map<string, V>,
                             rolloutId: int, hasPostprocess: bool)
    requires args.debugRolloutOnly || RolesPresent(args, weights)
    ensures CountOptimizer(TrainEvents(args, weights, live, rolloutId, hasPostprocess))
            == (if args.debugRolloutOnly then 0 else 1)
  {
    if !args.debugRolloutOnly {
      var wake: seq<Event<V>> := if args.offload then [AllocatorWake(["model"])] else [];
      var post: seq<Event<V>> := if hasPostprocess then [Postprocess] else [];
      var tail: seq<Event<V>> := [LogRolloutData(rolloutId), OptimizerTrain(rolloutId, AfterLogProbs(args, weights, live))];
      var lp := LogProbEvents(args, weights);
      LogProbEventsNoOptimizer(args, weights);
      CountOptimizerAppend(wake, [FetchRolloutData(rolloutId)]);
      CountOptimizerAppend(wake + [FetchRolloutData(rolloutId)], lp);
      CountOptimizerAppend(wake + [FetchRolloutData(rolloutId)] + lp, post);
      CountOptimizerAppend(wake + [FetchRolloutData(rolloutId)] + lp + post, tail);
      CountOptimizerAppend([LogRolloutData(rolloutId)], [OptimizerTrain(rolloutId, AfterLogProbs(args, weights, live))]);
    } else {
      var fetch: seq<Event<V>> := [FetchRolloutData(rolloutId)];
      CountOptimizerAppend(fetch, [LogRolloutData(rolloutId)]);
    }
  }

  /**
   * Under debug-rollout-only, `train` fetches and logs the rollout data and
   * does nothing else: no wake-up, no forward pass, no advantages, no
   * optimiser step, and the live model is untouched.
   */
  lemma DebugRolloutOnlyTrain<V>(args: Args, weights: map<string, map<string, V>>, live: map<string, V>,
                                 rolloutId: int, hasPostprocess: bool, step: (int, map<string, V>, string) -> V)
    requires args.debugRolloutOnly
    ensures TrainEvents(args, weights, live, rolloutId, hasPostprocess)
            == [FetchRolloutData(rolloutId), LogRolloutData(rolloutId)]
    ensures forall e :: e in TrainEvents(args, weights, live, rolloutId, hasPostprocess) ==>
              !e.AllocatorWake? && !e.ForwardOnly? && !e.ComputeAdvantages? && !e.OptimizerTrain?
    ensures TrainedModel(args, weights, live, rolloutId, step) == live
  {
  }

  /** Without advantage computation `train` runs no forward pass and trains the live model as it is. */
  lemma NoAdvantagesNoForward<V>(args: Args, weights: map<string, map<string, V>>, live: map<string, V>,
                                 rolloutId: int, hasPostprocess: bool)
    requires !args.debugRolloutOnly && !args.computeAdvantagesAndReturns && RolesPresent(args, weights)
    ensures forall e :: e in TrainEvents(args, weights, live, rolloutId, hasPostprocess) ==>
              !e.ForwardOnly? && !e.ComputeAdvantages?
    ensures OptimizerTrain(rolloutId, live) in TrainEvents(args, weights, live, rolloutId, hasPostprocess)
  {
  }

  /**
   * The order of one `train` call's events with advantage computation:
   * the `""` pass at `j` runs on the behaviour role's snapshot and is the
   * last forward pass; the `"ref_"` pass, on the `"ref"` snapshot, comes
   * right before it when that snapshot exists, and otherwise there is no
   * other forward pass; advantages come at `k` after both passes, and the
   * optimiser step at `o` after the advantages.
   */
  ghost predicate PassesOrdered<V>(ev: seq<Event<V>>, args: Args, weights: map<string, map<string, V>>, j: int, k: int, o: int)
    requires RolesPresent(args, weights)
  {
    && 0 <= j < k < o < |ev|
    && ev[j] == ForwardOnly("", weights[BehaviourRole(args)])
    && ev[k] == ComputeAdvantages
    && ev[o].OptimizerTrain?
    && (forall i :: 0 <= i < |ev| && ev[i].ForwardOnly? ==> i <= j)
    && ("ref" in weights ==> 0 < j && ev[j - 1] == ForwardOnly("ref_", weights["ref"]))
    && ("ref" !in weights ==> forall i :: 0 <= i < |ev| && ev[i].ForwardOnly? ==> i == j)
  }

  /**
   * With advantage computation the `"ref_"` pass runs exactly when `"ref"`
   * has a snapshot and before the `""` pass, which runs on the behaviour
   * role's snapshot; advantages follow both passes, the optimiser step
   * follows the advantages.
   */
  lemma LogProbOrder<V>(args: Args, weights: map<string, map<string, V>>, live: map<string, V>,
                        rolloutId: int, hasPostprocess: bool)
    requires !args.debugRolloutOnly && args.computeAdvantagesAndReturns && RolesPresent(args, weights)
    ensures exists j, k, o :: PassesOrdered(TrainEvents(args, weights, live, rolloutId, hasPostprocess), args, weights, j, k, o)
  {
    var ev := TrainEvents(args, weights, live, rolloutId, hasPostprocess);
    var w := if args.offload then 1 else 0;
    var r := if "ref" in weights then 1 else 0;
    var p := if hasPostprocess then 1 else 0;
    var j := w + 1 + r;
    var k := j + 1;
    var o := k + p + 2;
    assert |ev| == o + 1;
    assert ev[j] == ForwardOnly("", weights[BehaviourRole(args)]);
    assert ev[k] == ComputeAdvantages;
    assert ev[o].OptimizerTrain?;
    assert forall i :: 0 <= i < |ev| && ev[i].ForwardOnly? ==> w + 1 <= i <= j;
    if "ref" in weights {
      assert ev[w + 1] == ForwardOnly("ref_", weights["ref"]);
    } else {
      assert forall i :: 0 <= i < j ==> !ev[i].ForwardOnly?;
    }
    assert PassesOrdered(ev, args, weights, j, k, o);
  }

  /**
   * After the log-prob phase the live model is the `"actor"` snapshot:
   * either the `""` pass loaded it, or the explicit restore ran because an
   * `"old_actor"` snapshot exists.
   */
  lemma LogProbPhaseEndsOnActor<V>(args: Args, weights: map<string, map<string, V>>, live: map<string, V>)
    requires args.computeAdvantagesAndReturns && RolesPresent(args, weights)
    ensures AfterLogProbs(args, weights, live) == weights["actor"]
  {
  }

  /**
   * When the `"actor"` snapshot is the live model, a training step continues
   * from the live model whatever the configuration.
   */
  lemma CurrentSnapshotTrainsLive<V>(args: Args, weights: map<string, map<string, V>>, live: map<string, V>,
                                     rolloutId: int, step: (int, map<string, V>, string) -> V)
    requires !args.debugRolloutOnly && RolesPresent(args, weights) && weights["actor"] == live
    ensures TrainedModel(args, weights, live, rolloutId, step) == Step(step, rolloutId, live)
  {
  }

  function AddOne(rolloutId: int, live: map<string, int>, n: string): int {
    if n in live then live[n] + 1 else 0
  }

  /**
   * As written, without offload nothing refreshes the `"actor"` snapshot
   * after `init`, so with advantage computation every `train` call restarts
   * from it: two steps of "add one" to a parameter at 0 leave it at 1, not 2.
   */
  lemma TrainingProgressLostWithoutOffload()
    ensures var args := Args(false, false, false, false, true, false, None, None, false, false, false, None);
      var weights := map["actor" := map["w" := 0]];
      var live1 := TrainedModel(args, weights, map["w" := 0], 1, AddOne);
      var live2 := TrainedModel(args, weights, live1, 2, AddOne);
      live1 == map["w" := 1] && live2 == map["w" := 1] && live2 != Step(AddOne, 2, live1)
  {
    var live1: map<string, int> := map["w" := 1];
    assert Step(AddOne, 2, live1)["w"] == 2;
  }

  lemma AppendFive<T>(t: seq<T>, a: seq<T>, b: seq<T>, c: seq<T>, d: seq<T>, e: seq<T>)
    ensures t + a + b + c + d + e == t + (a + b + c + d + e)
  {
  }

  // ---- the actor

  class MegatronTrainActor<V> {
    var args: Args
    /** The model, optimiser and updater exist: `init` ran outside debug-rollout-only. */
    var ready: bool
    /** The order `named_parameters` yields the parameters in. */
    var names: seq<string>
    /** The live parameters on the device. */
    var model: map<string, V>
    /** `self.weights`: the host snapshot of each role. */
    var weights: map<string, map<string, V>>
    var updater: Option<Updater>
    var rolloutEngines: Option<nat>
    /** The path `rollout_data_postprocess` was loaded from. */
    var postprocess: Option<string>
    var trace: seq<Event<V>>

    /** The fields no copy, load or training step changes. */
    ghost function Setup(): (Args, bool, seq<string>, Option<Updater>, Option<nat>, Option<string>)
      reads this
    {
      (args, ready, names, updater, rolloutEngines, postprocess)
    }

    /** The model exists and the live model and every snapshot hold exactly the parameter names. */
    ghost predicate Shaped()
      reads this
    {
      && ready
      && model.Keys == NameSet(names)
      && (forall t :: t in weights ==> weights[t].Keys == NameSet(names))
    }

    ghost predicate Valid()
      reads this
    {
      && (ready <==> !args.debugRolloutOnly)
      && (ready ==> Shaped() && RolesPresent(args, weights) && updater.Some?)
    }

    /** `TrainRayActor`'s constructor keeps `args`; nothing is built yet. */
    constructor(args: Args)
      ensures this.args == args && !ready && names == [] && model == map[] && weights == map[]
      ensures updater == None && rolloutEngines == None && postprocess == None && trace == []
    {
      this.args := args;
      ready := false;
      names := [];
      model := map[];
      weights := map[];
      updater := None;
      rolloutEngines := None;
      postprocess := None;
      trace := [];
    }

    /** `update_cpu_params_dict(self.weights[tag])`. */
    method UpdateCpuParamsDict(tag: string)
      requires tag in weights && forall k :: 0 <= k < |names| ==> names[k] in model
      modifies this
      ensures model == old(model) && trace == old(trace) && Setup() == old(Setup())
      ensures weights == old(weights)[tag := CopyNames(old(weights[tag]), model, names)]
    {
      var i := 0;
      while i < |names|
        invariant 0 <= i <= |names|
        invariant model == old(model) && trace == old(trace) && Setup() == old(Setup())
        invariant weights == old(weights)[tag := CopyNames(old(weights[tag]), model, names[..i])]
      {
        var name := names[i];
        assert names[..i + 1][..i] == names[..i];
        // an absent name gets a new host entry; either way it then holds the live value
        weights := weights[tag := weights[tag][name := model[name]]];
        i := i + 1;
      }
      assert names[..|names|] == names;
    }

    /** `update_gpu_params_dict(self.weights[tag])`; the assert demands every parameter name in the dict. */
    method UpdateGpuParamsDict(tag: string)
      requires tag in weights && forall k :: 0 <= k < |names| ==> names[k] in weights[tag]
      modifies this
      ensures weights == old(weights) && trace == old(trace) && Setup() == old(Setup())
      ensures model == CopyNames(old(model), weights[tag], names)
    {
      var i := 0;
      while i < |names|
        invariant 0 <= i <= |names|
        invariant weights == old(weights) && trace == old(trace) && Setup() == old(Setup())
        invariant model == CopyNames(old(model), weights[tag], names[..i])
      {
        assert names[..i + 1][..i] == names[..i];
        model := model[names[i] := weights[tag][names[i]]];
        i := i + 1;
      }
      assert names[..|names|] == names;
    }

    /** A snapshot into a role's dict and a restore from it leave the live model and every other role as they were. */
    method SnapshotAndRestore(tag: string)
      requires Shaped() && tag in weights
      modifies this
      ensures model == old(model) && weights == old(weights)[tag := model]
      ensures Shaped() && trace == old(trace) && Setup() == old(Setup())
    {
      UpdateCpuParamsDict(tag);
      CopyCovers(old(weights[tag]), model, names);
      CopyNamesMeaning(old(weights[tag]), model, names);
      UpdateGpuParamsDict(tag);
      CpuGpuRoundTrip(old(weights[tag]), old(model), names);
    }

    /** `sleep`: refresh the `"actor"` snapshot from the live model, then offload. */
    method Sleep(tags: Tags)
      requires args.offload && NamesModel(tags)
      requires Shaped() && "actor" in weights
      modifies this
      ensures weights == old(weights)["actor" := model] && model == old(model)
      ensures trace == old(trace) + [AllocatorSleep(Normalize(tags))]
      ensures Shaped() && Setup() == old(Setup())
    {
      UpdateCpuParamsDict("actor");
      CopyCovers(old(weights["actor"]), model, names);
      trace := trace + [AllocatorSleep(Normalize(tags))];
    }

    /** `wake_up`: bring the offloaded allocations back; the values are those offloaded. */
    method WakeUp(tags: Tags)
      requires args.offload
      modifies this
      ensures trace == old(trace) + [AllocatorWake(Normalize(tags))]
      ensures model == old(model) && weights == old(weights) && Setup() == old(Setup())
    {
      trace := trace + [AllocatorWake(Normalize(tags))];
    }

    /** `compute_log_prob`: load the role's snapshot into the live model and run the forward pass on it. */
    method ComputeLogProb(tag: string, prefix: string)
      requires Shaped() && tag in weights
      modifies this
      ensures weights == old(weights) && model == weights[tag]
      ensures trace == old(trace) + [ForwardOnly(prefix, weights[tag])]
      ensures Shaped() && Setup() == old(Setup())
    {
      UpdateGpuParamsDict(tag);
      CopyCovers(old(model), weights[tag], names);
      trace := trace + [ForwardOnly(prefix, model)];
    }

    /** The reference pass of the log-prob phase: load the `ref` snapshot and run it, when there is one. */
    method RefLogProb()
      requires Valid() && ready
      modifies this
      ensures weights == old(weights) && Setup() == old(Setup()) && Valid()
      ensures trace == old(trace) + (if "ref" in weights then [ForwardOnly("ref_", weights["ref"])] else [])
      ensures model == (if "ref" in weights then weights["ref"] else old(model))
    {
      if "ref" in weights {
        UpdateGpuParamsDict("ref");
        CopyCovers(old(model), weights["ref"], names);
        ComputeLogProb("ref", "ref_");
      }
    }

    /** After the behaviour pass from `old_actor`, the live model goes back to the `actor` snapshot. */
    method RestoreActor()
      requires Valid() && ready && model == weights[BehaviourRole(args)]
      modifies this
      ensures weights == old(weights) && trace == old(trace) && Setup() == old(Setup()) && Valid()
      ensures model == (if "old_actor" in weights then weights["actor"] else old(model))
    {
      if "old_actor" in weights {
        UpdateGpuParamsDict("actor");
        CopyCovers(weights[BehaviourRole(args)], weights["actor"], names);
      }
    }

    /** The log-prob phase of `train`: the two forward passes, the restore of the actor, the advantages. */
    method LogProbPhase()
      requires Valid() && ready
      modifies this
      ensures weights == old(weights) && Setup() == old(Setup()) && Valid()
      ensures trace == old(trace) + LogProbEvents(args, weights)
      ensures model == AfterLogProbs(args, weights, old(model))
    {
      if !args.computeAdvantagesAndReturns {
        return;
      }
      RefLogProb();
      ComputeLogProb(BehaviourRole(args), "");
      RestoreActor();
      trace := trace + [ComputeAdvantages];
    }

    /** The start of a non-debug `train`: wake the model under offload, then fetch the rollout data. */
    method FetchPhase(rolloutId: int)
      requires Valid() && ready
      modifies this
      ensures weights == old(weights) && model == old(model) && Setup() == old(Setup()) && Valid()
      ensures trace == old(trace) + (if args.offload then [AllocatorWake(["model"])] else []) + [FetchRolloutData(rolloutId)]
    {
      if args.offload {
        WakeUp(TagStr("model"));
      }
      trace := trace + [FetchRolloutData(rolloutId)];
    }

    /** The end of a non-debug `train`: the post-processing hook, the rollout log, and the optimiser step. */
    method OptimizerPhase(rolloutId: int, step: (int, map<string, V>, string) -> V)
      requires Valid() && ready
      modifies this
      ensures weights == old(weights) && Setup() == old(Setup()) && Valid()
      ensures trace == old(trace) + (if postprocess.Some? then [Postprocess] else [])
                       + [LogRolloutData(rolloutId), OptimizerTrain(rolloutId, old(model))]
      ensures model == Step(step, rolloutId, old(model))
    {
      var post: seq<Event<V>> := if postprocess.Some? then [Postprocess] else [];
      trace := trace + post + [LogRolloutData(rolloutId), OptimizerTrain(rolloutId, model)];
      model := Step(step, rolloutId, model);
    }

    /** `train`: one training step on the rollout with id `rolloutId`; `step` is the optimiser. */
    method Train(rolloutId: int, step: (int, map<string, V>, string) -> V)
      requires Valid()
      modifies this
      ensures weights == old(weights) && Setup() == old(Setup()) && Valid()
      ensures trace == old(trace) + TrainEvents(args, weights, old(model), rolloutId, postprocess.Some?)
      ensures model == TrainedModel(args, weights, old(model), rolloutId, step)
    {
      if args.debugRolloutOnly {
        trace := trace + [FetchRolloutData(rolloutId), LogRolloutData(rolloutId)];
        return;
      }
      ghost var t0 := trace;
      FetchPhase(rolloutId);
      LogProbPhase();
      OptimizerPhase(rolloutId, step);
      AppendFive(t0, if args.offload then [AllocatorWake(["model"])] else [], [FetchRolloutData(rolloutId)],
                 LogProbEvents(args, weights), if postprocess.Some? then [Postprocess] else [],
                 [LogRolloutData(rolloutId), OptimizerTrain(rolloutId, AfterLogProbs(args, weights, old(model)))]);
    }

    /**
     * `train` followed by a refresh of the `"actor"` snapshot from the trained
     * model, which `train` as written leaves to `sleep` and so, without
     * offload, never does: the snapshot then holds the trained model, and a
     * step that starts from a current snapshot continues from the live model.
     */
    method TrainKeepingSnapshot(rolloutId: int, step: (int, map<string, V>, string) -> V)
      requires Valid()
      modifies this
      ensures Setup() == old(Setup()) && Valid()
      ensures trace == old(trace) + TrainEvents(args, old(weights), old(model), rolloutId, postprocess.Some?)
      ensures model == TrainedModel(args, old(weights), old(model), rolloutId, step)
      ensures ready ==> weights == old(weights)["actor" := model]
      ensures !ready ==> weights == old(weights)
      ensures ready && old(weights)["actor"] == old(model) ==> model == Step(step, rolloutId, old(model))
    {
      if ready && weights["actor"] == model {
        CurrentSnapshotTrainsLive(args, weights, model, rolloutId, step);
      }
      Train(rolloutId, step);
      if ready {
        UpdateCpuParamsDict("actor");
        CopyCovers(old(weights["actor"]), model, names);
      }
    }

    /** `eval`: log the evaluation data unless debug-train-only. */
    method Eval(rolloutId: int)
      modifies this
      ensures trace == old(trace) + (if args.debugTrainOnly then [] else [LogEval(rolloutId)])
      ensures model == old(model) && weights == old(weights) && Setup() == old(Setup())
    {
      if args.debugTrainOnly {
        return;
      }
      trace := trace + [LogEval(rolloutId)];
    }

    /** `save_model`: nothing under debug-rollout-only, otherwise a checkpoint with or without optimiser state. */
    method SaveModel(iteration: int, withOptimizer: bool)
      modifies this
      ensures trace == old(trace) + (if args.debugRolloutOnly then [] else [Save(iteration, withOptimizer)])
      ensures model == old(model) && weights == old(weights) && Setup() == old(Setup())
    {
      if args.debugRolloutOnly {
        return;
      }
      trace := trace + [Save(iteration, withOptimizer)];
    }

    /** `connect_rollout_engines`: the engines are always kept; the updater connects only outside the debug modes. */
    method ConnectRolloutEngines(engines: nat)
      requires Valid()
      modifies this
      ensures rolloutEngines == Some(engines)
      ensures trace == old(trace) + (if args.debugTrainOnly || args.debugRolloutOnly then [] else [ConnectEngines(engines)])
      ensures args == old(args) && ready == old(ready) && names == old(names) && updater == old(updater)
      ensures postprocess == old(postprocess) && model == old(model) && weights == old(weights) && Valid()
    {
      rolloutEngines := Some(engines);
      if args.debugTrainOnly || args.debugRolloutOnly {
        return;
      }
      trace := trace + [ConnectEngines(engines)];
    }

    /**
     * `update_weights`: outside the debug modes push the weights to the
     * rollout engines, then with `keep_old_actor` copy the live model into
     * the `"old_actor"` snapshot.
     */
    method UpdateWeights()
      requires Valid()
      modifies this
      ensures args.debugTrainOnly || args.debugRolloutOnly ==> trace == old(trace) && weights == old(weights)
      ensures !(args.debugTrainOnly || args.debugRolloutOnly) ==>
        && trace == old(trace) + [PushWeights]
        && weights == (if args.keepOldActor then old(weights)["old_actor" := model] else old(weights))
      ensures model == old(model) && Setup() == old(Setup()) && Valid()
    {
      if args.debugTrainOnly || args.debugRolloutOnly {
        return;
      }
      trace := trace + [PushWeights];
      if args.keepOldActor {
        UpdateCpuParamsDict("old_actor");
        CopyCovers(old(weights["old_actor"]), model, names);
      }
    }

    /**
     * The load inside `load_other_checkpoint`: with `load` pointed at `path`
     * and optimiser, RNG and fine-tune loading overridden, load the
     * checkpoint into the live model, then put the four `args` fields back.
     * `checkpoint(p, n)` is the value of parameter `n` in the checkpoint at `p`.
     */
    method LoadWithOverrides(path: Option<string>, checkpoint: (Option<string>, string) -> V)
      requires Shaped()
      modifies this
      ensures Setup() == old(Setup()) && weights == old(weights)
      ensures trace == old(trace) + [LoadCheckpoint(path, true, true, true)]
      ensures model == CheckpointModel(names, checkpoint, path)
    {
      var saved := (args.load, args.noLoadOptim, args.noLoadRng, args.finetune);
      args := args.(load := path, noLoadOptim := true, noLoadRng := true, finetune := true);
      trace := trace + [LoadCheckpoint(args.load, args.noLoadOptim, args.noLoadRng, args.finetune)];
      model := CheckpointModel(names, checkpoint, args.load);
      args := args.(load := saved.0, noLoadOptim := saved.1, noLoadRng := saved.2, finetune := saved.3);
    }

    /**
     * `load_other_checkpoint`: load the checkpoint at `path` into the live
     * model and snapshot it as `tag` in a new dict. The live model is left
     * holding the loaded checkpoint.
     */
    method LoadOtherCheckpoint(tag: string, path: Option<string>, checkpoint: (Option<string>, string) -> V)
      requires Shaped()
      modifies this
      ensures Setup() == old(Setup())
      ensures trace == old(trace) + [LoadCheckpoint(path, true, true, true)]
      ensures model == CheckpointModel(names, checkpoint, path)
      ensures weights == old(weights)[tag := model]
      ensures Shaped()
    {
      LoadWithOverrides(path, checkpoint);
      weights := weights[tag := map[]];
      UpdateCpuParamsDict(tag);
      CopyCovers(map[], model, names);
    }

    /** The model `initialize_model_and_optimizer` builds, snapshotted as `"actor"`. */
    method BuildModel(names: seq<string>, initial: string -> V)
      modifies this
      ensures args == old(args) && updater == old(updater) && rolloutEngines == old(rolloutEngines)
      ensures postprocess == old(postprocess) && trace == old(trace)
      ensures ready && this.names == names && model == ModelOf(names, initial)
      ensures weights == map["actor" := model] && Shaped()
    {
      this.names := names;
      model := ModelOf(names, initial);
      ready := true;
      weights := map["actor" := map[]];
      UpdateCpuParamsDict("actor");
      CopyCovers(map[], model, names);
    }

    /** The `"ref"` snapshot when `withRef`, then the `"old_actor"` snapshot when it is kept. */
    method LoadRoles(withRef: bool, checkpoint: (Option<string>, string) -> V)
      requires Shaped() && weights.Keys == {"actor"}
      modifies this
      ensures Setup() == old(Setup()) && Shaped()
      ensures weights.Keys == {"actor"} + (if withRef then {"ref"} else {}) + (if args.keepOldActor then {"old_actor"} else {})
      ensures weights["actor"] == old(weights["actor"])
      ensures withRef ==> weights["ref"] == CheckpointModel(names, checkpoint, args.refLoad)
      ensures args.keepOldActor ==> weights["old_actor"] == CheckpointModel(names, checkpoint, args.load)
      ensures model == (if args.keepOldActor then weights["old_actor"] else if withRef then weights["ref"] else old(model))
      ensures trace == old(trace)
                       + (if withRef then [LoadCheckpoint(args.refLoad, true, true, true)] else [])
                       + (if args.keepOldActor then [LoadCheckpoint(args.load, true, true, true)] else [])
    {
      if withRef {
        LoadOtherCheckpoint("ref", args.refLoad, checkpoint);
      }
      if args.keepOldActor {
        LoadOtherCheckpoint("old_actor", args.load, checkpoint);
      }
    }

    /** The end of `init` under offload: put the actor back into the live model, then sleep. */
    method RestoreActorAndSleep()
      requires args.offload && Shaped() && "actor" in weights
      modifies this
      ensures Setup() == old(Setup()) && Shaped()
      ensures weights == old(weights) && model == weights["actor"]
      ensures trace == old(trace) + [AllocatorSleep(["model"])]
    {
      ghost var loaded := model;
      UpdateGpuParamsDict("actor");
      CopyCovers(loaded, weights["actor"], names);
      assert NamesModel(TagStr("model")) by {
        assert OccursAt("model", "model", 0);
      }
      Sleep(TagStr("model"));
    }

    /**
     * `init`: outside debug-rollout-only, build the model (`initial` gives
     * the parameter values `initialize_model_and_optimizer` loads, `names`
     * their order), snapshot it as `"actor"`, load the `"ref"` and
     * `"old_actor"` snapshots, and only under offload put the actor back
     * into the live model and sleep. Returns the first rollout id to run.
     */
    method Init(withRef: bool, names: seq<string>, initial: string -> V, loadedRolloutId: int,
                checkpoint: (Option<string>, string) -> V) returns (startRolloutId: int)
      requires !ready && updater == None
      modifies this
      ensures args == old(args) && Valid()
      ensures args.debugRolloutOnly ==> rolloutEngines == old(rolloutEngines)
      ensures !args.debugRolloutOnly ==> rolloutEngines == None
      ensures args.debugRolloutOnly ==>
        && startRolloutId == 0 && model == old(model) && weights == old(weights) && trace == old(trace)
        && this.names == old(this.names) && updater == old(updater) && postprocess == old(postprocess)
      ensures !args.debugRolloutOnly ==>
        && startRolloutId == loadedRolloutId + 1
        && this.names == names
        && weights.Keys == {"actor"} + (if withRef then {"ref"} else {}) + (if args.keepOldActor then {"old_actor"} else {})
        && weights["actor"] == ModelOf(names, initial)
        && (withRef ==> weights["ref"] == CheckpointModel(names, checkpoint, args.refLoad))
        && (args.keepOldActor ==> weights["old_actor"] == CheckpointModel(names, checkpoint, args.load))
        && model == (if args.offload || (!withRef && !args.keepOldActor) then weights["actor"]
                     else if args.keepOldActor then weights["old_actor"] else weights["ref"])
        && trace == old(trace)
                    + (if withRef then [LoadCheckpoint(args.refLoad, true, true, true)] else [])
                    + (if args.keepOldActor then [LoadCheckpoint(args.load, true, true, true)] else [])
                    + (if args.offload then [AllocatorSleep(["model"])] else [])
        && updater == Some(if args.colocate then FromTensor else FromDistributed)
        && postprocess == args.rolloutDataPostprocessPath
    {
      if args.debugRolloutOnly {
        return 0;
      }
      BuildModel(names, initial);
      startRolloutId := loadedRolloutId + 1;
      LoadRoles(withRef, checkpoint);
      if args.offload {
        RestoreActorAndSleep();
      }
      updater := Some(if args.colocate then FromTensor else FromDistributed);
      rolloutEngines := None;
      postprocess := args.rolloutDataPostprocessPath;
    }
  }
}
