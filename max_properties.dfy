/** Properties of the HTTP bridge that relate several routes, several
    environments, or a route and a reference definition. */
module MaxProperties {
  import opened Wrappers
  import opened PyPath
  import opened Tensors
  import opened OrderedKeys
  import opened MaxProtocol

  /** Sum and arithmetic mean of measured latencies: the reference for
      `avg_inference_time_ms`. */
  function Sum(xs: seq<real>): real {
    if xs == [] then 0.0 else Sum(xs[..|xs| - 1]) + xs[|xs| - 1]
  }

  function Mean(xs: seq<real>): real {
    if xs == [] then 0.0 else Sum(xs) / (|xs| as real)
  }

  /** The running-mean update extends the mean of n - 1 values to the mean
      of n values. */
  lemma RunningMeanExtends(xs: seq<real>, t: real)
    ensures RunningMean(Mean(xs), |xs| + 1, t) == Mean(xs + [t])
  {
    var ys := xs + [t];
    assert ys[..|ys| - 1] == xs;
    assert Sum(ys) == Sum(xs) + t;
    var n := |xs| as real;
    if xs != [] {
      assert Mean(xs) * n == Sum(xs);
    }
  }

  /** The update moves the average a 1/n part of the way towards the new
      latency, so it stays between the old average and that latency. */
  lemma RunningMeanMovesTowardLatest(avg: real, n: nat, t: real)
    requires n >= 1
    ensures RunningMean(avg, n, t) - avg == (t - avg) / (n as real)
    ensures avg <= t ==> avg <= RunningMean(avg, n, t) <= t
    ensures t <= avg ==> t <= RunningMean(avg, n, t) <= avg
  {
    var m := RunningMean(avg, n, t);
    var k := n as real;
    assert m * k == avg * (k - 1.0) + t;
    assert (m - avg) * k == t - avg;
  }

  /** The stats record tracks the mean of `latencies`: one inference counted
      per latency, and the average is their mean. */
  ghost predicate TracksMean(st: Stats, latencies: seq<real>) {
    st.inferences == |latencies| && st.avgMs == Mean(latencies)
  }

  /** While every counted inference was a successful one, a successful
      `/predict` with latency `t` keeps the average equal to the true
      mean. */
  lemma SuccessfulPredictKeepsMean(s: Server, body: Body<PredictRequest>, env: Env, t: real, latencies: seq<real>)
    requires TracksMean(s.stats, latencies)
    ensures var r := PredictRoute(s, body, env, t);
      r.reply.Code() == 200 ==> TracksMean(r.server.stats, latencies + [t])
  {
    RunningMeanExtends(latencies, t);
  }

  /** The counter is bumped before validation, so a rejected request still
      counts as an inference: after one request rejected with 400 and one
      successful request taking 10 ms, the reported average is 5 ms although
      the only measured latency is 10 ms. */
  lemma RejectedPredictDilutesMean(s: Server, id: string, input: InputValue, env: Env)
    requires s.stats == InitialStats && Given(Some(id)) && id in s.models
    requires Infer(s.models, id, FromJson(input), env).Returned?
    ensures var r1 := PredictRoute(s, Json(PredictRequest(Some(id), None)), env, 0.0);
      var r2 := PredictRoute(r1.server, Json(PredictRequest(Some(id), Some(input))), env, 10.0);
      && r1.reply == Failed(400, "input_data required")
      && r2.reply.Code() == 200
      && r2.server.stats.avgMs == 5.0
      && Mean([10.0]) == 10.0
  {
    assert [10.0][..0] == [];
  }

  /** `/load` on an id already present answers with the recorded backend,
      whatever the file system and the engines would do, and changes only
      the request counter. */
  lemma AlreadyLoadedShortCircuits(s: Server, avail: Availability, req: LoadRequest, env1: Env, env2: Env)
    requires Given(req.modelPath)
    requires IdOrBasename(req.modelId, req.modelPath).Returned?
    requires IdOrBasename(req.modelId, req.modelPath).value in s.models
    ensures var id := IdOrBasename(req.modelId, req.modelPath).value;
      && LoadRoute(s, avail, Json(req), env1) == LoadRoute(s, avail, Json(req), env2)
      && LoadRoute(s, avail, Json(req), env1)
         == Routed(Counted(s), Loaded("Model " + id + " already loaded", id, s.models[id].backend))
  {
  }

  /** `/load` on a new id whose file is missing answers 404 and changes only
      the request counter. */
  lemma MissingFileIsNotFound(s: Server, avail: Availability, req: LoadRequest, env: Env)
    requires Given(req.modelPath) && !env.fileExists(req.modelPath.value)
    requires IdOrBasename(req.modelId, req.modelPath).Returned?
    requires IdOrBasename(req.modelId, req.modelPath).value !in s.models
    ensures LoadRoute(s, avail, Json(req), env)
      == Routed(Counted(s), Failed(404, "Model file not found: " + req.modelPath.value))
  {
  }

  /** The id is derived before the path is checked: with neither an id nor a
      path, `basename(None)` raises and the request is counted as an error
      (500); with an id and no path, or an empty path, it is a 400. */
  lemma MissingPathOutcomes(s: Server, avail: Availability, modelId: Option<string>, backend: Option<string>, env: Env)
    ensures !Given(modelId) ==>
      LoadRoute(s, avail, Json(LoadRequest(None, modelId, backend)), env) == Fail500(Counted(s), PathTypeError)
    ensures Given(modelId) ==>
      LoadRoute(s, avail, Json(LoadRequest(None, modelId, backend)), env) == Routed(Counted(s), Failed(400, "model_path required"))
    ensures LoadRoute(s, avail, Json(LoadRequest(Some(""), modelId, backend)), env)
      == Routed(Counted(s), Failed(400, "model_path required"))
  {
  }

  /** Two environments that agree on everything except the MAX Engine. */
  ghost predicate SameButMax(env1: Env, env2: Env) {
    env1.(sessionStarts := env2.sessionStarts, maxLoad := env2.maxLoad, maxExecute := env2.maxExecute) == env2
  }

  /** When the plan is ONNX Runtime alone, MAX Engine is never consulted: no
      session is created and the outcome does not depend on it. */
  lemma OnnxOnlyIgnoresMax(s: Server, avail: Availability, prefer: string, path: string, id: string, env1: Env, env2: Env)
    requires id !in s.models && SameButMax(env1, env2)
    requires !(prefer == "max" || (prefer == "auto" && avail.max))
    ensures LoadWith(s, avail, prefer, path, id, env1) == LoadWith(s, avail, prefer, path, id, env2)
    ensures LoadWith(s, avail, prefer, path, id, env1).0.session == s.session
    ensures LoadWith(s, avail, prefer, path, id, env1).1.Returned? ==> LoadWith(s, avail, prefer, path, id, env1).1.value == Onnx
  {
  }

  /** A MAX failure under "auto" with ONNX Runtime installed falls back to
      it; the session created on the way stays cached. */
  lemma MaxFailureFallsBack(s: Server, avail: Availability, path: string, id: string, env: Env)
    requires id !in s.models && avail.max && avail.onnx
    requires LoadMax(s, avail, path, id, env).1.Raised?
    ensures var session := GetSession(avail, s.session, env.sessionStarts);
      LoadWith(s, avail, "auto", path, id, env) == LoadOnnx(s.(session := session), avail, path, id, env)
  {
  }

  /** Otherwise a MAX failure is the route's error: a 500 with the MAX
      message, counted once, and no model recorded. */
  lemma MaxFailureWithoutFallbackFails(s: Server, avail: Availability, req: LoadRequest, env: Env)
    requires Given(req.modelPath) && env.fileExists(req.modelPath.value)
    requires IdOrBasename(req.modelId, req.modelPath).Returned?
    requires IdOrBasename(req.modelId, req.modelPath).value !in s.models
    requires SelectPlan(req.backend.GetOr("auto"), avail) == MaxFirst(false)
    requires LoadMax(Counted(s), avail, req.modelPath.value, IdOrBasename(req.modelId, req.modelPath).value, env).1.Raised?
    ensures var lm := LoadMax(Counted(s), avail, req.modelPath.value, IdOrBasename(req.modelId, req.modelPath).value, env);
      var r := LoadRoute(s, avail, Json(req), env);
      && r.reply == Failed(500, lm.1.message)
      && r.server.models == s.models && r.server.stats.errors == s.stats.errors + 1
  {
  }

  /** Asking for MAX Engine when it did not import fails with the session
      message. */
  lemma PreferMaxWithoutEngine(s: Server, avail: Availability, req: LoadRequest, env: Env)
    requires Valid(s, avail) && !avail.max && req.backend == Some("max")
    requires Given(req.modelPath) && env.fileExists(req.modelPath.value)
    requires IdOrBasename(req.modelId, req.modelPath).Returned?
    requires IdOrBasename(req.modelId, req.modelPath).value !in s.models
    ensures LoadRoute(s, avail, Json(req), env) == Fail500(Counted(s), NoSession)
  {
  }

  /** Once a session is cached it is returned as it is, whatever session
      creation would do now. */
  lemma SessionIsCreatedOnce(avail: Availability, cached: Option<Session>, starts1: Device -> bool, starts2: Device -> bool)
    requires GetSession(avail, cached, starts1).Some?
    ensures GetSession(avail, GetSession(avail, cached, starts1), starts2) == GetSession(avail, cached, starts1)
  {
  }

  /** Every route keeps the state invariant. */
  lemma RoutesKeepValid(s: Server, avail: Availability, env: Env, latency: real,
                        load: Body<LoadRequest>, predict: Body<PredictRequest>,
                        unload: Body<UnloadRequest>, batch: Body<BatchRequest>)
    requires Valid(s, avail)
    ensures Valid(LoadRoute(s, avail, load, env).server, avail)
    ensures Valid(PredictRoute(s, predict, env, latency).server, avail)
    ensures Valid(UnloadRoute(s, unload).server, avail)
    ensures Valid(BatchRoute(s, batch, env, latency).server, avail)
    ensures Valid(StatusRoute(s, avail).server, avail)
  {
    LoadKeepsValid(s, avail, load, env);
  }

  /** A model that loaded is listed by `/status` under the backend `/load`
      reported and the path it was recorded with; when it was loaded by this
      request, that is the requested path. */
  lemma LoadedModelIsListed(s: Server, avail: Availability, req: LoadRequest, env: Env)
    requires Valid(s, avail)
    ensures var r := LoadRoute(s, avail, Json(req), env);
      r.reply.Code() == 200 ==>
        var st := StatusRoute(r.server, avail).reply;
        && r.reply.modelId in st.models
        && st.modelInfo[r.reply.modelId] == ModelInfo(r.reply.backend, r.server.models[r.reply.modelId].path)
        && (r.reply.modelId !in s.models ==> st.modelInfo[r.reply.modelId].path == req.modelPath.value)
  {
    LoadKeepsValid(s, avail, Json(req), env);
  }

  /** After `/unload` of an id, `/predict` on it answers 404. */
  lemma UnloadThenPredictIsNotFound(s: Server, id: string, input: InputValue, env: Env, latency: real)
    requires Given(Some(id)) && id in s.models
    ensures var u := UnloadRoute(s, Json(UnloadRequest(Some(id))));
      && u.reply == Unloaded("Model " + id + " unloaded")
      && PredictRoute(u.server, Json(PredictRequest(Some(id), Some(input))), env, latency).reply
         == Failed(404, "Model " + id + " not loaded")
  {
  }

  /** `/health` counts exactly the models `/status` lists. */
  lemma HealthCountsListedModels(s: Server, avail: Availability)
    requires Ordered(s)
    ensures Health(s, avail).modelsLoaded == |StatusRoute(s, avail).reply.models|
  {
    DistinctCard(s.order);
    assert s.models.Keys == set k | k in s.order;
  }
}
