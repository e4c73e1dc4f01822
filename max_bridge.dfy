/** The HTTP inference bridge as the program runs it: `_models`, the cached
    session and `_stats` are fields updated in place by the route handlers.
    Every method is proved to perform the transition that MaxProtocol
    defines. */
module MaxBridge {
  import opened Wrappers
  import opened PyPath
  import opened Tensors
  import opened OrderedKeys
  import MP = MaxProtocol

  class Server {
    /** `ONNX_AVAILABLE` and `MAX_AVAILABLE`, fixed at import. */
    const avail: MP.Availability

    /** `_models` with the insertion order of its keys. */
    var models: map<string, MP.Record>
    var order: seq<string>
    /** `_inference_session`. */
    var session: Option<MP.Session>
    /** `_stats` without its start time. */
    var stats: MP.Stats

    function Contents(): MP.Server
      reads this
    {
      MP.Server(models, order, session, stats)
    }

    ghost predicate Valid()
      reads this
    {
      MP.Valid(Contents(), avail)
    }

    /** The state at import. The process exits there when neither engine
        imported, so a server always has one of them. */
    constructor (maxAvailable: bool, onnxAvailable: bool)
      requires maxAvailable || onnxAvailable
      ensures avail == MP.Availability(maxAvailable, onnxAvailable)
      ensures Valid() && Contents() == MP.Start
    {
      avail := MP.Availability(maxAvailable, onnxAvailable);
      models := map[];
      order := [];
      session := None;
      stats := MP.InitialStats;
    }

    /** `get_inference_session`. */
    method GetInferenceSession(starts: MP.Device -> bool) returns (s: Option<MP.Session>)
      modifies this
      ensures s == session == MP.GetSession(avail, old(session), starts)
      ensures models == old(models) && order == old(order) && stats == old(stats)
    {
      if avail.max && session.None? {
        if starts(MP.Gpu0) {
          session := Some(MP.Session(MP.Gpu0));
        } else if starts(MP.Cpu) {
          session := Some(MP.Session(MP.Cpu));
        } else {
          session := None;
        }
      }
      s := session;
    }

    /** `load_model_max`. */
    method LoadModelMax(path: string, id: string, env: MP.Env) returns (a: Attempt<MP.Backend>)
      requires id !in models
      modifies this
      ensures (Contents(), a) == MP.LoadMax(old(Contents()), avail, path, id, env)
    {
      var s := GetInferenceSession(env.sessionStarts);
      if s.None? {
        return Raised(MP.NoSession);
      }
      var model := env.maxLoad(s.value, path);
      if model.Raised? {
        return Raised(model.message);
      }
      models := models[id := MP.Record(model.value, MP.Max, path)];
      order := order + [id];
      a := Returned(MP.Max);
    }

    /** `load_model_onnx`. */
    method LoadModelOnnx(path: string, id: string, env: MP.Env) returns (a: Attempt<MP.Backend>)
      requires id !in models
      modifies this
      ensures (Contents(), a) == MP.LoadOnnx(old(Contents()), avail, path, id, env)
    {
      if !avail.onnx {
        return Raised(MP.NoOrt);
      }
      var providers := MP.Providers(env.cudaListed);
      var model := env.onnxLoad(path, providers);
      if model.Raised? {
        return Raised(model.message);
      }
      models := models[id := MP.Record(model.value, MP.Onnx, path)];
      order := order + [id];
      a := Returned(MP.Onnx);
    }

    /** The input preparation shared by both inference functions. */
    static method Prepare(arg: MP.ArrayArg) returns (r: Attempt<Shape>)
      ensures r == MP.Prepare(arg)
    {
      var shape: Shape;
      if arg.Stacked? {
        shape := arg.shape;
      } else if arg.value.OtherValue? {
        return Raised("'" + arg.value.typeName + "' object has no attribute 'shape'");
      } else if arg.value.conversion.Refused? {
        return Raised(arg.value.conversion.reason);
      } else {
        shape := arg.value.conversion.shape;
      }
      if |shape| == 1 {
        shape := [1] + shape;
      }
      r := Returned(shape);
    }

    /** `predict_max`: it reads the registry and changes nothing. */
    method PredictMax(id: string, arg: MP.ArrayArg, execute: (MP.LoadedModel, Shape) -> Attempt<MP.Prediction>)
      returns (r: Attempt<MP.Prediction>)
      ensures r == MP.PredictMax(models, id, arg, execute)
    {
      if id !in models {
        return Raised("Model " + id + " not loaded");
      }
      var input := Prepare(arg);
      if input.Raised? {
        return Raised(input.message);
      }
      r := execute(models[id].model, input.value);
    }

    /** `predict_onnx`: it reads the registry and changes nothing. */
    method PredictOnnx(id: string, arg: MP.ArrayArg, run: (MP.LoadedModel, Shape) -> Attempt<seq<Tensor>>)
      returns (r: Attempt<MP.Prediction>)
      ensures r == MP.PredictOnnx(models, id, arg, run)
    {
      if id !in models {
        return Raised("Model " + id + " not loaded");
      }
      var input := Prepare(arg);
      if input.Raised? {
        return Raised(input.message);
      }
      var outputs := run(models[id].model, input.value);
      if outputs.Raised? {
        return Raised(outputs.message);
      }
      r := Returned(MP.OnnxOutputs(outputs.value));
    }

    /** A route's `except` clause: count the error, answer 500. */
    method CountError(e: string) returns (reply: MP.Reply)
      modifies this
      ensures reply == MP.Failed(500, e)
      ensures stats == old(stats).(errors := old(stats).errors + 1)
      ensures models == old(models) && order == old(order) && session == old(session)
    {
      stats := stats.(errors := stats.errors + 1);
      reply := MP.Failed(500, e);
    }

    /** The `/load` route. */
    method LoadModel(body: MP.Body<MP.LoadRequest>, env: MP.Env) returns (reply: MP.Reply)
      requires Valid()
      modifies this
      ensures Valid()
      ensures MP.LoadRoute(old(Contents()), avail, body, env) == MP.Routed(Contents(), reply)
    {
      MP.LoadKeepsValid(Contents(), avail, body, env);
      stats := stats.(requests := stats.requests + 1);
      if body.Unreadable? {
        reply := CountError(body.reason);
        return;
      }
      var req := body.fields;
      var chosen := IdOrBasename(req.modelId, req.modelPath);
      if chosen.Raised? {
        reply := CountError(chosen.message);
        return;
      }
      var id := chosen.value;
      if !MP.Given(req.modelPath) {
        return MP.Failed(400, "model_path required");
      }
      if id in models {
        return MP.Loaded("Model " + id + " already loaded", id, models[id].backend);
      }
      var path := req.modelPath.value;
      if !env.fileExists(path) {
        return MP.Failed(404, "Model file not found: " + path);
      }
      var prefer := req.backend.GetOr("auto");
      var loaded: Attempt<MP.Backend>;
      if prefer == "max" || (prefer == "auto" && avail.max) {
        loaded := LoadModelMax(path, id, env);
        if loaded.Raised? && avail.onnx && prefer == "auto" {
          loaded := LoadModelOnnx(path, id, env);
        }
      } else {
        loaded := LoadModelOnnx(path, id, env);
      }
      if loaded.Raised? {
        reply := CountError(loaded.message);
        return;
      }
      reply := MP.Loaded("Model " + id + " loaded successfully", id, loaded.value);
    }

    /** The `/predict` route; `latency` is the measured inference time. */
    method Predict(body: MP.Body<MP.PredictRequest>, env: MP.Env, latency: real) returns (reply: MP.Reply)
      requires Valid()
      modifies this
      ensures Valid()
      ensures MP.PredictRoute(old(Contents()), body, env, latency) == MP.Routed(Contents(), reply)
    {
      stats := stats.(requests := stats.requests + 1);
      stats := stats.(inferences := stats.inferences + 1);
      if body.Unreadable? {
        reply := CountError(body.reason);
        return;
      }
      var req := body.fields;
      if !MP.Given(req.modelId) {
        return MP.Failed(400, "model_id required");
      }
      if req.inputData.None? {
        return MP.Failed(400, "input_data required");
      }
      var id := req.modelId.value;
      if id !in models {
        return MP.Failed(404, "Model " + id + " not loaded");
      }
      var backend := models[id].backend;
      var result: Attempt<MP.Prediction>;
      if backend == MP.Max {
        result := PredictMax(id, MP.FromJson(req.inputData.value), env.maxExecute);
      } else {
        result := PredictOnnx(id, MP.FromJson(req.inputData.value), env.onnxRun);
      }
      assert result == MP.Infer(models, id, MP.FromJson(req.inputData.value), env);
      if result.Raised? {
        reply := CountError(result.message);
        return;
      }
      var n := stats.inferences;
      stats := stats.(avgMs := MP.RunningMean(stats.avgMs, n, latency));
      reply := MP.Predicted(result.value, latency, backend);
    }

    /** The `/unload` route. */
    method UnloadModel(body: MP.Body<MP.UnloadRequest>) returns (reply: MP.Reply)
      requires Valid()
      modifies this
      ensures Valid()
      ensures MP.UnloadRoute(old(Contents()), body) == MP.Routed(Contents(), reply)
    {
      stats := stats.(requests := stats.requests + 1);
      if body.Unreadable? {
        reply := CountError(body.reason);
        return;
      }
      var modelId := body.fields.modelId;
      if !MP.Given(modelId) {
        return MP.Failed(400, "model_id required");
      }
      var id := modelId.value;
      if id !in models {
        return MP.Failed(404, "Model " + id + " not loaded");
      }
      models := models - {id};
      order := Without(order, id);
      reply := MP.Unloaded("Model " + id + " unloaded");
    }

    /** The `/batch_predict` route; `latency` is the measured time of the
        whole batch. */
    method BatchPredict(body: MP.Body<MP.BatchRequest>, env: MP.Env, latency: real) returns (reply: MP.Reply)
      requires Valid()
      modifies this
      ensures Valid()
      ensures MP.BatchRoute(old(Contents()), body, env, latency) == MP.Routed(Contents(), reply)
    {
      stats := stats.(requests := stats.requests + 1);
      if body.Unreadable? {
        reply := CountError(body.reason);
        return;
      }
      var req := body.fields;
      if !MP.Given(req.modelId) || req.inputs.None? || !req.inputs.value.Truthy() {
        return MP.Failed(400, "model_id and inputs required");
      }
      var id := req.modelId.value;
      if id !in models {
        return MP.Failed(404, "Model " + id + " not loaded");
      }
      var inputs := req.inputs.value;
      if inputs.stacked.Refused? {
        reply := CountError(inputs.stacked.reason);
        return;
      }
      var backend := models[id].backend;
      var result: Attempt<MP.Prediction>;
      if backend == MP.Max {
        result := PredictMax(id, MP.Stacked(inputs.stacked.shape), env.maxExecute);
      } else {
        result := PredictOnnx(id, MP.Stacked(inputs.stacked.shape), env.onnxRun);
      }
      assert result == MP.Infer(models, id, MP.Stacked(inputs.stacked.shape), env);
      if result.Raised? {
        reply := CountError(result.message);
        return;
      }
      if inputs.Unsized? {
        reply := CountError(MP.NoLen(inputs.typeName));
        return;
      }
      var n := inputs.length;
      stats := stats.(inferences := stats.inferences + n);
      reply := MP.BatchPredicted(result.value, n, latency, latency / (n as real), backend);
    }

    /** The `/status` route. */
    method Status() returns (reply: MP.Reply)
      requires Valid()
      modifies this
      ensures Valid()
      ensures MP.StatusRoute(old(Contents()), avail) == MP.Routed(Contents(), reply)
    {
      stats := stats.(requests := stats.requests + 1);
      reply := MP.StatusReport(MP.Engine(avail), avail.max, avail.onnx, order, MP.Info(models), stats);
    }

    /** The `/health` route: it counts nothing and changes nothing. */
    method Health() returns (reply: MP.Reply)
      ensures reply == MP.Health(Contents(), avail)
    {
      reply := MP.HealthReport(if avail.max then MP.Max else MP.Onnx, |models|);
    }
  }
}
