/** The HTTP inference bridge: a server that keeps loaded models in one
    dictionary, shares one MAX Engine session between them, and counts
    requests, inferences and errors. Each route is stated here as a pure
    transition of the server state; the class in MaxBridge performs the
    same transitions in place. */
module MaxProtocol {
  import opened Wrappers
  import opened PyPath
  import opened Tensors
  import opened OrderedKeys

  /** The `backend` tag of a loaded model. */
  datatype Backend = Max | Onnx

  /** The devices `get_inference_session` asks for, in the order it asks. */
  datatype Device = Gpu0 | Cpu

  /** A MAX Engine `InferenceSession`, known by the device it was created for. */
  datatype Session = Session(device: Device)

  /** The model object a backend returned: a MAX model or an ONNX Runtime
      session. */
  datatype LoadedModel = LoadedModel(token: nat)

  /** One entry of `_models`: the model, its backend, and its file path. */
  datatype Record = Record(model: LoadedModel, backend: Backend, path: string)

  /** The counters and the running mean of `_stats`; the mean is over the
      reals. */
  datatype Stats = Stats(requests: nat, inferences: nat, errors: nat, avgMs: real)

  const InitialStats: Stats := Stats(0, 0, 0, 0.0)

  /** Which of the two engines imported: `MAX_AVAILABLE` and
      `ONNX_AVAILABLE`. The process exits at import when neither did. */
  datatype Availability = Availability(max: bool, onnx: bool)

  /** A backend's output converted for the reply: one array, a list of
      arrays, or arrays by output name. */
  datatype Prediction = Single(output: Tensor) | Several(list: seq<Tensor>) | Named(byName: map<string, Tensor>)

  /** Everything outside the server: the file system, session creation per
      device, the MAX and ONNX Runtime loaders (the latter given its
      provider list), whether ONNX Runtime lists the CUDA provider, and the
      two inference calls on a prepared input shape. */
  datatype Env = Env(
    fileExists: string -> bool,
    sessionStarts: Device -> bool,
    maxLoad: (Session, string) -> Attempt<LoadedModel>,
    cudaListed: bool,
    onnxLoad: (string, seq<string>) -> Attempt<LoadedModel>,
    maxExecute: (LoadedModel, Shape) -> Attempt<Prediction>,
    onnxRun: (LoadedModel, Shape) -> Attempt<seq<Tensor>>)

  /** The module-level state: `_models` with the insertion order of its
      keys, the cached `_inference_session`, and `_stats`. */
  datatype Server = Server(models: map<string, Record>, order: seq<string>, session: Option<Session>, stats: Stats)

  /** The state at import: nothing loaded, no session, zero counters. */
  const Start: Server := Server(map[], [], None, InitialStats)

  /** `order` lists every key of `_models` once. */
  ghost predicate Ordered(s: Server) {
    Distinct(s.order) && (forall k :: k in s.order <==> k in s.models)
  }

  /** The state invariant: keys ordered, a session only when MAX Engine
      imported, and every model held by an engine that imported. */
  ghost predicate Valid(s: Server, avail: Availability) {
    && Ordered(s)
    && (s.session.Some? ==> avail.max)
    && (forall k :: k in s.models && s.models[k].backend == Max ==> avail.max)
    && (forall k :: k in s.models && s.models[k].backend == Onnx ==> avail.onnx)
  }

  /** `get_inference_session`: the cached session, or, when MAX Engine is
      available and none is cached yet, a new one on `gpu:0`, else on
      `cpu`, else none. */
  function GetSession(avail: Availability, cached: Option<Session>, starts: Device -> bool): (r: Option<Session>)
    ensures cached.Some? || !avail.max ==> r == cached
    ensures avail.max && cached.None? ==>
      && (r == Some(Session(Gpu0)) <==> starts(Gpu0))
      && (r == Some(Session(Cpu)) <==> !starts(Gpu0) && starts(Cpu))
      && (r.None? <==> !starts(Gpu0) && !starts(Cpu))
  {
    if avail.max && cached.None? then
      if starts(Gpu0) then Some(Session(Gpu0))
      else if starts(Cpu) then Some(Session(Cpu))
      else None
    else cached
  }

  /** `main` creates the session once before serving when MAX Engine is
      available. */
  function Boot(avail: Availability, starts: Device -> bool): (s: Server)
    ensures Valid(s, avail)
    ensures s.models == map[] && s.stats == InitialStats
    ensures s.session == GetSession(avail, None, starts)
  {
    Start.(session := GetSession(avail, None, starts))
  }

  /** `_models[model_id] = {...}` for an id not yet present: the key goes
      last in the order, and nothing else changes. */
  function Put(s: Server, id: string, rec: Record): (r: Server)
    requires id !in s.models
    ensures Ordered(s) ==> Ordered(r)
    ensures r.models == s.models[id := rec] && r.order == s.order + [id]
    ensures r.session == s.session && r.stats == s.stats
  {
    s.(models := s.models[id := rec], order := s.order + [id])
  }

  /** The execution providers `load_model_onnx` passes: CUDA first when
      ONNX Runtime lists it, always CPU last. */
  function Providers(cudaListed: bool): (p: seq<string>)
    ensures |p| >= 1 && p[|p| - 1] == "CPUExecutionProvider"
    ensures "CUDAExecutionProvider" in p <==> cudaListed
    ensures cudaListed ==> p[0] == "CUDAExecutionProvider"
    ensures |p| == if cudaListed then 2 else 1
  {
    if cudaListed then ["CUDAExecutionProvider", "CPUExecutionProvider"] else ["CPUExecutionProvider"]
  }

  const NoSession := "MAX Engine session not available"

  /** The `NameError` raised by `ort.SessionOptions()` when ONNX Runtime did
      not import. */
  const NoOrt := "name 'ort' is not defined"

  /** `load_model_max`: get (and cache) the session, then load the file with
      it. The session stays cached even when the load fails. */
  function LoadMax(s: Server, avail: Availability, path: string, id: string, env: Env): (r: (Server, Attempt<Backend>))
    requires id !in s.models
    ensures r.0.session == GetSession(avail, s.session, env.sessionStarts)
    ensures r.0.stats == s.stats
    ensures r.1.Returned? <==>
      r.0.session.Some? && env.maxLoad(r.0.session.value, path).Returned?
    ensures r.0.session.None? ==> r.1 == Raised(NoSession)
    ensures r.0.session.Some? && env.maxLoad(r.0.session.value, path).Raised? ==>
      r.1 == Raised(env.maxLoad(r.0.session.value, path).message)
    ensures r.1.Raised? ==> r.0.models == s.models && r.0.order == s.order
    ensures r.1.Returned? ==>
      r.1.value == Max &&
      r.0 == Put(s.(session := r.0.session), id, Record(env.maxLoad(r.0.session.value, path).value, Max, path))
  {
    var session := GetSession(avail, s.session, env.sessionStarts);
    var s1 := s.(session := session);
    if session.None? then (s1, Raised(NoSession))
    else
      match env.maxLoad(session.value, path)
      case Raised(e) => (s1, Raised(e))
      case Returned(m) => (Put(s1, id, Record(m, Max, path)), Returned(Max))
  }

  /** `load_model_onnx`: build a session for the file with the chosen
      providers and record it. */
  function LoadOnnx(s: Server, avail: Availability, path: string, id: string, env: Env): (r: (Server, Attempt<Backend>))
    requires id !in s.models
    ensures !avail.onnx ==> r == (s, Raised(NoOrt))
    ensures r.1.Returned? <==> avail.onnx && env.onnxLoad(path, Providers(env.cudaListed)).Returned?
    ensures r.1.Raised? ==> r.0 == s
    ensures avail.onnx && env.onnxLoad(path, Providers(env.cudaListed)).Raised? ==>
      r.1 == Raised(env.onnxLoad(path, Providers(env.cudaListed)).message)
    ensures r.1.Returned? ==>
      r.1.value == Onnx &&
      r.0 == Put(s, id, Record(env.onnxLoad(path, Providers(env.cudaListed)).value, Onnx, path))
  {
    if !avail.onnx then (s, Raised(NoOrt))
    else
      match env.onnxLoad(path, Providers(env.cudaListed))
      case Raised(e) => (s, Raised(e))
      case Returned(m) => (Put(s, id, Record(m, Onnx, path)), Returned(Onnx))
  }

  /** The backend decision of `/load`: MAX Engine first (with or without an
      ONNX fallback), or ONNX Runtime alone. */
  datatype Plan = MaxFirst(fallback: bool) | OnnxOnly

  function SelectPlan(prefer: string, avail: Availability): (p: Plan)
    ensures p.MaxFirst? <==> prefer == "max" || (prefer == "auto" && avail.max)
    ensures p.MaxFirst? ==> (p.fallback <==> prefer == "auto" && avail.onnx)
  {
    if prefer == "max" || (prefer == "auto" && avail.max) then MaxFirst(prefer == "auto" && avail.onnx)
    else OnnxOnly
  }

  /** The loading step of `/load` under the selected plan: a MAX failure
      falls back to ONNX Runtime when the plan allows it and is raised
      otherwise. */
  function LoadWith(s: Server, avail: Availability, prefer: string, path: string, id: string, env: Env): (r: (Server, Attempt<Backend>))
    requires id !in s.models
    ensures r.0.stats == s.stats
    ensures r.1.Raised? ==> r.0.models == s.models && r.0.order == s.order
    ensures r.1.Returned? ==>
      id in r.0.models && r.0.models[id].backend == r.1.value && r.0.models[id].path == path
      && r.0 == Put(r.0.(models := s.models, order := s.order), id, r.0.models[id])
    ensures r.1 == Returned(Max) ==> SelectPlan(prefer, avail).MaxFirst?
    ensures r.1 == Returned(Onnx) ==>
      SelectPlan(prefer, avail) == OnnxOnly || SelectPlan(prefer, avail) == MaxFirst(true)
    ensures SelectPlan(prefer, avail) == OnnxOnly ==> r == LoadOnnx(s, avail, path, id, env)
    ensures SelectPlan(prefer, avail).MaxFirst? ==>
      var lm := LoadMax(s, avail, path, id, env);
      r == if lm.1.Raised? && SelectPlan(prefer, avail).fallback then LoadOnnx(lm.0, avail, path, id, env) else lm
  {
    match SelectPlan(prefer, avail)
    case OnnxOnly => LoadOnnx(s, avail, path, id, env)
    case MaxFirst(fallback) =>
      var (s1, a) := LoadMax(s, avail, path, id, env);
      if a.Raised? && fallback then LoadOnnx(s1, avail, path, id, env) else (s1, a)
  }

  /** A route's reply: an error with its HTTP status, or the JSON body of a
      successful answer. Latencies are in milliseconds. */
  datatype Reply =
    | Failed(code: nat, error: string)
    | Loaded(message: string, modelId: string, backend: Backend)
    | Predicted(prediction: Prediction, latencyMs: real, backend: Backend)
    | Unloaded(message: string)
    | BatchPredicted(predictions: Prediction, batchSize: nat, latencyMs: real, perSampleMs: real, backend: Backend)
    | StatusReport(engine: Backend, maxAvailable: bool, onnxAvailable: bool, models: seq<string>,
                   modelInfo: map<string, ModelInfo>, stats: Stats)
    | HealthReport(engine: Backend, modelsLoaded: nat)
  {
    /** The HTTP status code: 200 unless the route failed. */
    function Code(): nat {
      if Failed? then code else 200
    }
  }

  /** The `backend` and `path` the status route reports for a model. */
  datatype ModelInfo = ModelInfo(backend: Backend, path: string)

  /** The request body as the route sees it: the JSON object's fields, or
      the exception raised while reading it (`request.get_json()` failing, or
      `.get` on a JSON value that is not an object). */
  datatype Body<T> = Json(fields: T) | Unreadable(reason: string)

  /** The fields `/load` reads; an absent `backend` means "auto". */
  datatype LoadRequest = LoadRequest(modelPath: Option<string>, modelId: Option<string>, backend: Option<string>)

  /** An `input_data` value: a JSON list, with what
      `np.array(value, dtype=np.float32)` makes of it, or a JSON value of
      another Python type, which is passed on unconverted. */
  datatype InputValue = ListValue(conversion: Conversion) | OtherValue(typeName: string)

  datatype PredictRequest = PredictRequest(modelId: Option<string>, inputData: Option<InputValue>)

  datatype UnloadRequest = UnloadRequest(modelId: Option<string>)

  /** An `inputs` value of `/batch_predict`, with what
      `np.array(inputs, dtype=np.float32)` makes of it: one that has a
      length (a list, a string, an object), or a number or boolean, which
      has none. */
  datatype BatchValue =
    | Sized(length: nat, stacked: Conversion)
    | Unsized(typeName: string, truthy: bool, stacked: Conversion)
  {
    /** Python truthiness of the value. */
    predicate Truthy() {
      match this
      case Sized(n, _) => n > 0
      case Unsized(_, t, _) => t
    }
  }

  datatype BatchRequest = BatchRequest(modelId: Option<string>, inputs: Option<BatchValue>)

  /** Python truthiness of an optional string: absent and empty are false. */
  predicate Given(o: Option<string>) {
    o.Some? && o.value != ""
  }

  /** A route's new state and its reply. */
  datatype Routed = Routed(server: Server, reply: Reply)

  /** The `except` clause of a route: count the error and answer 500 with
      `str(e)`. */
  function Fail500(s: Server, e: string): (r: Routed)
    ensures r.reply == Failed(500, e)
    ensures r.server == s.(stats := s.stats.(errors := s.stats.errors + 1))
  {
    Routed(s.(stats := s.stats.(errors := s.stats.errors + 1)), Failed(500, e))
  }

  /** `_stats["requests_total"] += 1`. */
  function Counted(s: Server): (r: Server)
    ensures r.models == s.models && r.order == s.order && r.session == s.session
    ensures r.stats.requests == s.stats.requests + 1
    ensures r.stats.inferences == s.stats.inferences && r.stats.errors == s.stats.errors
    ensures r.stats.avgMs == s.stats.avgMs
  {
    s.(stats := s.stats.(requests := s.stats.requests + 1))
  }

  /** `/load`. */
  function LoadRoute(s: Server, avail: Availability, body: Body<LoadRequest>, env: Env): (r: Routed)
    ensures r.server.stats.requests == s.stats.requests + 1
    ensures r.server.stats.inferences == s.stats.inferences && r.server.stats.avgMs == s.stats.avgMs
    ensures r.server.stats.errors == s.stats.errors + (if r.reply.Code() == 500 then 1 else 0)
    ensures r.reply.Failed? ==> r.server.models == s.models && r.server.order == s.order
    ensures r.reply.Failed? ==> r.reply.code in {400, 404, 500}
    ensures r.reply.Code() == 200 ==>
      && r.reply.Loaded? && r.reply.modelId in r.server.models
      && r.server.models[r.reply.modelId].backend == r.reply.backend
    ensures r.server.session == s.session || r.server.session == GetSession(avail, s.session, env.sessionStarts)
    ensures body.Unreadable? ==> r == Fail500(Counted(s), body.reason)
    ensures body.Json? && IdOrBasename(body.fields.modelId, body.fields.modelPath).Raised? ==>
      r == Fail500(Counted(s), IdOrBasename(body.fields.modelId, body.fields.modelPath).message)
    ensures body.Json? && IdOrBasename(body.fields.modelId, body.fields.modelPath).Returned? ==>
      var req := body.fields;
      var id := IdOrBasename(req.modelId, req.modelPath).value;
      && (!Given(req.modelPath) ==> r == Routed(Counted(s), Failed(400, "model_path required")))
      && (Given(req.modelPath) && id in s.models ==>
            r == Routed(Counted(s), Loaded("Model " + id + " already loaded", id, s.models[id].backend)))
      && (Given(req.modelPath) && id !in s.models ==>
            r == LoadFile(Counted(s), avail, req.modelPath.value, id, req.backend.GetOr("auto"), env))
  {
    var s0 := Counted(s);
    match body
    case Unreadable(e) => Fail500(s0, e)
    case Json(req) =>
      match IdOrBasename(req.modelId, req.modelPath)
      case Raised(e) => Fail500(s0, e)
      case Returned(id) =>
        if !Given(req.modelPath) then Routed(s0, Failed(400, "model_path required"))
        else if id in s.models then
          Routed(s0, Loaded("Model " + id + " already loaded", id, s.models[id].backend))
        else LoadFile(s0, avail, req.modelPath.value, id, req.backend.GetOr("auto"), env)
  }

  /** The part of `/load` for a new id: check that the file exists, then
      load it under the selected plan. */
  function LoadFile(s: Server, avail: Availability, path: string, id: string, prefer: string, env: Env): (r: Routed)
    requires id !in s.models
    ensures r.server.stats.requests == s.stats.requests
    ensures r.server.stats.inferences == s.stats.inferences && r.server.stats.avgMs == s.stats.avgMs
    ensures r.server.stats.errors == s.stats.errors + (if r.reply.Code() == 500 then 1 else 0)
    ensures !env.fileExists(path) ==> r == Routed(s, Failed(404, "Model file not found: " + path))
    ensures r.reply.Failed? ==> r.server.models == s.models && r.server.order == s.order
    ensures r.reply.Failed? ==> r.reply.code in {404, 500}
    ensures r.reply.Code() == 200 ==>
      && r.reply.Loaded? && r.reply == Loaded("Model " + id + " loaded successfully", id, r.reply.backend)
      && id in r.server.models && r.server.models[id].backend == r.reply.backend
      && r.server.models[id].path == path
      && r.server == Put(r.server.(models := s.models, order := s.order), id, r.server.models[id])
    ensures r.server.session == s.session || r.server.session == GetSession(avail, s.session, env.sessionStarts)
    ensures env.fileExists(path) ==>
      var lw := LoadWith(s, avail, prefer, path, id, env);
      && (r.reply.Code() == 200 <==> lw.1.Returned?)
      && (lw.1.Returned? ==> r == Routed(lw.0, Loaded("Model " + id + " loaded successfully", id, lw.1.value)))
      && (lw.1.Raised? ==> r == Fail500(lw.0, lw.1.message))
  {
    if !env.fileExists(path) then Routed(s, Failed(404, "Model file not found: " + path))
    else
      var (s1, a) := LoadWith(s, avail, prefer, path, id, env);
      match a
      case Raised(e) => Fail500(s1, e)
      case Returned(b) => Routed(s1, Loaded("Model " + id + " loaded successfully", id, b))
  }

  /** A load keeps the key order exact, caches a session only when MAX
      Engine imported, and records a model only under an engine that
      imported. */
  lemma LoadKeepsValid(s: Server, avail: Availability, body: Body<LoadRequest>, env: Env)
    requires Valid(s, avail)
    ensures Valid(LoadRoute(s, avail, body, env).server, avail)
  {
    if body.Json? {
      var req := body.fields;
      var chosen := IdOrBasename(req.modelId, req.modelPath);
      if chosen.Returned? && Given(req.modelPath) && chosen.value !in s.models {
        LoadWithKeepsValid(Counted(s), avail, req.backend.GetOr("auto"), req.modelPath.value, chosen.value, env);
      }
    }
  }

  /** The loading step alone keeps the invariant: a session is only created
      when MAX Engine imported, and a model is only recorded by an engine
      that loaded it. */
  lemma LoadWithKeepsValid(s: Server, avail: Availability, prefer: string, path: string, id: string, env: Env)
    requires Valid(s, avail) && id !in s.models
    ensures Valid(LoadWith(s, avail, prefer, path, id, env).0, avail)
  {
    var session := GetSession(avail, s.session, env.sessionStarts);
    assert session.Some? ==> avail.max;
    var (sm, am) := LoadMax(s, avail, path, id, env);
    assert Valid(sm, avail);
    var (so, ao) := LoadOnnx(s, avail, path, id, env);
    assert Valid(so, avail);
    if am.Raised? {
      var (smo, amo) := LoadOnnx(sm, avail, path, id, env);
      assert Valid(smo, avail);
    }
  }

  /** How a backend receives its input: a request's JSON value, or an array
      already stacked from a batch. */
  datatype ArrayArg = FromJson(value: InputValue) | Stacked(shape: Shape)

  /** The input preparation of `predict_max` and `predict_onnx`: convert a
      list, use anything else as it is, and add the batch dimension to a
      vector. A value without a `shape` attribute raises. */
  function Prepare(arg: ArrayArg): (r: Attempt<Shape>)
    ensures r.Returned? ==> |r.value| != 1
    ensures arg.Stacked? ==> r == Returned(WithBatchDim(arg.shape))
    ensures arg.FromJson? && arg.value.ListValue? && arg.value.conversion.Converted? ==>
      r == Returned(WithBatchDim(arg.value.conversion.shape))
    ensures arg.FromJson? && arg.value.ListValue? && arg.value.conversion.Refused? ==>
      r == Raised(arg.value.conversion.reason)
    ensures arg.FromJson? && arg.value.OtherValue? ==>
      r == Raised("'" + arg.value.typeName + "' object has no attribute 'shape'")
  {
    match arg
    case Stacked(shape) => Returned(WithBatchDim(shape))
    case FromJson(ListValue(Converted(shape))) => Returned(WithBatchDim(shape))
    case FromJson(ListValue(Refused(e))) => Raised(e)
    case FromJson(OtherValue(t)) => Raised("'" + t + "' object has no attribute 'shape'")
  }

  /** `predict_max`: look the model up, prepare the input, execute. */
  function PredictMax(models: map<string, Record>, id: string, arg: ArrayArg,
                      execute: (LoadedModel, Shape) -> Attempt<Prediction>): (r: Attempt<Prediction>)
    ensures id !in models ==> r == Raised("Model " + id + " not loaded")
    ensures id in models && Prepare(arg).Raised? ==> r == Raised(Prepare(arg).message)
    ensures r.Returned? ==>
      id in models && Prepare(arg).Returned? && r == execute(models[id].model, Prepare(arg).value)
    ensures id in models && Prepare(arg).Returned? ==> r == execute(models[id].model, Prepare(arg).value)
  {
    if id !in models then Raised("Model " + id + " not loaded")
    else
      match Prepare(arg)
      case Raised(e) => Raised(e)
      case Returned(shape) => execute(models[id].model, shape)
  }

  /** The reply form of ONNX Runtime's output list: a single output is
      unwrapped, any other number is kept as a list. */
  function OnnxOutputs(outs: seq<Tensor>): (p: Prediction)
    ensures p.Single? <==> |outs| == 1
    ensures p.Single? ==> p.output == outs[0]
    ensures p.Several? ==> p.list == outs
    ensures !p.Named?
  {
    if |outs| == 1 then Single(outs[0]) else Several(outs)
  }

  /** `predict_onnx`: look the session up, prepare the input, run it. */
  function PredictOnnx(models: map<string, Record>, id: string, arg: ArrayArg,
                       run: (LoadedModel, Shape) -> Attempt<seq<Tensor>>): (r: Attempt<Prediction>)
    ensures id !in models ==> r == Raised("Model " + id + " not loaded")
    ensures id in models && Prepare(arg).Raised? ==> r == Raised(Prepare(arg).message)
    ensures r.Returned? ==>
      && id in models && Prepare(arg).Returned?
      && var outs := run(models[id].model, Prepare(arg).value);
         outs.Returned? && r.value == OnnxOutputs(outs.value)
    ensures id in models && Prepare(arg).Returned? ==>
      var outs := run(models[id].model, Prepare(arg).value);
      r == if outs.Returned? then Returned(OnnxOutputs(outs.value)) else Raised(outs.message)
  {
    if id !in models then Raised("Model " + id + " not loaded")
    else
      match Prepare(arg)
      case Raised(e) => Raised(e)
      case Returned(shape) =>
        match run(models[id].model, shape)
        case Raised(e) => Raised(e)
        case Returned(outs) => Returned(OnnxOutputs(outs))
  }

  /** The inference call a route makes for a loaded model: by its backend. */
  function Infer(models: map<string, Record>, id: string, arg: ArrayArg, env: Env): (r: Attempt<Prediction>)
    requires id in models
    ensures Prepare(arg).Raised? ==> r == Raised(Prepare(arg).message)
    ensures models[id].backend == Max && Prepare(arg).Returned? ==>
      r == env.maxExecute(models[id].model, Prepare(arg).value)
    ensures models[id].backend != Max && Prepare(arg).Returned? ==>
      match env.onnxRun(models[id].model, Prepare(arg).value)
      case Raised(e) => r == Raised(e)
      case Returned(outs) => r == Returned(OnnxOutputs(outs))
  {
    if models[id].backend == Max then PredictMax(models, id, arg, env.maxExecute)
    else PredictOnnx(models, id, arg, env.onnxRun)
  }

  /** The running-mean update of `/predict`, where `n` is the inference
      count after this request. */
  function RunningMean(avg: real, n: nat, t: real): (m: real)
    requires n >= 1
    ensures n == 1 ==> m == t
  {
    (avg * ((n - 1) as real) + t) / (n as real)
  }

  /** `/predict`. Both counters go up before the request is validated. */
  function PredictRoute(s: Server, body: Body<PredictRequest>, env: Env, latency: real): (r: Routed)
    ensures r.server.models == s.models && r.server.order == s.order && r.server.session == s.session
    ensures r.server.stats.requests == s.stats.requests + 1
    ensures r.server.stats.inferences == s.stats.inferences + 1
    ensures r.server.stats.errors == s.stats.errors + (if r.reply.Code() == 500 then 1 else 0)
    ensures r.reply.Code() == 200 ==>
      r.reply.Predicted? && r.reply.latencyMs == latency
      && r.server.stats.avgMs == RunningMean(s.stats.avgMs, s.stats.inferences + 1, latency)
    ensures r.reply.Failed? ==> r.server.stats.avgMs == s.stats.avgMs && r.reply.code in {400, 404, 500}
    ensures body.Json? && !Given(body.fields.modelId) ==> r.reply == Failed(400, "model_id required")
    ensures body.Json? && Given(body.fields.modelId) && body.fields.inputData.None? ==>
      r.reply == Failed(400, "input_data required")
    ensures (body.Json? && Given(body.fields.modelId) && body.fields.inputData.Some?
             && body.fields.modelId.value !in s.models) ==>
      r.reply == Failed(404, "Model " + body.fields.modelId.value + " not loaded")
    ensures r.reply.Code() == 200 ==>
      && body.Json? && Given(body.fields.modelId) && body.fields.inputData.Some?
      && var id := body.fields.modelId.value;
      && id in s.models && r.reply.backend == s.models[id].backend
      && Infer(s.models, id, FromJson(body.fields.inputData.value), env) == Returned(r.reply.prediction)
    ensures body.Unreadable? ==> r.reply == Failed(500, body.reason)
    ensures (body.Json? && Given(body.fields.modelId) && body.fields.inputData.Some?
             && body.fields.modelId.value in s.models) ==>
      var id := body.fields.modelId.value;
      var p := Infer(s.models, id, FromJson(body.fields.inputData.value), env);
      r.reply == if p.Returned? then Predicted(p.value, latency, s.models[id].backend) else Failed(500, p.message)
  {
    var s0 := Counted(s).(stats := Counted(s).stats.(inferences := s.stats.inferences + 1));
    match body
    case Unreadable(e) => Fail500(s0, e)
    case Json(req) =>
      if !Given(req.modelId) then Routed(s0, Failed(400, "model_id required"))
      else if req.inputData.None? then Routed(s0, Failed(400, "input_data required"))
      else if req.modelId.value !in s.models then Routed(s0, Failed(404, "Model " + req.modelId.value + " not loaded"))
      else
        var id := req.modelId.value;
        match Infer(s.models, id, FromJson(req.inputData.value), env)
        case Raised(e) => Fail500(s0, e)
        case Returned(p) =>
          var n := s0.stats.inferences;
          Routed(s0.(stats := s0.stats.(avgMs := RunningMean(s0.stats.avgMs, n, latency))),
                 Predicted(p, latency, s.models[id].backend))
  }

  /** `/unload`. */
  function UnloadRoute(s: Server, body: Body<UnloadRequest>): (r: Routed)
    ensures Ordered(s) ==> Ordered(r.server)
    ensures r.server.session == s.session
    ensures r.server.stats == Counted(s).stats.(errors := r.server.stats.errors)
    ensures r.server.stats.errors == s.stats.errors + (if r.reply.Code() == 500 then 1 else 0)
    ensures r.reply.Failed? ==> r.server.models == s.models && r.server.order == s.order
    ensures body.Unreadable? ==> r == Fail500(Counted(s), body.reason)
    ensures body.Json? && !Given(body.fields.modelId) ==> r.reply == Failed(400, "model_id required")
    ensures body.Json? && Given(body.fields.modelId) && body.fields.modelId.value !in s.models ==>
      r.reply == Failed(404, "Model " + body.fields.modelId.value + " not loaded")
    ensures !r.reply.Failed? <==> body.Json? && Given(body.fields.modelId) && body.fields.modelId.value in s.models
    ensures !r.reply.Failed? ==>
      var id := body.fields.modelId.value;
      r.reply == Unloaded("Model " + id + " unloaded")
      && r.server.models == s.models - {id} && r.server.order == Without(s.order, id)
  {
    var s0 := Counted(s);
    match body
    case Unreadable(e) => Fail500(s0, e)
    case Json(req) =>
      if !Given(req.modelId) then Routed(s0, Failed(400, "model_id required"))
      else if req.modelId.value !in s.models then Routed(s0, Failed(404, "Model " + req.modelId.value + " not loaded"))
      else
        var id := req.modelId.value;
        Routed(s0.(models := s.models - {id}, order := Without(s.order, id)), Unloaded("Model " + id + " unloaded"))
  }

  /** The exception `len(inputs)` raises on a value without a length. */
  function NoLen(typeName: string): (e: string)
    ensures |e| == |typeName| + 30 && e[16..|e| - 14] == typeName
  {
    "object of type '" + typeName + "' has no len()"
  }

  /** `/batch_predict`. The inference count grows by the batch size, and only
      when the whole request succeeds. */
  function BatchRoute(s: Server, body: Body<BatchRequest>, env: Env, latency: real): (r: Routed)
    ensures r.server.models == s.models && r.server.order == s.order && r.server.session == s.session
    ensures r.server.stats.requests == s.stats.requests + 1 && r.server.stats.avgMs == s.stats.avgMs
    ensures r.server.stats.errors == s.stats.errors + (if r.reply.Code() == 500 then 1 else 0)
    ensures r.reply.Failed? ==> r.server.stats.inferences == s.stats.inferences && r.reply.code in {400, 404, 500}
    ensures body.Json? && (!Given(body.fields.modelId) || body.fields.inputs.None? || !body.fields.inputs.value.Truthy()) ==>
      r.reply == Failed(400, "model_id and inputs required")
    ensures (body.Json? && Given(body.fields.modelId) && body.fields.inputs.Some? && body.fields.inputs.value.Truthy()
             && body.fields.modelId.value !in s.models) ==>
      r.reply == Failed(404, "Model " + body.fields.modelId.value + " not loaded")
    ensures r.reply.Code() == 200 ==>
      && body.Json? && body.fields.inputs.Some? && body.fields.inputs.value.Sized?
      && var n := body.fields.inputs.value.length;
         && n > 0 && r.reply.BatchPredicted? && r.reply.batchSize == n
         && r.server.stats.inferences == s.stats.inferences + n
         && r.reply.latencyMs == latency && r.reply.perSampleMs * (n as real) == latency
    ensures body.Unreadable? ==> r.reply == Failed(500, body.reason)
    ensures (body.Json? && Given(body.fields.modelId) && body.fields.inputs.Some? && body.fields.inputs.value.Truthy()
             && body.fields.modelId.value in s.models) ==>
      var id := body.fields.modelId.value;
      var inputs := body.fields.inputs.value;
      && (inputs.stacked.Refused? ==> r.reply == Failed(500, inputs.stacked.reason))
      && (inputs.stacked.Converted? ==>
            var p := Infer(s.models, id, Stacked(inputs.stacked.shape), env);
            r.reply == if p.Raised? then Failed(500, p.message)
                       else if inputs.Unsized? then Failed(500, NoLen(inputs.typeName))
                       else BatchPredicted(p.value, inputs.length, latency, latency / (inputs.length as real), s.models[id].backend))
  {
    var s0 := Counted(s);
    match body
    case Unreadable(e) => Fail500(s0, e)
    case Json(req) =>
      if !Given(req.modelId) || req.inputs.None? || !req.inputs.value.Truthy() then
        Routed(s0, Failed(400, "model_id and inputs required"))
      else if req.modelId.value !in s.models then Routed(s0, Failed(404, "Model " + req.modelId.value + " not loaded"))
      else
        var id := req.modelId.value;
        var inputs := req.inputs.value;
        match inputs.stacked
        case Refused(e) => Fail500(s0, e)
        case Converted(shape) =>
          match Infer(s.models, id, Stacked(shape), env)
          case Raised(e) => Fail500(s0, e)
          case Returned(p) =>
            match inputs
            case Unsized(t, _, _) => Fail500(s0, NoLen(t))
            case Sized(n, _) =>
              Routed(s0.(stats := s0.stats.(inferences := s0.stats.inferences + n)),
                     BatchPredicted(p, n, latency, latency / (n as real), s.models[id].backend))
  }

  /** The engine the server reports: MAX Engine whenever it imported. */
  function Engine(avail: Availability): (b: Backend)
    ensures b == Max <==> avail.max
    ensures b == Onnx <==> !avail.max
  {
    if avail.max then Max else Onnx
  }

  /** The `model_info` map of `/status`: each model's backend and path. */
  function Info(models: map<string, Record>): (m: map<string, ModelInfo>)
    ensures m.Keys == models.Keys
    ensures forall k :: k in m ==> m[k] == ModelInfo(models[k].backend, models[k].path)
  {
    map k | k in models :: ModelInfo(models[k].backend, models[k].path)
  }

  /** `/status`: counts itself, then reports the loaded ids in insertion
      order and the counters after the increment. */
  function StatusRoute(s: Server, avail: Availability): (r: Routed)
    ensures r.server == Counted(s)
    ensures r.reply.StatusReport? && r.reply.stats == r.server.stats
    ensures r.reply.engine == Engine(avail) && r.reply.maxAvailable == avail.max && r.reply.onnxAvailable == avail.onnx
    ensures Ordered(s) ==> Distinct(r.reply.models) && (forall k :: k in r.reply.models <==> k in s.models)
    ensures r.reply.modelInfo.Keys == s.models.Keys
    ensures forall k :: k in r.reply.modelInfo ==> r.reply.modelInfo[k] == ModelInfo(s.models[k].backend, s.models[k].path)
    ensures r.reply.models == s.order
  {
    var s0 := Counted(s);
    Routed(s0, StatusReport(Engine(avail), avail.max, avail.onnx, s.order, Info(s.models), s0.stats))
  }

  /** `/health`: the engine and the number of loaded models; nothing is
      counted. */
  function Health(s: Server, avail: Availability): (reply: Reply)
    ensures reply.Code() == 200 && reply.HealthReport?
    ensures reply.engine == Max <==> avail.max
    ensures reply.modelsLoaded == |s.models|
  {
    HealthReport(Engine(avail), |s.models|)
  }
}
