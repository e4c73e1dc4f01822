/** The line-protocol bridge: a resident process that reads one JSON command
    per input line and writes one JSON response per output line, keeping
    loaded models in two parallel dictionaries. This module states every
    handler as a pure transition of the registry; the class in LineBridge
    performs the same transitions in place. */
module LineProtocol {
  import opened Wrappers
  import opened PyPath
  import opened Tensors
  import opened OrderedKeys

  /** The `_model_types` tag of a loaded model. */
  datatype Kind = Keras | Sklearn | Tflite

  /** The loader functions: `load_keras_model`, the joblib and the pickle
      branch of `load_sklearn_model`, and `load_tflite_model`. */
  datatype Loader = KerasLoader | JoblibLoader | PickleLoader | TfliteLoader {
    /** The `model_type` tag the loader returns beside the model. */
    function Tag(): Kind {
      match this
      case KerasLoader => Keras
      case JoblibLoader => Sklearn
      case PickleLoader => Sklearn
      case TfliteLoader => Tflite
    }
  }

  /** The in-memory model object a loader returned. `hasPredictProba` is
      whether `hasattr(model, 'predict_proba')` holds. */
  datatype LoadedModel = LoadedModel(token: nat, hasPredictProba: bool)

  /** The backend call `handle_predict` makes for a model. */
  datatype Call = KerasPredict | SklearnPredictProba | SklearnPredict | TfliteInvoke

  /** Everything outside the bridge: `json.loads` on a stripped line, the
      loader functions, and the backend calls of `handle_predict`. */
  datatype Env = Env(
    decode: string -> Decoded,
    load: (Loader, string) -> Attempt<LoadedModel>,
    infer: (Call, LoadedModel, Shape) -> Attempt<Tensor>)

  /** The fields of a command object the handlers read; `inputData` is what
      `np.array(msg.get("input_data"), dtype=np.float32)` gives. */
  datatype Message = Message(
    id: Option<string>,
    command: Option<string>,
    modelPath: Option<string>,
    modelId: Option<string>,
    inputData: Conversion)

  /** The result of `json.loads` on a non-blank line: the decoder's
      `JSONDecodeError`, another exception (such as a `RecursionError` on
      deeply nested input), a JSON value that is not an object, or an
      object. */
  datatype Decoded = InvalidJson(reason: string) | Uncaught(message: string) | NotAnObject | Object(msg: Message)

  /** The `result` member of a response. */
  datatype Payload =
    | Note(message: string)
    | LoadedInfo(message: string, modelId: string, modelType: Kind)
    | Prediction(output: Tensor)
    | StatusInfo(loadedModels: seq<string>, modelTypes: map<string, Kind>)

  /** One output line, as `send_response` builds it: `result` and `error`
      are present only when given. */
  datatype Response = Response(id: string, success: bool, result: Option<Payload>, error: Option<string>)

  /** The keys of the JSON object `send_response` writes, in order. */
  function WireKeys(r: Response): (keys: seq<string>)
    ensures |keys| >= 2 && keys[..2] == ["id", "success"]
    ensures "result" in keys <==> r.result.Some?
    ensures "error" in keys <==> r.error.Some?
    ensures |keys| == 2 + (if r.result.Some? then 1 else 0) + (if r.error.Some? then 1 else 0)
  {
    ["id", "success"]
    + (if r.result.Some? then ["result"] else [])
    + (if r.error.Some? then ["error"] else [])
  }

  function Succeed(id: string, p: Payload): Response {
    Response(id, true, Some(p), None)
  }

  function Fail(id: string, e: string): Response {
    Response(id, false, None, Some(e))
  }

  /** How an f-string renders an optional id: `None` prints as "None". */
  function Display(o: Option<string>): string {
    match o
    case Some(s) => s
    case None => "None"
  }

  /** The message sent before any input is read. */
  const Ready: Response := Succeed("ready", Note("Python bridge ready"))

  /** The two module-level dictionaries `_models` and `_model_types`, with
      the insertion order of their keys. */
  datatype Registry = Registry(models: map<string, LoadedModel>, modelTypes: map<string, Kind>, order: seq<string>)

  const Empty: Registry := Registry(map[], map[], [])

  /** Both dictionaries have the same keys, and `order` lists each key once. */
  ghost predicate Valid(r: Registry) {
    && r.models.Keys == r.modelTypes.Keys
    && Distinct(r.order)
    && (forall k :: k in r.order <==> k in r.models)
  }

  /** `_models[id] = model; _model_types[id] = kind` for a new id. */
  function Insert(r: Registry, id: string, m: LoadedModel, kind: Kind): (r': Registry)
    requires id !in r.models
    ensures Valid(r) ==> Valid(r')
    ensures r'.models.Keys == r.models.Keys + {id}
    ensures r'.models == r.models[id := m] && r'.modelTypes == r.modelTypes[id := kind]
    ensures r'.order == r.order + [id]
  {
    Registry(r.models[id := m], r.modelTypes[id := kind], r.order + [id])
  }

  /** `del _models[id]; del _model_types[id]`. */
  function Remove(r: Registry, id: string): (r': Registry)
    ensures Valid(r) ==> Valid(r')
    ensures r'.models.Keys == r.models.Keys - {id}
  {
    Registry(r.models - {id}, r.modelTypes - {id}, Without(r.order, id))
  }

  const SupportedExtensions: set<string> := {".keras", ".h5", ".pkl", ".joblib", ".tflite"}

  /** The extension dispatch of `handle_load_model`, with the joblib/pickle
      choice of `load_sklearn_model`, on the lower-cased extension. */
  function LoaderFor(ext: string): (l: Option<Loader>)
    ensures l.Some? <==> ext in SupportedExtensions
    ensures l.Some? ==> (l.value.Tag() == Keras <==> ext == ".keras" || ext == ".h5")
    ensures l.Some? ==> (l.value.Tag() == Sklearn <==> ext == ".pkl" || ext == ".joblib")
    ensures l.Some? ==> (l.value.Tag() == Tflite <==> ext == ".tflite")
    ensures l == Some(JoblibLoader) <==> ext == ".joblib"
  {
    if ext == ".keras" || ext == ".h5" then Some(KerasLoader)
    else if ext == ".pkl" || ext == ".joblib" then Some(if ext == ".joblib" then JoblibLoader else PickleLoader)
    else if ext == ".tflite" then Some(TfliteLoader)
    else None
  }

  /** What a handler did: it sent a response, or an exception escaped it. */
  datatype Handled = Replied(response: Response) | Escaped(message: string)

  /** `h` reports a successful load, and `r'` is `r` with exactly that model
      added under a new id, every other entry unchanged. */
  ghost predicate Registers(r: Registry, r': Registry, h: Handled) {
    && h.Replied? && h.response.success
    && h.response.result.Some? && h.response.result.value.LoadedInfo?
    && var info := h.response.result.value;
       && info.modelId !in r.models && info.modelId in r'.models
       && r' == Insert(r, info.modelId, r'.models[info.modelId], info.modelType)
  }

  /** `handle_load_model`. */
  function HandleLoadModel(reg: Registry, msgId: string, path: Option<string>, modelId: Option<string>,
                           load: (Loader, string) -> Attempt<LoadedModel>): (r: (Registry, Handled))
    ensures r.1.Escaped? || !r.1.response.success ==> r.0 == reg
    ensures r.1.Replied? ==> r.1.response.id == msgId
    ensures r.0 == reg || Registers(reg, r.0, r.1)
    ensures r.1.Escaped? <==>
      IdOrBasename(modelId, path).Raised? || (IdOrBasename(modelId, path).value !in reg.models && path.None?)
    ensures r.1.Escaped? ==> r.1.message == PathTypeError
    ensures IdOrBasename(modelId, path).Returned? && IdOrBasename(modelId, path).value !in reg.models && path.Some? ==>
      r == LoadNew(reg, msgId, IdOrBasename(modelId, path).value, path.value, load)
  {
    match IdOrBasename(modelId, path)
    case Raised(e) => (reg, Escaped(e))
    case Returned(id) =>
      if id in reg.models then
        (reg, Replied(Succeed(msgId, Note("Model " + id + " already loaded"))))
      else if path.None? then
        (reg, Escaped(PathTypeError))
      else
        LoadNew(reg, msgId, id, path.value, load)
  }

  /** The part of `handle_load_model` after the short-circuit: pick the loader
      from the lower-cased extension, call it, and register the model. */
  function LoadNew(reg: Registry, msgId: string, id: string, path: string,
                   load: (Loader, string) -> Attempt<LoadedModel>): (r: (Registry, Handled))
    requires id !in reg.models
    ensures r.1.Replied? && r.1.response.id == msgId
    ensures !r.1.response.success ==> r.0 == reg
    ensures r.0 == reg || Registers(reg, r.0, r.1)
    ensures r.1.response.success ==>
      var l := LoaderFor(Lower(Extension(path)));
      && l.Some? && load(l.value, path).Returned?
      && r.0 == Insert(reg, id, load(l.value, path).value, l.value.Tag())
    ensures var ext := Lower(Extension(path));
      var l := LoaderFor(ext);
      && (l.None? ==> r.1.response == Fail(msgId, "Unsupported model format: " + ext))
      && (l.Some? && load(l.value, path).Raised? ==> r.1.response == Fail(msgId, load(l.value, path).message))
      && (l.Some? && load(l.value, path).Returned? ==>
            r.1.response == Succeed(msgId, LoadedInfo("Model " + id + " loaded successfully", id, l.value.Tag())))
  {
    var ext := Lower(Extension(path));
    match LoaderFor(ext)
    case None => (reg, Replied(Fail(msgId, "Unsupported model format: " + ext)))
    case Some(loader) =>
      match load(loader, path)
      case Raised(e) => (reg, Replied(Fail(msgId, e)))
      case Returned(m) =>
        (Insert(reg, id, m, loader.Tag()),
         Replied(Succeed(msgId, LoadedInfo("Model " + id + " loaded successfully", id, loader.Tag()))))
  }

  /** A load keeps the two dictionaries' key sets equal and the key order
      exact. */
  lemma LoadKeepsValid(reg: Registry, msgId: string, path: Option<string>, modelId: Option<string>,
                       load: (Loader, string) -> Attempt<LoadedModel>)
    requires Valid(reg)
    ensures Valid(HandleLoadModel(reg, msgId, path, modelId, load).0)
  {
    var r := HandleLoadModel(reg, msgId, path, modelId, load);
    if r.0 != reg {
      var info := r.1.response.result.value;
      assert r.0 == Insert(reg, info.modelId, r.0.models[info.modelId], info.modelType);
    }
  }

  /** The call `handle_predict` makes: `predict_proba` when the sklearn model
      has it, `predict` otherwise. */
  function CallFor(kind: Kind, m: LoadedModel): (c: Call)
    ensures c == KerasPredict <==> kind == Keras
    ensures c == TfliteInvoke <==> kind == Tflite
    ensures c == SklearnPredictProba <==> kind == Sklearn && m.hasPredictProba
    ensures c == SklearnPredict <==> kind == Sklearn && !m.hasPredictProba
  {
    match kind
    case Keras => KerasPredict
    case Sklearn => if m.hasPredictProba then SklearnPredictProba else SklearnPredict
    case Tflite => TfliteInvoke
  }

  /** `prediction.tolist()`, after the column reshape of a plain sklearn
      `predict`. */
  function Shaped(call: Call, t: Tensor): (r: Tensor)
    ensures call != SklearnPredict ==> r == t
    ensures call == SklearnPredict ==> Elements(r.shape) == Elements(t.shape) && |r.shape| != 1
    ensures call == SklearnPredict && |t.shape| == 1 ==> r.shape == t.shape + [1]
    ensures call == SklearnPredict && |t.shape| != 1 ==> r == t
  {
    if call == SklearnPredict then Tensor(AsColumn(t.shape)) else t
  }

  /** `handle_predict`: it reads the registry and never changes it. */
  function HandlePredict(reg: Registry, msgId: string, modelId: Option<string>, input: Conversion,
                         infer: (Call, LoadedModel, Shape) -> Attempt<Tensor>): (resp: Response)
    requires reg.models.Keys == reg.modelTypes.Keys
    ensures resp.id == msgId
    ensures resp.success ==> modelId.Some? && modelId.value in reg.models && input.Converted?
    ensures modelId.None? || modelId.value !in reg.models ==>
      resp == Fail(msgId, "Model " + Display(modelId) + " not loaded")
    ensures resp.success ==>
      var m := reg.models[modelId.value];
      var call := CallFor(reg.modelTypes[modelId.value], m);
      var out := infer(call, m, WithBatchDim(input.shape));
      out.Returned? && resp.result == Some(Prediction(Shaped(call, out.value)))
    ensures modelId.Some? && modelId.value in reg.models ==>
      var m := reg.models[modelId.value];
      var call := CallFor(reg.modelTypes[modelId.value], m);
      && (input.Refused? ==> resp == Fail(msgId, input.reason))
      && (input.Converted? ==>
            var out := infer(call, m, WithBatchDim(input.shape));
            resp == if out.Returned? then Succeed(msgId, Prediction(Shaped(call, out.value)))
                    else Fail(msgId, out.message))
  {
    if modelId.None? || modelId.value !in reg.models then
      Fail(msgId, "Model " + Display(modelId) + " not loaded")
    else
      var m := reg.models[modelId.value];
      var kind := reg.modelTypes[modelId.value];
      match input
      case Refused(e) => Fail(msgId, e)
      case Converted(shape) =>
        var call := CallFor(kind, m);
        match infer(call, m, WithBatchDim(shape))
        case Raised(e) => Fail(msgId, e)
        case Returned(t) => Succeed(msgId, Prediction(Shaped(call, t)))
  }

  /** `handle_unload_model`. */
  function HandleUnloadModel(reg: Registry, msgId: string, modelId: Option<string>): (r: (Registry, Response))
    ensures Valid(reg) ==> Valid(r.0)
    ensures r.1.id == msgId
    ensures r.1.success <==> modelId.Some? && modelId.value in reg.models
    ensures r.1.success ==> r.0 == Remove(reg, modelId.value)
    ensures !r.1.success ==> r.0 == reg && r.1 == Fail(msgId, "Model " + Display(modelId) + " not loaded")
  {
    if modelId.Some? && modelId.value in reg.models then
      (Remove(reg, modelId.value), Succeed(msgId, Note("Model " + modelId.value + " unloaded")))
    else
      (reg, Fail(msgId, "Model " + Display(modelId) + " not loaded"))
  }

  /** `handle_status`: the loaded ids in insertion order and their types. */
  function HandleStatus(reg: Registry, msgId: string): (resp: Response)
    ensures resp.success && resp.id == msgId && resp.result.Some? && resp.result.value.StatusInfo?
    ensures resp.result.value.loadedModels == reg.order && resp.result.value.modelTypes == reg.modelTypes
    ensures Valid(reg) ==>
      var ids := resp.result.value.loadedModels;
      Distinct(ids) && (forall k :: k in ids <==> k in reg.models)
  {
    Succeed(msgId, StatusInfo(reg.order, reg.modelTypes))
  }

  /** The response to one command object and whether the loop stops. */
  datatype Dispatched = Dispatched(reg: Registry, response: Response, stop: bool)

  const Commands: set<string> := {"load_model", "predict", "unload_model", "status", "shutdown", "ping"}

  /** The `try` block of `main` for one command object: the handler chosen
      by `command`, with an exception that escapes the handler turned into
      an "Error: ..." response. */
  function Dispatch(reg: Registry, msg: Message, env: Env): (d: Dispatched)
    requires reg.models.Keys == reg.modelTypes.Keys
    ensures d.response.id == msg.id.GetOr("unknown")
    ensures d.stop <==> msg.command == Some("shutdown")
    ensures d.stop ==> d.response.success && d.reg == reg
    ensures msg.command.GetOr("") !in Commands ==>
      d.reg == reg && d.response == Fail(msg.id.GetOr("unknown"), "Unknown command: " + msg.command.GetOr(""))
    ensures Valid(reg) ==> Valid(d.reg)
    ensures var id := msg.id.GetOr("unknown");
      && (msg.command == Some("load_model") ==>
            var (r, h) := HandleLoadModel(reg, id, msg.modelPath, msg.modelId, env.load);
            d.reg == r && d.response == if h.Replied? then h.response else Fail(id, "Error: " + h.message))
      && (msg.command == Some("predict") ==>
            d.reg == reg && d.response == HandlePredict(reg, id, msg.modelId, msg.inputData, env.infer))
      && (msg.command == Some("unload_model") ==> (d.reg, d.response) == HandleUnloadModel(reg, id, msg.modelId))
      && (msg.command == Some("status") ==> d.reg == reg && d.response == HandleStatus(reg, id))
      && (msg.command == Some("shutdown") ==> d.response == Succeed(id, Note("Shutting down")))
      && (msg.command == Some("ping") ==> d == Dispatched(reg, Succeed(id, Note("pong")), false))
  {
    var id := msg.id.GetOr("unknown");
    var command := msg.command.GetOr("");
    if command == "load_model" then
      var (r, h) := HandleLoadModel(reg, id, msg.modelPath, msg.modelId, env.load);
      assert Valid(reg) ==> Valid(r) by {
        if Valid(reg) { LoadKeepsValid(reg, id, msg.modelPath, msg.modelId, env.load); }
      }
      match h
      case Replied(resp) => Dispatched(r, resp, false)
      case Escaped(e) => Dispatched(r, Fail(id, "Error: " + e), false)
    else if command == "predict" then
      Dispatched(reg, HandlePredict(reg, id, msg.modelId, msg.inputData, env.infer), false)
    else if command == "unload_model" then
      var (r, resp) := HandleUnloadModel(reg, id, msg.modelId);
      Dispatched(r, resp, false)
    else if command == "status" then
      Dispatched(reg, HandleStatus(reg, id), false)
    else if command == "shutdown" then
      Dispatched(reg, Succeed(id, Note("Shutting down")), true)
    else if command == "ping" then
      Dispatched(reg, Succeed(id, Note("pong")), false)
    else
      Dispatched(reg, Fail(id, "Unknown command: " + command), false)
  }

  /** Why the read loop ended: input ran out, a `shutdown` command, or an
      exception outside every `try` (which ends the process). */
  datatype Halt = EndOfInput | ShutdownCommand | Crashed

  /** The effect of one input line: the new registry, what was written, and
      whether the loop ends here. */
  datatype Step = Step(reg: Registry, out: seq<Response>, halt: Option<Halt>)

  /** One iteration of the `for line in sys.stdin` loop. A JSON value that is
      not an object makes `msg.get` raise outside every `try`. */
  function HandleLine(reg: Registry, line: string, env: Env): (s: Step)
    requires reg.models.Keys == reg.modelTypes.Keys
    ensures |s.out| <= 1
    ensures Strip(line) == "" ==> s == Step(reg, [], None)
    ensures s.halt.Some? ==> s.halt.value != EndOfInput
    ensures s.halt == Some(ShutdownCommand) ==> |s.out| == 1 && s.out[0].success
    ensures Valid(reg) ==> Valid(s.reg)
    ensures Strip(line) != "" && env.decode(Strip(line)).InvalidJson? ==>
      s == Step(reg, [Fail("error", "Invalid JSON: " + env.decode(Strip(line)).reason)], None)
    ensures Strip(line) != "" && (env.decode(Strip(line)).Uncaught? || env.decode(Strip(line)).NotAnObject?) ==>
      s == Step(reg, [], Some(Crashed))
  {
    var text := Strip(line);
    if text == "" then Step(reg, [], None)
    else
      match env.decode(text)
      case InvalidJson(e) => Step(reg, [Fail("error", "Invalid JSON: " + e)], None)
      case Uncaught(_) => Step(reg, [], Some(Crashed))
      case NotAnObject => Step(reg, [], Some(Crashed))
      case Object(msg) =>
        var d := Dispatch(reg, msg, env);
        Step(d.reg, [d.response], if d.stop then Some(ShutdownCommand) else None)
  }

  /** A command line is answered by its dispatch. */
  lemma HandleLineDispatches(reg: Registry, line: string, env: Env, msg: Message)
    requires reg.models.Keys == reg.modelTypes.Keys
    requires Strip(line) != "" && env.decode(Strip(line)) == Object(msg)
    ensures var d := Dispatch(reg, msg, env);
      HandleLine(reg, line, env) == Step(d.reg, [d.response], if d.stop then Some(ShutdownCommand) else None)
  {
  }

  /** What the read loop leaves behind: the registry, the responses written
      in order, and why it ended. */
  datatype Outcome = Outcome(reg: Registry, responses: seq<Response>, halt: Halt)

  /** The read loop over the remaining input lines. It ends on a `shutdown`
      only after answering it with success, and it ends early only on a
      line it has read. */
  function ReadLoop(reg: Registry, lines: seq<string>, env: Env): (o: Outcome)
    requires Valid(reg)
    ensures o.halt == ShutdownCommand ==> o.responses != [] && o.responses[|o.responses| - 1].success
    ensures o.halt != EndOfInput ==> lines != []
    ensures lines == [] ==> o == Outcome(reg, [], EndOfInput)
    decreases |lines|
  {
    if lines == [] then Outcome(reg, [], EndOfInput)
    else
      var s := HandleLine(reg, lines[0], env);
      if s.halt.Some? then Outcome(s.reg, s.out, s.halt.value)
      else Prefixed(s.out, ReadLoop(s.reg, lines[1..], env))
  }

  /** The read loop's outcome with `pre` written before its responses. */
  function Prefixed(pre: seq<Response>, o: Outcome): (r: Outcome)
    ensures r.reg == o.reg && r.halt == o.halt
    ensures |r.responses| == |pre| + |o.responses|
  {
    Outcome(o.reg, pre + o.responses, o.halt)
  }

  /** The read loop handles its first line, then either stops or goes on
      with the rest; `pre` are the responses written before it. */
  lemma ReadLoopStep(pre: seq<Response>, reg: Registry, lines: seq<string>, env: Env)
    requires Valid(reg) && lines != []
    ensures var s := HandleLine(reg, lines[0], env);
      Prefixed(pre, ReadLoop(reg, lines, env))
        == if s.halt.Some? then Outcome(s.reg, pre + s.out, s.halt.value)
           else Prefixed(pre + s.out, ReadLoop(s.reg, lines[1..], env))
  {
    var s := HandleLine(reg, lines[0], env);
    if s.halt.None? {
      var o := ReadLoop(s.reg, lines[1..], env);
      assert pre + (s.out + o.responses) == (pre + s.out) + o.responses;
    }
  }

  /** `main`: the ready message, then the read loop. */
  function Serve(reg: Registry, lines: seq<string>, env: Env): (o: Outcome)
    requires Valid(reg)
    ensures |o.responses| >= 1 && o.responses[0] == Ready
  {
    Prefixed([Ready], ReadLoop(reg, lines, env))
  }
}
