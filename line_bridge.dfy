/** The line-protocol bridge as the program runs it: the two module-level
    dictionaries are fields updated in place, and `main` is a loop over the
    input lines. Every method is proved to perform the transition that
    LineProtocol defines. */
module LineBridge {
  import opened Wrappers
  import opened PyPath
  import opened Tensors
  import opened OrderedKeys
  import LP = LineProtocol

  class Bridge {
    /** `_models`, `_model_types`, and the insertion order of their keys. */
    var models: map<string, LP.LoadedModel>
    var modelTypes: map<string, LP.Kind>
    var order: seq<string>

    function Contents(): LP.Registry
      reads this
    {
      LP.Registry(models, modelTypes, order)
    }

    ghost predicate Valid()
      reads this
    {
      LP.Valid(Contents())
    }

    /** The process starts with no models loaded. */
    constructor ()
      ensures Valid() && Contents() == LP.Empty
    {
      models := map[];
      modelTypes := map[];
      order := [];
    }

    method HandleLoadModel(msgId: string, path: Option<string>, modelId: Option<string>,
                           load: (LP.Loader, string) -> Attempt<LP.LoadedModel>) returns (h: LP.Handled)
      requires Valid()
      modifies this
      ensures Valid()
      ensures (Contents(), h) == LP.HandleLoadModel(old(Contents()), msgId, path, modelId, load)
    {
      LP.LoadKeepsValid(Contents(), msgId, path, modelId, load);
      var chosen := IdOrBasename(modelId, path);
      if chosen.Raised? {
        return LP.Escaped(chosen.message);
      }
      var id := chosen.value;
      if id in models {
        return LP.Replied(LP.Succeed(msgId, LP.Note("Model " + id + " already loaded")));
      }
      if path.None? {
        return LP.Escaped(PathTypeError);
      }
      var ext := Lower(Extension(path.value));
      var loader := LP.LoaderFor(ext);
      if loader.None? {
        return LP.Replied(LP.Fail(msgId, "Unsupported model format: " + ext));
      }
      var loaded := load(loader.value, path.value);
      if loaded.Raised? {
        return LP.Replied(LP.Fail(msgId, loaded.message));
      }
      var kind := loader.value.Tag();
      models := models[id := loaded.value];
      modelTypes := modelTypes[id := kind];
      order := order + [id];
      h := LP.Replied(LP.Succeed(msgId, LP.LoadedInfo("Model " + id + " loaded successfully", id, kind)));
    }

    method HandlePredict(msgId: string, modelId: Option<string>, input: Conversion,
                         infer: (LP.Call, LP.LoadedModel, Shape) -> Attempt<Tensor>) returns (resp: LP.Response)
      requires Valid()
      ensures resp == LP.HandlePredict(Contents(), msgId, modelId, input, infer)
    {
      if modelId.None? || modelId.value !in models {
        return LP.Fail(msgId, "Model " + LP.Display(modelId) + " not loaded");
      }
      var m := models[modelId.value];
      var kind := modelTypes[modelId.value];
      if input.Refused? {
        return LP.Fail(msgId, input.reason);
      }
      var batched := WithBatchDim(input.shape);
      var call := LP.CallFor(kind, m);
      var prediction := infer(call, m, batched);
      if prediction.Raised? {
        return LP.Fail(msgId, prediction.message);
      }
      resp := LP.Succeed(msgId, LP.Prediction(LP.Shaped(call, prediction.value)));
    }

    method HandleUnloadModel(msgId: string, modelId: Option<string>) returns (resp: LP.Response)
      requires Valid()
      modifies this
      ensures Valid()
      ensures (Contents(), resp) == LP.HandleUnloadModel(old(Contents()), msgId, modelId)
    {
      if modelId.Some? && modelId.value in models {
        var id := modelId.value;
        models := models - {id};
        modelTypes := modelTypes - {id};
        order := Without(order, id);
        resp := LP.Succeed(msgId, LP.Note("Model " + id + " unloaded"));
      } else {
        resp := LP.Fail(msgId, "Model " + LP.Display(modelId) + " not loaded");
      }
    }

    method HandleStatus(msgId: string) returns (resp: LP.Response)
      requires Valid()
      ensures resp == LP.HandleStatus(Contents(), msgId)
    {
      resp := LP.Succeed(msgId, LP.StatusInfo(order, modelTypes));
    }

    /** The `try` block of `main`'s loop body for one command object. */
    method Dispatch(msg: LP.Message, env: LP.Env) returns (resp: LP.Response, stop: bool)
      requires Valid()
      modifies this
      ensures Valid()
      ensures LP.Dispatch(old(Contents()), msg, env) == LP.Dispatched(Contents(), resp, stop)
    {
      var id := msg.id.GetOr("unknown");
      var command := msg.command.GetOr("");
      stop := false;
      if command == "load_model" {
        var h := HandleLoadModel(id, msg.modelPath, msg.modelId, env.load);
        resp := if h.Replied? then h.response else LP.Fail(id, "Error: " + h.message);
      } else if command == "predict" {
        resp := HandlePredict(id, msg.modelId, msg.inputData, env.infer);
      } else if command == "unload_model" {
        resp := HandleUnloadModel(id, msg.modelId);
      } else if command == "status" {
        resp := HandleStatus(id);
      } else if command == "shutdown" {
        resp := LP.Succeed(id, LP.Note("Shutting down"));
        stop := true;
      } else if command == "ping" {
        resp := LP.Succeed(id, LP.Note("pong"));
      } else {
        resp := LP.Fail(id, "Unknown command: " + command);
      }
    }

    /** One iteration of `main`'s loop: strip the line, skip it when blank,
        decode it, and dispatch the command. */
    method HandleLine(line: string, env: LP.Env) returns (emitted: seq<LP.Response>, stop: Option<LP.Halt>)
      requires Valid()
      modifies this
      ensures Valid()
      ensures LP.HandleLine(old(Contents()), line, env) == LP.Step(Contents(), emitted, stop)
    {
      var text := Strip(line);
      if text == "" {
        return [], None;
      }
      match env.decode(text) {
        case InvalidJson(e) =>
          emitted, stop := [LP.Fail("error", "Invalid JSON: " + e)], None;
        case Uncaught(_) =>
          emitted, stop := [], Some(LP.Crashed);
        case NotAnObject =>
          emitted, stop := [], Some(LP.Crashed);
        case Object(msg) =>
          LP.HandleLineDispatches(Contents(), line, env, msg);
          var resp, shutdown := Dispatch(msg, env);
          emitted := [resp];
          stop := if shutdown then Some(LP.ShutdownCommand) else None;
      }
    }

    /** `main`: send the ready message, then handle the lines one by one
        until input ends, a `shutdown` command arrives, or a line that is
        valid JSON but not an object ends the process. */
    method Serve(lines: seq<string>, env: LP.Env) returns (out: seq<LP.Response>, halt: LP.Halt)
      requires Valid()
      modifies this
      ensures Valid()
      ensures LP.Serve(old(Contents()), lines, env) == LP.Outcome(Contents(), out, halt)
    {
      out := [LP.Ready];
      halt := LP.EndOfInput;
      var i := 0;
      while i < |lines|
        invariant 0 <= i <= |lines|
        invariant Valid()
        invariant LP.Serve(old(Contents()), lines, env) == LP.Prefixed(out, LP.ReadLoop(Contents(), lines[i..], env))
      {
        assert lines[i..][0] == lines[i] && lines[i..][1..] == lines[i + 1..];
        LP.ReadLoopStep(out, Contents(), lines[i..], env);
        var emitted, stop := HandleLine(lines[i], env);
        out := out + emitted;
        i := i + 1;
        if stop.Some? {
          halt := stop.value;
          return;
        }
      }
    }
  }
}
