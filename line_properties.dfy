/** Properties of the line-protocol bridge, stated over the transitions of
    LineProtocol (and so, by their contracts, over the class LineBridge). */
module LineProperties {
  import opened Wrappers
  import opened PyPath
  import opened Tensors
  import opened OrderedKeys
  import opened LineProtocol

  /** Without a `model_id`, or with an empty one, the model is looked up and
      registered under the basename of its path. */
  lemma DefaultIdIsBasename(reg: Registry, msgId: string, path: string, modelId: Option<string>,
                            load: (Loader, string) -> Attempt<LoadedModel>)
    requires modelId.None? || modelId == Some("")
    ensures var r := HandleLoadModel(reg, msgId, Some(path), modelId, load);
      && (Basename(path) in reg.models ==> r == (reg, Replied(Succeed(msgId, Note("Model " + Basename(path) + " already loaded")))))
      && (r.0 != reg ==> r.0.models.Keys == reg.models.Keys + {Basename(path)})
  {
  }

  /** A load under an id that is already present answers "already loaded",
      leaves both dictionaries alone and calls no loader: the answer is the
      same whatever the loaders would do, and whatever the extension. */
  lemma AlreadyLoadedShortCircuits(reg: Registry, msgId: string, path: Option<string>, modelId: Option<string>,
                                   load1: (Loader, string) -> Attempt<LoadedModel>,
                                   load2: (Loader, string) -> Attempt<LoadedModel>)
    requires IdOrBasename(modelId, path).Returned? && IdOrBasename(modelId, path).value in reg.models
    ensures var id := IdOrBasename(modelId, path).value;
      && HandleLoadModel(reg, msgId, path, modelId, load1) == HandleLoadModel(reg, msgId, path, modelId, load2)
      && HandleLoadModel(reg, msgId, path, modelId, load1) == (reg, Replied(Succeed(msgId, Note("Model " + id + " already loaded"))))
  {
  }

  /** Loading the same model twice changes nothing the second time. */
  lemma LoadIsIdempotent(reg: Registry, msgId1: string, msgId2: string, path: Option<string>, modelId: Option<string>,
                         load1: (Loader, string) -> Attempt<LoadedModel>,
                         load2: (Loader, string) -> Attempt<LoadedModel>)
    ensures var (r1, h1) := HandleLoadModel(reg, msgId1, path, modelId, load1);
      h1.Replied? && h1.response.success ==> HandleLoadModel(r1, msgId2, path, modelId, load2).0 == r1
  {
    var (r1, h1) := HandleLoadModel(reg, msgId1, path, modelId, load1);
    if h1.Replied? && h1.response.success && r1 != reg {
      assert IdOrBasename(modelId, path).value in r1.models;
    }
  }

  /** For a new id, the lower-cased extension alone decides the outcome: an
      unsupported one fails with that extension in the message and changes
      nothing, and a successful load stores the kind its loader reports. */
  lemma LoadDispatchesOnExtension(reg: Registry, msgId: string, path: string, modelId: Option<string>,
                                  load: (Loader, string) -> Attempt<LoadedModel>)
    requires IdOrBasename(modelId, Some(path)).Returned? && IdOrBasename(modelId, Some(path)).value !in reg.models
    ensures var id := IdOrBasename(modelId, Some(path)).value;
      var ext := Lower(Extension(path));
      var (r, h) := HandleLoadModel(reg, msgId, Some(path), modelId, load);
      && (ext !in SupportedExtensions ==> r == reg && h == Replied(Fail(msgId, "Unsupported model format: " + ext)))
      && (h.Replied? && h.response.success ==>
            ext in SupportedExtensions && id in r.modelTypes && r.modelTypes[id] == LoaderFor(ext).value.Tag())
  {
  }

  /** Extension matching ignores case: two paths that agree up to case get
      the same loader. */
  lemma ExtensionCaseInsensitive(p: string, q: string)
    requires Lower(p) == Lower(q)
    ensures LoaderFor(Lower(Extension(p))) == LoaderFor(Lower(Extension(q)))
  {
    ExtensionOfLower(p);
    ExtensionOfLower(q);
  }

  /** Unloading a present id removes exactly that id from both dictionaries
      and from the key order; every other entry keeps its value. */
  lemma UnloadRemovesOnlyThatId(reg: Registry, msgId: string, id: string)
    requires Valid(reg) && id in reg.models
    ensures var (r, resp) := HandleUnloadModel(reg, msgId, Some(id));
      && resp == Succeed(msgId, Note("Model " + id + " unloaded"))
      && r.models.Keys == reg.models.Keys - {id} && r.modelTypes.Keys == reg.modelTypes.Keys - {id}
      && (forall k :: k in r.models ==> r.models[k] == reg.models[k] && r.modelTypes[k] == reg.modelTypes[k])
      && r.order == Without(reg.order, id)
  {
  }

  /** After an unload, predicting on that id reports it as not loaded. */
  lemma UnloadThenPredictFails(reg: Registry, msgId1: string, msgId2: string, id: string, input: Conversion,
                               infer: (Call, LoadedModel, Shape) -> Attempt<Tensor>)
    requires Valid(reg)
    ensures var r := HandleUnloadModel(reg, msgId1, Some(id)).0;
      HandlePredict(r, msgId2, Some(id), input, infer) == Fail(msgId2, "Model " + id + " not loaded")
  {
  }

  /** A 1-D input of n numbers is treated exactly as the 1-by-n input. */
  lemma PredictTreatsVectorAsRow(reg: Registry, msgId: string, modelId: Option<string>, n: nat,
                                 infer: (Call, LoadedModel, Shape) -> Attempt<Tensor>)
    requires reg.models.Keys == reg.modelTypes.Keys
    ensures HandlePredict(reg, msgId, modelId, Converted([n]), infer)
         == HandlePredict(reg, msgId, modelId, Converted([1, n]), infer)
  {
    assert WithBatchDim([n]) == [1, n] == WithBatchDim([1, n]);
  }

  /** Every line handled keeps the two dictionaries' key sets equal. */
  lemma {:induction false} ReadLoopKeepsValid(reg: Registry, lines: seq<string>, env: Env)
    requires Valid(reg)
    ensures Valid(ReadLoop(reg, lines, env).reg)
    decreases |lines|
  {
    if lines != [] {
      var s := HandleLine(reg, lines[0], env);
      if s.halt.None? {
        ReadLoopKeepsValid(s.reg, lines[1..], env);
      }
    }
  }

  /** At most one response per input line, besides the ready message. */
  lemma {:induction false} AtMostOneResponsePerLine(reg: Registry, lines: seq<string>, env: Env)
    requires Valid(reg)
    ensures |ReadLoop(reg, lines, env).responses| <= |lines|
    decreases |lines|
  {
    if lines != [] {
      var s := HandleLine(reg, lines[0], env);
      if s.halt.None? {
        AtMostOneResponsePerLine(s.reg, lines[1..], env);
      }
    }
  }

  /** A blank line is skipped without a response. */
  lemma BlankLineIsSkipped(reg: Registry, line: string, rest: seq<string>, env: Env)
    requires Valid(reg)
    requires forall i :: 0 <= i < |line| ==> IsSpace(line[i])
    ensures ReadLoop(reg, [line] + rest, env) == ReadLoop(reg, rest, env)
  {
    assert ([line] + rest)[1..] == rest;
  }

  /** A line that is not valid JSON is answered under the id "error" and the
      loop goes on with the next line. */
  lemma InvalidJsonIsAnsweredAndSkipped(reg: Registry, line: string, rest: seq<string>, env: Env, reason: string)
    requires Valid(reg)
    requires Strip(line) != "" && env.decode(Strip(line)) == InvalidJson(reason)
    ensures var o := ReadLoop(reg, rest, env);
      ReadLoop(reg, [line] + rest, env) == Outcome(o.reg, [Fail("error", "Invalid JSON: " + reason)] + o.responses, o.halt)
  {
    assert ([line] + rest)[1..] == rest;
  }

  /** Any other command line is answered by its dispatch, and the loop goes
      on with the next line from the registry the command left. */
  lemma CommandIsAnsweredAndLoopGoesOn(reg: Registry, line: string, rest: seq<string>, env: Env, msg: Message)
    requires Valid(reg)
    requires Strip(line) != "" && env.decode(Strip(line)) == Object(msg) && msg.command != Some("shutdown")
    ensures var d := Dispatch(reg, msg, env);
      var o := ReadLoop(d.reg, rest, env);
      ReadLoop(reg, [line] + rest, env) == Outcome(o.reg, [d.response] + o.responses, o.halt)
  {
    HandleLineDispatches(reg, line, env, msg);
    assert ([line] + rest)[1..] == rest;
  }

  /** A `shutdown` command is answered with one success response and nothing
      after it is read. */
  lemma ShutdownAnswersOnceAndStops(reg: Registry, line: string, rest: seq<string>, env: Env, msg: Message)
    requires Valid(reg)
    requires Strip(line) != "" && env.decode(Strip(line)) == Object(msg) && msg.command == Some("shutdown")
    ensures ReadLoop(reg, [line] + rest, env)
         == Outcome(reg, [Succeed(msg.id.GetOr("unknown"), Note("Shutting down"))], ShutdownCommand)
  {
  }

  /** A line that is valid JSON but not an object (`42`, `[1]`, `null`) makes
      `msg.get` raise outside every `try`, and so does a decoder exception
      other than `JSONDecodeError`: the bridge ends without answering the
      line, and nothing after it is read. */
  lemma NonObjectLineEndsTheBridge(reg: Registry, line: string, rest: seq<string>, env: Env)
    requires Valid(reg)
    requires Strip(line) != "" && (env.decode(Strip(line)) == NotAnObject || env.decode(Strip(line)).Uncaught?)
    ensures ReadLoop(reg, [line] + rest, env) == Outcome(reg, [], Crashed)
  {
  }
}
