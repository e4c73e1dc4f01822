# Inference bridges, modelled in Dafny

This project models the two resident inference bridges of a Node-RED machine-learning
package. Both keep a registry of loaded models and route commands to it.

* **The line-protocol bridge** (`nodes/python_bridge.py`) is a subprocess.
  * It reads one JSON command per input line and writes one JSON response per line.
  * It keeps loaded models in two parallel dictionaries, `_models` and `_model_types`.
  * It picks a Keras, scikit-learn (joblib or pickle) or TFLite loader from the lower-cased file extension.
  * Its `main` loop sends a ready message, then handles lines until input ends or a `shutdown` arrives.
* **The HTTP bridge** (`nodes/max_bridge.py`) has the routes `/load`, `/predict`, `/unload`,
  `/batch_predict`, `/status` and `/health`.
  * It keeps `_models`, a lazily created and cached MAX Engine session, and a `_stats` record.
  * It loads a model with MAX Engine, falls back to ONNX Runtime, or uses ONNX Runtime alone.
  * `_stats` holds request, inference and error counters and a running mean of inference latency.

Each bridge is modelled in three files:

* A pure specification, `LineProtocol` or `MaxProtocol`. Every handler is a function from the old
  state to the new state and the reply, with a contract for its outcomes.
* An imperative model, `LineBridge.Bridge` or `MaxBridge.Server`. It is a class whose fields are the
  module-level globals. Its methods update those fields in place. Each method is proved to perform
  exactly the transition the specification function defines. `LineBridge.Bridge.Serve` is the
  `for line in sys.stdin` loop, with its loop invariant.
* The properties, `LineProperties` or `MaxProperties`, as lemmas relating several calls or several
  environments.

The shared helpers are:

* `PyPath`: `os.path.basename`, the extension of `os.path.splitext`, `str.lower`, `str.strip`, and
  `model_id or basename(path)`.
* `Tensors`: arrays by shape only, and the two reshape rules.
* `OrderedKeys`: a dict's insertion order of keys.
* `Wrappers`: `Option`, and `Attempt` (a call returns a value or raises an exception with message
  `str(e)`).

Everything outside the bridges is a parameter; nothing in the model performs I/O. A bundle `Env`
of function-typed fields stands for:

* `json.loads` on a stripped line;
* `os.path.exists`;
* the model loaders, including MAX and ONNX Runtime session creation;
* the backend inference calls.

Each of these returns an outcome: a value, or an exception message. Measured latencies
are real-valued inputs of the routes.

The running mean of `/predict` (nodes/max_bridge.py, lines 371-375) is computed with
n = `inference_total`: the update `(avg·(n-1) + t)/n` is the mean of n measured latencies
only if every counted inference was measured. But `inference_total` grows at line 344, before the request
is validated (lines 351-358) and before the backend call can raise, so a rejected request is
counted without a latency and dilutes the mean. `/batch_predict` dilutes it the same way: it adds
`len(inputs)` to `inference_total` (line 452) but adds no latency to the mean, so later `/predict`
averages divide by a count that includes those batch samples. The model keeps this behaviour as written:
`MaxProperties.RejectedPredictDilutesMean` exhibits the first case, and `MaxProperties.SuccessfulPredictKeepsMean`
states when the average is the true mean: every counted inference, including any batch sample, has a measured latency.

## Model

| member | source | states |
|---|---|---|
| LineProtocol.WireKeys | nodes/python_bridge.py:34-47 | a response's JSON keys start with `id`, `success`; `result` and `error` appear exactly when given |
| LineProtocol.Insert | nodes/python_bridge.py:107-108 | both dictionaries get exactly that id with the given model and kind, the id goes last in the key order, and the invariant is kept |
| LineProtocol.Remove | nodes/python_bridge.py:180-181 | deleting from both dictionaries keeps the invariant and removes exactly that key |
| LineProtocol.LoaderFor | nodes/python_bridge.py:94-105 | a loader exists iff the extension is one of the five supported; `.keras`/`.h5` give keras, `.pkl`/`.joblib` sklearn, `.tflite` tflite; joblib is used exactly for `.joblib` |
| LineProtocol.HandleLoadModel | nodes/python_bridge.py:85-117 | the `NoneType` path error escapes iff neither id nor path is given, or the id is new and the path missing; a failed or escaped load leaves the registry unchanged; a new id with a path goes on to `LoadNew`, so otherwise exactly the reported model is inserted |
| LineProtocol.LoadNew | nodes/python_bridge.py:94-117 | for a new id: an unsupported lower-cased extension fails with `Unsupported model format: <ext>`; a raising loader fails with its message; a returning loader gives `Model <id> loaded successfully` and inserts its model with the loader's kind; only the success changes the registry |
| LineProtocol.LoadKeepsValid | nodes/python_bridge.py:107-108 | a load keeps the two dictionaries' key sets equal and the key order exact |
| LineProtocol.CallFor | nodes/python_bridge.py:139-148 | keras models call `predict`, tflite models invoke the interpreter, sklearn models call `predict_proba` iff they have it and `predict` otherwise |
| LineProtocol.Shaped | nodes/python_bridge.py:149-151 | only a plain sklearn `predict` is reshaped: a vector of n becomes n rows of one column, other ranks and other calls are kept |
| LineProtocol.HandlePredict | nodes/python_bridge.py:120-174 | an absent or unknown id fails with `Model <id> not loaded`; for a loaded id a refused conversion fails with its reason, and otherwise the backend call chosen by kind, on the batch-dimensioned input, gives the success (column-reshaped for plain sklearn `predict`) or fails with its message |
| LineProtocol.HandleUnloadModel | nodes/python_bridge.py:177-184 | succeeds iff the id is loaded, and then removes exactly it; otherwise fails with `Model <id> not loaded` and changes nothing |
| LineProtocol.HandleStatus | nodes/python_bridge.py:187-220 | always succeeds; it lists the key order and the kinds, so the loaded ids appear each once, in insertion order |
| LineProtocol.Dispatch | nodes/python_bridge.py:248-275 | the reply id is `id` or `unknown`; each known command reaches its handler (an escaped load answers `Error: ...`), `ping` answers `pong`, `shutdown` answers success and stops, which nothing else does; an unknown command answers `Unknown command: <cmd>` and changes nothing; the invariant is kept |
| LineProtocol.HandleLine | nodes/python_bridge.py:237-275 | at most one response per line; a blank line does nothing; an undecodable line is answered `Invalid JSON: ...` under id `error`; a non-object value or another decoder exception ends the process without a response; a shutdown stops with one success response; the invariant is kept |
| LineProtocol.HandleLineDispatches | nodes/python_bridge.py:242-275 | a non-blank line that decodes to an object is answered with exactly its dispatch's response and state, stopping iff it was `shutdown` |
| LineProtocol.ReadLoop | nodes/python_bridge.py:237-275 | the loop ends on `shutdown` only after answering it with success as its last response, ends early only on a line it read, and on no input does nothing |
| LineProtocol.Prefixed | nodes/python_bridge.py:237-275 | writing responses before a loop outcome keeps its registry and stop reason and adds their number to its responses |
| LineProtocol.ReadLoopStep | nodes/python_bridge.py:237-275 | after any responses already written, the loop handles its first line, then stops if that line stopped it and otherwise goes on with the rest from the new registry, after that line's responses |
| LineProtocol.Serve | nodes/python_bridge.py:234-237 | the first response is the `ready` success message |
| LineBridge.Bridge.constructor | nodes/python_bridge.py:30-32 | the process starts with both dictionaries empty |
| LineBridge.Bridge.HandleLoadModel | nodes/python_bridge.py:85-117 | in-place load performing exactly `LineProtocol.HandleLoadModel` |
| LineBridge.Bridge.HandlePredict | nodes/python_bridge.py:120-174 | the prediction `LineProtocol.HandlePredict` defines, changing nothing |
| LineBridge.Bridge.HandleUnloadModel | nodes/python_bridge.py:177-184 | in-place delete performing exactly `LineProtocol.HandleUnloadModel` |
| LineBridge.Bridge.HandleStatus | nodes/python_bridge.py:187-220 | the status reply `LineProtocol.HandleStatus` defines |
| LineBridge.Bridge.Dispatch | nodes/python_bridge.py:248-275 | the command dispatch `LineProtocol.Dispatch` defines, in place |
| LineBridge.Bridge.HandleLine | nodes/python_bridge.py:237-275 | one loop iteration as `LineProtocol.HandleLine` defines, in place |
| LineBridge.Bridge.Serve | nodes/python_bridge.py:234-275 | the loop writes the ready message and then exactly the responses, final registry and stop reason of `LineProtocol.Serve` |
| LineProperties.DefaultIdIsBasename | nodes/python_bridge.py:87-88 | without an id, or with an empty one, the model is looked up and registered under the path's basename |
| LineProperties.AlreadyLoadedShortCircuits | nodes/python_bridge.py:90-92 | a present id answers "already loaded", changes nothing, and calls no loader: the result is the same for any loaders |
| LineProperties.LoadIsIdempotent | nodes/python_bridge.py:85-117 | after a successful load, the same load again leaves the registry unchanged |
| LineProperties.LoadDispatchesOnExtension | nodes/python_bridge.py:94-108 | for a new id an unsupported extension fails with `Unsupported model format: <ext>` and changes nothing; a success stores the kind of the extension's loader |
| LineProperties.ExtensionCaseInsensitive | nodes/python_bridge.py:94 | paths equal up to case get the same loader |
| LineProperties.UnloadRemovesOnlyThatId | nodes/python_bridge.py:177-184 | unloading a present id removes exactly it from both dictionaries and the order; every other entry keeps its value |
| LineProperties.UnloadThenPredictFails | nodes/python_bridge.py:124-125 | after an unload, predicting on that id answers `Model <id> not loaded` |
| LineProperties.PredictTreatsVectorAsRow | nodes/python_bridge.py:136-137 | a 1-D input of n numbers gives the same answer as the 1-by-n input |
| LineProperties.ReadLoopKeepsValid | nodes/python_bridge.py:237-275 | over any input the two dictionaries keep equal key sets |
| LineProperties.AtMostOneResponsePerLine | nodes/python_bridge.py:237-275 | the read loop writes at most one response per input line |
| LineProperties.BlankLineIsSkipped | nodes/python_bridge.py:238-240 | an all-whitespace line gives no response and changes nothing |
| LineProperties.InvalidJsonIsAnsweredAndSkipped | nodes/python_bridge.py:242-246 | an undecodable line is answered `Invalid JSON: ...` under id `error` and the loop goes on |
| LineProperties.CommandIsAnsweredAndLoopGoesOn | nodes/python_bridge.py:248-275 | any command line other than `shutdown` is answered with its dispatch's response, and the loop goes on with the next line from the registry the command left |
| LineProperties.ShutdownAnswersOnceAndStops | nodes/python_bridge.py:264-266 | `shutdown` is answered with one success and nothing after it is read |
| LineProperties.NonObjectLineEndsTheBridge | nodes/python_bridge.py:242-249 | a JSON value that is not an object, or a decoder exception other than `JSONDecodeError`, ends the bridge without a response, and nothing after it is read |
| PyPath.Basename | nodes/python_bridge.py:88 | the basename is the suffix after the last `/` and contains no `/` |
| PyPath.Extension | nodes/python_bridge.py:94 | the extension is a suffix that starts with the only `.` in it, holds no `/`, and is shorter than the basename |
| PyPath.ExtensionIsSplitext | nodes/python_bridge.py:94 | an extension exists iff the basename holds a dot with a non-dot before it, and it is then the suffix from the last `.`, as `os.path.splitext` returns |
| PyPath.Lower | nodes/python_bridge.py:94 | lower-casing keeps the length and maps each character |
| PyPath.ExtensionOfLower | nodes/python_bridge.py:94 | taking the extension commutes with lower-casing |
| PyPath.Strip | nodes/python_bridge.py:238 | the stripped line is empty iff the line is all whitespace, and otherwise starts and ends with non-whitespace |
| PyPath.StripIsMiddle | nodes/python_bridge.py:238 | the stripped line is a slice of the line with only whitespace before and after it |
| PyPath.IdOrBasename | nodes/max_bridge.py:288 | a given non-empty id is used; otherwise the path's basename; raises the `NoneType` path error iff neither id nor path is given |
| Tensors.WithBatchDim | nodes/max_bridge.py:193-194 | a vector of n becomes `[1, n]`, every other rank is unchanged; the element count is kept |
| Tensors.AsColumn | nodes/python_bridge.py:149-150 | a vector of n becomes `[n, 1]`, every other rank is unchanged; the element count is kept |
| OrderedKeys.Without | nodes/max_bridge.py:408 | deleting a key leaves exactly the other keys, keeps them distinct, and is the identity on an absent key; on a distinct key list it takes out exactly the key's one position, so the rest keep their order |
| MaxProtocol.GetSession | nodes/max_bridge.py:81-103 | a cached session, or MAX unavailable, returns the cache; otherwise gpu:0 iff it starts, else cpu iff it starts, else none |
| MaxProtocol.Boot | nodes/max_bridge.py:484-486 | the served state is valid, has no models and zero counters, and holds the session created at start |
| MaxProtocol.Put | nodes/max_bridge.py:113-117 | recording a new id adds exactly that key, last in order, and changes nothing else |
| MaxProtocol.Providers | nodes/max_bridge.py:149-154 | exactly `[CUDA, CPU]` when CUDA is listed and `[CPU]` otherwise: CPU always last, CUDA iff listed and then first |
| MaxProtocol.LoadMax | nodes/max_bridge.py:106-138 | the session is obtained and kept cached even on failure; no session raises `MAX Engine session not available`; a raising engine load raises that load's message; success records the model under MAX |
| MaxProtocol.LoadOnnx | nodes/max_bridge.py:141-175 | without ONNX Runtime raises the `ort` NameError; a raising session creation raises its message; success records the model under ONNX; failure changes nothing |
| MaxProtocol.SelectPlan | nodes/max_bridge.py:310-320 | MAX is tried iff prefer is `max` or `auto` with MAX available; fallback iff prefer is `auto` and ONNX available |
| MaxProtocol.LoadWith | nodes/max_bridge.py:310-320 | the ONNX-only plan is `LoadOnnx`; a MAX-first plan is `LoadMax`, followed by `LoadOnnx` on the kept session exactly when MAX raised and the plan allows fallback; failures record nothing |
| MaxProtocol.Counted | nodes/max_bridge.py:283 | `requests_total` goes up by one and nothing else changes |
| MaxProtocol.Fail500 | nodes/max_bridge.py:331-337 | the except clause answers 500 with `str(e)` and counts one error |
| MaxProtocol.LoadRoute | nodes/max_bridge.py:280-337 | counts one request; an unreadable body or `basename(None)` is a 500; an empty path is 400; a present id answers `already loaded` with its backend; a new id goes on to `LoadFile`; errors count iff 500; failures leave the registry |
| MaxProtocol.LoadFile | nodes/max_bridge.py:303-329 | a missing file is 404 `Model file not found: <path>` with nothing changed; for an existing file it is 200 iff the engine load returned, answering `Model <id> loaded successfully` and adding exactly the new model with its path, and otherwise a 500 with the engine's message |
| MaxProtocol.LoadKeepsValid | nodes/max_bridge.py:280-337 | `/load` keeps the key order exact, a session only with MAX, and each model under an engine that imported |
| MaxProtocol.LoadWithKeepsValid | nodes/max_bridge.py:310-320 | the loading step alone keeps that invariant |
| MaxProtocol.Prepare | nodes/max_bridge.py:186-194 | lists are converted, other values raise for lack of `shape`, and 1-D inputs get the batch dimension |
| MaxProtocol.PredictMax | nodes/max_bridge.py:178-208 | an unknown id raises `Model <id> not loaded`; a preparation error is raised; a loaded id with a prepared input gives exactly the model's execution on it |
| MaxProtocol.OnnxOutputs | nodes/max_bridge.py:236-239 | a single output is unwrapped, any other number kept as a list |
| MaxProtocol.PredictOnnx | nodes/max_bridge.py:211-239 | an unknown id raises; a preparation error is raised; a loaded id with a prepared input gives the run's outputs in reply form, or the run's exception |
| MaxProtocol.Infer | nodes/max_bridge.py:363-367 | the backend recorded for the id decides the call: a preparation error is raised; MAX gives its execution on the prepared input; ONNX gives its run's outputs in reply form or its exception |
| MaxProtocol.RunningMean | nodes/max_bridge.py:372-375 | with n = 1 the average is the latency itself |
| MaxProperties.RunningMeanMovesTowardLatest | nodes/max_bridge.py:372-375 | the update moves the average by (t - avg)/n, so it stays between the old average and the latency |
| MaxProtocol.PredictRoute | nodes/max_bridge.py:340-390 | requests and inferences +1 always; errors +1 iff 500; validation order 400/400/404; for a loaded id it is 200 with the prediction iff inference returned, else 500 with its message; success updates the running mean with this latency; failures leave the mean |
| MaxProtocol.UnloadRoute | nodes/max_bridge.py:393-420 | an unreadable body is a 500 with its message, one error counted; 400 without id, 404 for an unknown id, success iff the id is loaded, and then exactly that key is deleted |
| MaxProtocol.NoLen | nodes/max_bridge.py:452 | the `TypeError` message of `len` names the value's type, which can be read back from it |
| MaxProtocol.BatchRoute | nodes/max_bridge.py:423-468 | 400 without id or with falsy inputs; 404 for an unknown id; then 500 if stacking, inference or `len` raises, and otherwise 200 with the predictions, `len(inputs)` as batch size and the per-sample time; success adds `len(inputs)` inferences; failures leave the count |
| MaxProtocol.Info | nodes/max_bridge.py:269 | `model_info` has the loaded ids as keys, each with its backend and path |
| MaxProtocol.Engine | nodes/max_bridge.py:251 | the reported engine is MAX iff MAX Engine imported, ONNX otherwise |
| MaxProtocol.StatusRoute | nodes/max_bridge.py:256-277 | counts a request; reports the engines, the counters after the increment, the loaded ids in insertion order, each once, and `model_info` giving each loaded id its recorded backend and path |
| MaxProtocol.Health | nodes/max_bridge.py:246-253 | 200, engine MAX iff available, the number of loaded models |
| MaxBridge.Server.constructor | nodes/max_bridge.py:36-78 | the import-time state: no models, no session, zero counters |
| MaxBridge.Server.GetInferenceSession | nodes/max_bridge.py:81-103 | assigns and returns the session `MaxProtocol.GetSession` defines, nothing else changes |
| MaxBridge.Server.LoadModelMax | nodes/max_bridge.py:106-138 | in place, exactly `MaxProtocol.LoadMax` |
| MaxBridge.Server.LoadModelOnnx | nodes/max_bridge.py:141-175 | in place, exactly `MaxProtocol.LoadOnnx` |
| MaxBridge.Server.Prepare | nodes/max_bridge.py:186-194 | exactly `MaxProtocol.Prepare` |
| MaxBridge.Server.PredictMax | nodes/max_bridge.py:178-208 | exactly `MaxProtocol.PredictMax`, changing nothing |
| MaxBridge.Server.PredictOnnx | nodes/max_bridge.py:211-239 | exactly `MaxProtocol.PredictOnnx`, changing nothing |
| MaxBridge.Server.CountError | nodes/max_bridge.py:331-337 | counts one error and answers 500 |
| MaxBridge.Server.LoadModel | nodes/max_bridge.py:280-337 | in place, exactly `MaxProtocol.LoadRoute`, keeping the invariant |
| MaxBridge.Server.Predict | nodes/max_bridge.py:340-390 | in place, exactly `MaxProtocol.PredictRoute` |
| MaxBridge.Server.UnloadModel | nodes/max_bridge.py:393-420 | in place, exactly `MaxProtocol.UnloadRoute` |
| MaxBridge.Server.BatchPredict | nodes/max_bridge.py:423-468 | in place, exactly `MaxProtocol.BatchRoute` |
| MaxBridge.Server.Status | nodes/max_bridge.py:256-277 | in place, exactly `MaxProtocol.StatusRoute` |
| MaxBridge.Server.Health | nodes/max_bridge.py:246-253 | exactly `MaxProtocol.Health`, changing nothing |
| MaxProperties.RunningMeanExtends | nodes/max_bridge.py:372-375 | the update extends the mean of n-1 latencies to the mean of n |
| MaxProperties.SuccessfulPredictKeepsMean | nodes/max_bridge.py:372-375 | while every counted inference succeeded, a successful `/predict` keeps the average equal to the true mean |
| MaxProperties.RejectedPredictDilutesMean | nodes/max_bridge.py:343-355 | a 400 followed by a 10 ms success reports 5 ms, though the mean of the latencies is 10 ms |
| MaxProperties.AlreadyLoadedShortCircuits | nodes/max_bridge.py:294-301 | a present id answers with its recorded backend, whatever the file system and engines, and only the request counter changes |
| MaxProperties.MissingFileIsNotFound | nodes/max_bridge.py:303-305 | a new id with a missing file is 404 and only the request counter changes |
| MaxProperties.MissingPathOutcomes | nodes/max_bridge.py:287-292 | no id and no path is a 500 from `basename(None)`; an id without a path, or an empty path, is 400 |
| MaxProperties.OnnxOnlyIgnoresMax | nodes/max_bridge.py:319-320 | under the ONNX-only plan MAX is never consulted and no session is created |
| MaxProperties.MaxFailureFallsBack | nodes/max_bridge.py:313-316 | under `auto` with ONNX available a MAX failure loads with ONNX, keeping the session created |
| MaxProperties.MaxFailureWithoutFallbackFails | nodes/max_bridge.py:317-318 | otherwise a MAX failure is a 500 with its message, one error counted, nothing recorded |
| MaxProperties.PreferMaxWithoutEngine | nodes/max_bridge.py:108-110 | asking for MAX when it did not import is a 500 `MAX Engine session not available` |
| MaxProperties.SessionIsCreatedOnce | nodes/max_bridge.py:85 | a cached session is returned unchanged, whatever creation would do |
| MaxProperties.RoutesKeepValid | nodes/max_bridge.py:280-468 | every route keeps the state invariant |
| MaxProperties.LoadedModelIsListed | nodes/max_bridge.py:268-269 | a model that loaded is listed by `/status` under the backend `/load` reported and its recorded path, the requested one when this request loaded it |
| MaxProperties.UnloadThenPredictIsNotFound | nodes/max_bridge.py:405-408 | after `/unload` of an id, `/predict` on it is a 404 |
| MaxProperties.HealthCountsListedModels | nodes/max_bridge.py:252 | `/health` counts exactly the models `/status` lists |

## Left out

- Transport: stdin iteration, stdout writes and JSON serialisation are left out. The line bridge's loop runs over a sequence of lines and yields a sequence of responses. Flask routing, gunicorn setup, and host and port parsing are left out too.
- Concurrency: the threaded server updates `_stats` without locks. The routes are modelled as sequential transitions.
- Signals: the SIGTERM/SIGINT handler of the line bridge ends the process asynchronously, which the model does not capture.
- Time: latencies are inputs. `round(..., 2)` display rounding, `uptime_seconds`, `start_time` and `load_time_ms` are left out.
- Tracebacks: the `traceback` field of HTTP errors and the traceback appended to the line bridge's `Error: ...` message are not modelled. The model keeps `str(e)`.
- Package probing: `handle_status`'s `packages` list and `python_version` depend on the environment and are not modelled. Nor is the `import numpy as np` at the top of `handle_predict` (nodes/python_bridge.py:120), which sits outside its `try`. A failed import would escape to `main`'s `Error: ...` reply, even for an unknown id. `LineProtocol.HandlePredict` assumes numpy imports, so it never escapes.
- Load metadata: the `input_names`, `output_names`, `input_shapes` and `providers` fields of a successful `/load` are not modelled. Those values come from the engines.
- MaxProtocol.LoadOnnx: an exception from `get_inputs`/`get_outputs`/`get_providers` after the model is recorded is not modelled. In that case the model would stay recorded while the route answers 500. Here each engine load is one outcome.
- Backends: numeric inference and tensor contents are left out. Arrays are modelled by shape. `np.array` conversion is an abstract outcome: a shape, or a refusal message. The MAX output conversion (dict, `tolist`, raw) is inside the abstract `maxExecute` outcome.
- Case mapping: `str.lower` is modelled for ASCII letters only. Other Unicode case mappings are left out.
- JSON value types: ids, paths, commands and backends are modelled as strings or absent. Two cases are left out:
  - non-string JSON values in those fields;
  - an explicit JSON `null` as distinct from a missing key, for example a `backend: null` that would not default to `auto`.
- `_model_info` of the HTTP bridge is declared but never written, and is not modelled.
- The `Unknown model type` branch of `handle_predict` is left out. The registry only holds the three kinds the loaders return, so the branch cannot be reached.
- The line bridge treats a JSON line that is valid but not an object as the source does: `msg.get` raises outside every `try`, and the process ends without a response. This is modelled as written, as the `Crashed` stop.
- Environment: one `Env` stands for the whole session, with numpy importable. A loader given the same path always returns the same outcome, so the model does not capture a file that changes between lines or between requests.
- Lines after a stop are shown unread one position at a time: `LineProperties.ShutdownAnswersOnceAndStops` and `LineProperties.NonObjectLineEndsTheBridge` hold for any registry the loop reaches. There is no separate lemma for the whole remaining input at an arbitrary position.
