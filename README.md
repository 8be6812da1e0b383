# Firebase ML platform adapters, modelled in Dafny

This project models two Android adapters of the Flutter Firebase ML plugins.
Both receive requests from Dart over a method channel. They call the
Firebase SDK and answer with a single reply made of plain values: null,
numbers, booleans, strings, lists and string-keyed maps.

- **TextRecognizer** (`text_recognizer.dfy`) picks the on-device or cloud
  recognizer from the `modelType` option and rejects any other value. It
  turns a recognised text into a nested map: the full text, then blocks,
  lines and elements. `addData` writes each node's geometry, confidence,
  corner points, languages and text into a map. A failed detection becomes
  a `textRecognizerError` reply. The proofs cover these properties:
  - the exact key set of every node and its values;
  - that geometry appears exactly when a bounding box exists;
  - a decoder for the reply format, with `Deserialize(Serialize(t))`
    returning `t` up to the null/empty corner-points distinction, and hence
    that serialisation is injective up to that distinction;
  - the imperative loops (`AddData` and one method per nesting level) are
    equal to the functional definition of the reply.
- **ModelManager** (`model_manager.dfy`) routes the three
  `FirebaseModelManager#…` calls. It builds the remote model, the download
  conditions and the manager instance (default, or the named app) from the
  arguments. It maps each SDK outcome to a reply: success, or an error with
  code `FirebaseModelManager`. For the two lookups the source's listeners
  give no reply when a task has neither a result nor an exception (see
  "## Findings"); the listener methods, and the handlers built on them,
  run the corrected listeners, which always reply exactly once. The proofs cover these
  properties:
  - routing is exact;
  - each condition flag controls only its own requirement, and every
    combination of requirements can be requested;
  - the default manager is used exactly when no app name is given;
  - a download reply carries the requested model name and hash;
  - every error carries the adapter's error code.

`values.dfy` holds the channel's value type and the mutable `HashMap`
(`ValueMap`). `channel.dfy` holds the SDK outcome and exception types and
the reply object (`MethodResult`). The reply object records every reply it
is given, so each handler can be shown to answer exactly once.

SDK calls are parameters. `HandleDetection` takes the outcome of the
detection task. `HandleModelManager` takes a record of the three SDK
operations (`ModelManagerSdk`) as total functions of the request. A
completion listener is modelled as running once, on the outcome it
receives.

The reply for a node omits the `left`/`top`/`width`/`height` keys when
there is no bounding box. It does not put nulls there. The model follows
the code (TextRecognizer.java:208-213).

## Model

| member | source | states |
|---|---|---|
| TextRecognizer.Create | packages/firebase_ml_vision/android/src/main/java/io/flutter/plugins/firebasemlvision/TextRecognizer.java:34-44 | `onDevice` gives the on-device recognizer and `cloud` the cloud one. Any other model type, exactly then, is an illegal-argument failure whose message is "No model for type: " followed by the type |
| TextRecognizer.NodeMapKeys | packages/firebase_ml_vision/android/src/main/java/io/flutter/plugins/firebasemlvision/TextRecognizer.java:200-234 | a node's map has exactly confidence, points, recognizedLanguages and text, plus the four geometry keys. The geometry keys are all present exactly when the node has a bounding box, and none is present otherwise |
| TextRecognizer.NodeMapGeometry | packages/firebase_ml_vision/android/src/main/java/io/flutter/plugins/firebasemlvision/TextRecognizer.java:208-213 | with a bounding box, left and top are the box's left and top, width is right minus left and height is bottom minus top |
| TextRecognizer.NodeMapConfidence | packages/firebase_ml_vision/android/src/main/java/io/flutter/plugins/firebasemlvision/TextRecognizer.java:215 | confidence is always present; it is null exactly when the SDK gives none, and otherwise it is the value given |
| TextRecognizer.NodeMapPoints | packages/firebase_ml_vision/android/src/main/java/io/flutter/plugins/firebasemlvision/TextRecognizer.java:217-223 | points is a list of `[x, y]` pairs, one per corner point in order, and empty when the SDK gives no corner points |
| TextRecognizer.NodeMapLanguagesAndText | packages/firebase_ml_vision/android/src/main/java/io/flutter/plugins/firebasemlvision/TextRecognizer.java:225-233 | recognizedLanguages has one `{languageCode}` map per language, in order, and text is the node's text |
| TextRecognizer.AddData | packages/firebase_ml_vision/android/src/main/java/io/flutter/plugins/firebasemlvision/TextRecognizer.java:200-234 | the sequence of puts on the target map leaves it equal to its old contents overridden by the node's map |
| TextRecognizer.SerializeElement | packages/firebase_ml_vision/android/src/main/java/io/flutter/plugins/firebasemlvision/TextRecognizer.java:167-179 | the element loop body yields the element's node map |
| TextRecognizer.SerializeLine | packages/firebase_ml_vision/android/src/main/java/io/flutter/plugins/firebasemlvision/TextRecognizer.java:156-182 | the line loop yields the line's node map plus an `elements` list holding each element's map in order |
| TextRecognizer.SerializeBlock | packages/firebase_ml_vision/android/src/main/java/io/flutter/plugins/firebasemlvision/TextRecognizer.java:145-185 | the block loop yields the block's node map plus a `lines` list holding each line's map in order |
| TextRecognizer.SerializeVisionText | packages/firebase_ml_vision/android/src/main/java/io/flutter/plugins/firebasemlvision/TextRecognizer.java:141-188 | the nested loops compute exactly the functional serialisation of the recognised text |
| TextRecognizer.Serialize | packages/firebase_ml_vision/android/src/main/java/io/flutter/plugins/firebasemlvision/TextRecognizer.java:142-187 | the reply is a map with exactly the keys text and blocks; text is the full text, and blocks has one entry per block |
| TextRecognizer.DetectionReply | packages/firebase_ml_vision/android/src/main/java/io/flutter/plugins/firebasemlvision/TextRecognizer.java:139-197 | a successful detection, exactly then, gives a success reply carrying the serialised text. A failure gives a `textRecognizerError` error carrying the exception's localized message |
| TextRecognizer.HandleDetection | packages/firebase_ml_vision/android/src/main/java/io/flutter/plugins/firebasemlvision/TextRecognizer.java:136-198 | handling a detection outcome appends exactly one reply, the detection reply, to the result |
| TextRecognizer.RoundTrip | packages/firebase_ml_vision/android/src/main/java/io/flutter/plugins/firebasemlvision/TextRecognizer.java:142-233 | decoding the reply recovers the recognised text, with geometry, confidence, corner points, languages and text intact. The only loss is that missing corner points come back as an empty list |
| TextRecognizer.SerializeInjective | packages/firebase_ml_vision/android/src/main/java/io/flutter/plugins/firebasemlvision/TextRecognizer.java:142-233 | two recognised texts with the same reply differ at most in missing versus empty corner points |
| ModelManager.Route | packages/firebase_ml/android/src/main/java/io/flutter/plugins/firebaseml/ModelManager.java:24-36 | each of the three method names, and only that name, selects its own handler; every other name selects none |
| ModelManager.SelectManager | packages/firebase_ml/android/src/main/java/io/flutter/plugins/firebaseml/ModelManager.java:63-69 | the default manager is used exactly when `app` is absent or null; otherwise the manager is the one for the app with the given name |
| ModelManager.BuildConditions | packages/firebase_ml/android/src/main/java/io/flutter/plugins/firebaseml/ModelManager.java:48-61 | charging, device idle and wifi are each required exactly when their flag is true |
| ModelManager.FlagsIndependent | packages/firebase_ml/android/src/main/java/io/flutter/plugins/firebaseml/ModelManager.java:51-59 | changing one flag changes only its own requirement and leaves the other two alone |
| ModelManager.EveryCombinationReachable | packages/firebase_ml/android/src/main/java/io/flutter/plugins/firebaseml/ModelManager.java:48-61 | each of the eight condition combinations is built from some set of flags |
| ModelManager.DecodeRequest | packages/firebase_ml/android/src/main/java/io/flutter/plugins/firebaseml/ModelManager.java:41-69 | a request is formed exactly for the three known methods. It names the model from modelName and the manager chosen by `app`, and for a download it also carries the conditions from the flags (the same reading at lines 90-102 and 122-134) |
| ModelManager.RemoteModelMap | packages/firebase_ml/android/src/main/java/io/flutter/plugins/firebaseml/ModelManager.java:153-158 | the model map has exactly modelName and modelHash, holding the model's name and its hash (null when there is none) |
| ModelManager.RemoteModelToMap | packages/firebase_ml/android/src/main/java/io/flutter/plugins/firebaseml/ModelManager.java:153-158 | filling a fresh map yields exactly the model map |
| ModelManager.DownloadReply | packages/firebase_ml/android/src/main/java/io/flutter/plugins/firebaseml/ModelManager.java:71-86 | a completed download, exactly then, gives success with the model map; a failure gives a FirebaseModelManager error with the exception's message |
| ModelManager.Download | packages/firebase_ml/android/src/main/java/io/flutter/plugins/firebaseml/ModelManager.java:40-87 | appends exactly one reply: the download reply for the SDK's outcome on the requested manager, model and conditions |
| ModelManager.LatestModelFileReplyAsWritten | packages/firebase_ml/android/src/main/java/io/flutter/plugins/firebaseml/ModelManager.java:108-118 | the listener as written replies exactly when the task has a result or an exception |
| ModelManager.LatestModelFileMissingGetsNoReply | packages/firebase_ml/android/src/main/java/io/flutter/plugins/firebaseml/ModelManager.java:110-116 | a task that has neither a file nor an exception gets no reply from the code as written |
| ModelManager.LatestModelFileReply | packages/firebase_ml/android/src/main/java/io/flutter/plugins/firebaseml/ModelManager.java:110-116 | success with the file path exactly when there is a file, otherwise a FirebaseModelManager error. It agrees with the code as written wherever that code replies |
| ModelManager.OnLatestModelFileComplete | packages/firebase_ml/android/src/main/java/io/flutter/plugins/firebaseml/ModelManager.java:108-118 | runs the corrected listener from "## Findings": it appends exactly one reply, the corrected latest-file reply, where the source as written gives none for a task with neither a file nor an exception |
| ModelManager.GetLatestModelFile | packages/firebase_ml/android/src/main/java/io/flutter/plugins/firebaseml/ModelManager.java:89-119 | appends exactly one reply, the corrected listener's (see "## Findings"), for the SDK task on the requested manager and model |
| ModelManager.IsModelDownloadedReplyAsWritten | packages/firebase_ml/android/src/main/java/io/flutter/plugins/firebaseml/ModelManager.java:140-150 | the listener as written replies exactly when the task has a result or an exception |
| ModelManager.IsModelDownloadedMissingGetsNoReply | packages/firebase_ml/android/src/main/java/io/flutter/plugins/firebaseml/ModelManager.java:142-148 | a task with neither a result nor an exception gets no reply from the code as written |
| ModelManager.IsModelDownloadedReply | packages/firebase_ml/android/src/main/java/io/flutter/plugins/firebaseml/ModelManager.java:142-148 | success with the boolean exactly when there is a result, otherwise a FirebaseModelManager error. It agrees with the code as written wherever that code replies |
| ModelManager.OnIsModelDownloadedComplete | packages/firebase_ml/android/src/main/java/io/flutter/plugins/firebaseml/ModelManager.java:140-150 | runs the corrected listener from "## Findings": it appends exactly one reply, the corrected is-downloaded reply, where the source as written gives none for a task with neither a result nor an exception |
| ModelManager.IsModelDownloaded | packages/firebase_ml/android/src/main/java/io/flutter/plugins/firebaseml/ModelManager.java:121-151 | appends exactly one reply, the corrected listener's (see "## Findings"), for the SDK task on the requested manager and model |
| ModelManager.Respond | packages/firebase_ml/android/src/main/java/io/flutter/plugins/firebaseml/ModelManager.java:22-158 | an unknown method, exactly then, is answered "not implemented". Every error carries the FirebaseModelManager code. A download success carries the requested model name; a latest-file success is a string and an is-downloaded success is a boolean. The two lookups are answered by the corrected listeners from "## Findings" |
| ModelManager.HandleModelManager | packages/firebase_ml/android/src/main/java/io/flutter/plugins/firebaseml/ModelManager.java:22-37 | every call appends exactly one reply to the result, namely the response defined for it, with the two lookups answered by the corrected listeners from "## Findings" |

## Left out

- `close()` (TextRecognizer.java:266-269): releasing the SDK recognizer is resource lifetime, which has no observable effect on replies.
- Document text recognition: the commented-out block (TextRecognizer.java:48-135) and the unused `addDataDocument` (TextRecognizer.java:236-264) are dead code.
- MainActivity.java only registers the plugin with the Flutter engine.
- The SDK itself is abstract input. This covers `processImage`, `download`, `getLatestModelFile`, `isModelDownloaded`, `FirebaseModelManager.getInstance` and `FirebaseApp.getInstance`, including the latter's failure on an unknown app name. The image and recognizer passed to the SDK are left out too: detection is modelled from its outcome.
- Asynchrony: listeners are registered and run later on the platform thread. The model runs each listener once, on the outcome it receives; it does not model when listeners run or how they interleave.
- Coordinates and confidence are Java `int`/`Float` in the SDK. The model uses unbounded integers for both, because the adapter only copies them. The one arithmetic step, `Rect.width()`/`height()` (right minus left, bottom minus top), is 32-bit in Java and could wrap for extreme edges; that overflow is not modelled, because recognised boxes are bounded by the image size.
- ModelManager.OnLatestModelFileComplete, ModelManager.OnIsModelDownloadedComplete, ModelManager.GetLatestModelFile, ModelManager.IsModelDownloaded, ModelManager.Respond, ModelManager.HandleModelManager: these run the corrected listeners from "## Findings", so they do not model the missing reply of the code as written; the as-written behaviour is captured by the `…AsWritten` members instead.
- Java `assert`s, casts and unboxing of the arguments (a missing or mistyped modelName, modelType or condition flag) throw in Java. They are preconditions here (`HasModelType`, `CallArgumentsOk`), not modelled error paths.
- The `details` argument of every error reply is always null, so it is not represented.
- A null language code or a null node text would be copied as null. The model treats both as strings.
- The nested loops of `handleDetection` are split into one method per level, with the same order and contents.
- Map and list values are copied by value rather than shared by reference. The adapter never mutates a list or map after putting it into its parent, so the replies are the same.
- The SDK's `Task.getResult` throwing on a failed task is not modelled. A task is the (result, exception) pair the listener reads.

## Findings

| source | as written | input that shows it | evidently intended | confidence | as-written member | corrected member |
|---|---|---|---|---|---|---|
| packages/firebase_ml/android/src/main/java/io/flutter/plugins/firebaseml/ModelManager.java:110-116 | when the task's result is null, the listener sends an error with `task.getException().getLocalizedMessage()` without checking the exception for null. It throws and never replies (shown by `ModelManager.LatestModelFileMissingGetsNoReply`). With the Tasks API `getResult()` itself rethrows on a failed task, so the code as written never reaches the error branch with an exception present, which makes the null dereference the only way that branch runs | a completed task whose latest model file is null and whose exception is null, i.e. no downloaded model exists | answer with a FirebaseModelManager error, with no message when there is no exception, so the Dart call always completes | medium, not executed | ModelManager.LatestModelFileReplyAsWritten | ModelManager.LatestModelFileReply |
| packages/firebase_ml/android/src/main/java/io/flutter/plugins/firebaseml/ModelManager.java:142-148 | the same unchecked `task.getException()` when the downloaded flag is null (shown by `ModelManager.IsModelDownloadedMissingGetsNoReply`) | a completed task whose result and exception are both null | answer with a FirebaseModelManager error, with no message when there is no exception | low, not executed | ModelManager.IsModelDownloadedReplyAsWritten | ModelManager.IsModelDownloadedReply |
