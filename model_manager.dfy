/** The model-manager adapter: routing a method call by name, building the
    SDK request (remote model, download conditions, manager instance) from
    its arguments, and turning each SDK outcome into exactly one reply. */
module ModelManager {
  import opened Values
  import opened Channel

  const DownloadMethod: string := "FirebaseModelManager#download"
  const GetLatestModelFileMethod: string := "FirebaseModelManager#getLatestModelFile"
  const IsModelDownloadedMethod: string := "FirebaseModelManager#isModelDownloaded"

  /** The one error code every failure is reported under. */
  const ErrorCode: string := "FirebaseModelManager"

  /** An incoming method call: its name and its argument map. */
  datatype MethodCall = MethodCall(name: string, arguments: map<string, Value>)

  // ---------------------------------------------------------------------
  // Routing
  // ---------------------------------------------------------------------

  datatype Handler = DownloadHandler | LatestModelFileHandler | IsModelDownloadedHandler | NoHandler

  /** The `switch` on the method name. */
  function Route(name: string): (h: Handler)
    ensures h == DownloadHandler <==> name == DownloadMethod
    ensures h == LatestModelFileHandler <==> name == GetLatestModelFileMethod
    ensures h == IsModelDownloadedHandler <==> name == IsModelDownloadedMethod
    ensures h == NoHandler <==>
      name != DownloadMethod && name != GetLatestModelFileMethod && name != IsModelDownloadedMethod
  {
    if name == DownloadMethod then DownloadHandler
    else if name == GetLatestModelFileMethod then LatestModelFileHandler
    else if name == IsModelDownloadedMethod then IsModelDownloadedHandler
    else NoHandler
  }

  // ---------------------------------------------------------------------
  // The request: manager instance, remote model, download conditions
  // ---------------------------------------------------------------------

  /** The process-wide default manager, or the one of a named app. */
  datatype ManagerInstance = DefaultInstance | AppInstance(appName: string)

  /** A remote model is built from its name alone. */
  datatype RemoteModel = RemoteModel(modelName: string)

  datatype DownloadConditions = DownloadConditions(requireCharging: bool, requireDeviceIdle: bool, requireWifi: bool)

  /** A present, non-null `app` argument is a string (it is cast to one). */
  predicate AppArgumentOk(args: map<string, Value>)
  {
    "app" in args && args["app"] != VNull ==> args["app"].VStr?
  }

  /** `call.argument("app")` is null when the key is absent or bound to null. */
  predicate AppAbsent(args: map<string, Value>)
  {
    "app" !in args || args["app"] == VNull
  }

  /** The manager instance each of the three operations picks. */
  function SelectManager(args: map<string, Value>): (i: ManagerInstance)
    requires AppArgumentOk(args)
    ensures i == DefaultInstance <==> AppAbsent(args)
    ensures i.AppInstance? ==> args["app"] == VStr(i.appName)
  {
    if AppAbsent(args) then DefaultInstance else AppInstance(args["app"].s)
  }

  /** The three flags must be present and boolean (each is unboxed). */
  predicate FlagsPresent(flags: map<string, Value>)
  {
    && "requireCharging" in flags && flags["requireCharging"].VBool?
    && "requireDeviceIdle" in flags && flags["requireDeviceIdle"].VBool?
    && "requireWifi" in flags && flags["requireWifi"].VBool?
  }

  /** The conditions a flag map stands for, each flag read on its own. */
  function ConditionsFrom(flags: map<string, Value>): DownloadConditions
    requires FlagsPresent(flags)
  {
    DownloadConditions(flags["requireCharging"].b, flags["requireDeviceIdle"].b, flags["requireWifi"].b)
  }

  /** The conditions builder of the SDK: every requirement starts unset and
      each call sets one of them. */
  class ConditionsBuilder {
    var charging: bool
    var deviceIdle: bool
    var wifi: bool

    constructor ()
      ensures !charging && !deviceIdle && !wifi
    {
      charging, deviceIdle, wifi := false, false, false;
    }

    method RequireCharging()
      modifies this
      ensures charging && deviceIdle == old(deviceIdle) && wifi == old(wifi)
    {
      charging := true;
    }

    method RequireDeviceIdle()
      modifies this
      ensures deviceIdle && charging == old(charging) && wifi == old(wifi)
    {
      deviceIdle := true;
    }

    method RequireWifi()
      modifies this
      ensures wifi && charging == old(charging) && deviceIdle == old(deviceIdle)
    {
      wifi := true;
    }

    function Build(): DownloadConditions
      reads this
    {
      DownloadConditions(charging, deviceIdle, wifi)
    }
  }

  /** `download`'s three `if`s over a fresh builder. */
  method BuildConditions(conditionsToMap: map<string, Value>) returns (conditions: DownloadConditions)
    requires FlagsPresent(conditionsToMap)
    ensures conditions.requireCharging <==> conditionsToMap["requireCharging"] == VBool(true)
    ensures conditions.requireDeviceIdle <==> conditionsToMap["requireDeviceIdle"] == VBool(true)
    ensures conditions.requireWifi <==> conditionsToMap["requireWifi"] == VBool(true)
    ensures conditions == ConditionsFrom(conditionsToMap)
  {
    var conditionsBuilder := new ConditionsBuilder();
    if conditionsToMap["requireCharging"].b {
      conditionsBuilder.RequireCharging();
    }
    if conditionsToMap["requireDeviceIdle"].b {
      conditionsBuilder.RequireDeviceIdle();
    }
    if conditionsToMap["requireWifi"].b {
      conditionsBuilder.RequireWifi();
    }
    conditions := conditionsBuilder.Build();
  }

  /** Changing one flag changes that requirement and no other. */
  lemma FlagsIndependent(flags: map<string, Value>, key: string, value: bool)
    requires FlagsPresent(flags)
    requires key == "requireCharging" || key == "requireDeviceIdle" || key == "requireWifi"
    ensures FlagsPresent(flags[key := VBool(value)])
    ensures var before, after := ConditionsFrom(flags), ConditionsFrom(flags[key := VBool(value)]);
      && after.requireCharging == (if key == "requireCharging" then value else before.requireCharging)
      && after.requireDeviceIdle == (if key == "requireDeviceIdle" then value else before.requireDeviceIdle)
      && after.requireWifi == (if key == "requireWifi" then value else before.requireWifi)
  {
  }

  /** Every one of the eight combinations of requirements is reached by
      some flag map. */
  lemma EveryCombinationReachable(c: DownloadConditions)
    ensures exists flags :: FlagsPresent(flags) && ConditionsFrom(flags) == c
  {
    var flags := map["requireCharging" := VBool(c.requireCharging),
                     "requireDeviceIdle" := VBool(c.requireDeviceIdle),
                     "requireWifi" := VBool(c.requireWifi)];
    assert FlagsPresent(flags) && ConditionsFrom(flags) == c;
  }

  /** What the SDK is asked for. */
  datatype Request =
    | DownloadRequest(manager: ManagerInstance, model: RemoteModel, conditions: DownloadConditions)
    | LatestModelFileRequest(manager: ManagerInstance, model: RemoteModel)
    | IsModelDownloadedRequest(manager: ManagerInstance, model: RemoteModel)

  /** Every operation needs a string `modelName`. */
  predicate ModelArgumentsOk(args: map<string, Value>)
  {
    "modelName" in args && args["modelName"].VStr? && AppArgumentOk(args)
  }

  /** `download` also needs a `conditions` map with the three flags. */
  predicate DownloadArgumentsOk(args: map<string, Value>)
  {
    && ModelArgumentsOk(args)
    && "conditions" in args && args["conditions"].VMap?
    && FlagsPresent(args["conditions"].fields)
  }

  predicate CallArgumentsOk(call: MethodCall)
  {
    match Route(call.name)
    case DownloadHandler => DownloadArgumentsOk(call.arguments)
    case LatestModelFileHandler => ModelArgumentsOk(call.arguments)
    case IsModelDownloadedHandler => ModelArgumentsOk(call.arguments)
    case NoHandler => true
  }

  /** The request a call stands for; none for an unknown method name. */
  function DecodeRequest(call: MethodCall): (r: Option<Request>)
    requires CallArgumentsOk(call)
    ensures r.None? <==> Route(call.name) == NoHandler
    ensures r.Some? ==>
      && r.value.manager == SelectManager(call.arguments)
      && r.value.model == RemoteModel(call.arguments["modelName"].s)
    ensures r.Some? ==>
      && (r.value.DownloadRequest? <==> Route(call.name) == DownloadHandler)
      && (r.value.LatestModelFileRequest? <==> Route(call.name) == LatestModelFileHandler)
      && (r.value.IsModelDownloadedRequest? <==> Route(call.name) == IsModelDownloadedHandler)
    ensures r.Some? && r.value.DownloadRequest? ==>
      r.value.conditions == ConditionsFrom(call.arguments["conditions"].fields)
  {
    var args := call.arguments;
    match Route(call.name)
    case DownloadHandler =>
      Some(DownloadRequest(SelectManager(args), RemoteModel(args["modelName"].s),
                           ConditionsFrom(args["conditions"].fields)))
    case LatestModelFileHandler =>
      Some(LatestModelFileRequest(SelectManager(args), RemoteModel(args["modelName"].s)))
    case IsModelDownloadedHandler =>
      Some(IsModelDownloadedRequest(SelectManager(args), RemoteModel(args["modelName"].s)))
    case NoHandler => None
  }

  // ---------------------------------------------------------------------
  // The SDK's outcomes and the replies shaped from them
  // ---------------------------------------------------------------------

  /** A task as an `onComplete` listener sees it: a possibly-null result and
      a possibly-null exception. */
  datatype Task<+T> = Task(result: Option<T>, exception: Option<Exception>)

  /** The SDK, as the outcome of each of its three operations. A successful
      download carries the hash the remote model reports afterwards; a model
      file is given by its absolute path. */
  datatype ModelManagerSdk = ModelManagerSdk(
    download: (ManagerInstance, RemoteModel, DownloadConditions) -> Outcome<Option<string>>,
    latestModelFile: (ManagerInstance, RemoteModel) -> Task<string>,
    isModelDownloaded: (ManagerInstance, RemoteModel) -> Task<bool>)

  /** The map `remoteModelToMap` returns. */
  function RemoteModelMap(model: RemoteModel, modelHash: Option<string>): (m: map<string, Value>)
    ensures m.Keys == {"modelName", "modelHash"}
    ensures m["modelName"] == VStr(model.modelName)
    ensures m["modelHash"] == VNull <==> modelHash.None?
    ensures modelHash.Some? ==> m["modelHash"] == VStr(modelHash.value)
  {
    map["modelName" := VStr(model.modelName), "modelHash" := StrOrNull(modelHash)]
  }

  /** `remoteModelToMap`: fills a fresh map with the model's name and hash. */
  method RemoteModelToMap(model: RemoteModel, modelHash: Option<string>) returns (m: map<string, Value>)
    ensures m == RemoteModelMap(model, modelHash)
  {
    var remoteModelToMap := new ValueMap();
    remoteModelToMap.Put("modelName", VStr(model.modelName));
    remoteModelToMap.Put("modelHash", StrOrNull(modelHash));
    m := remoteModelToMap.entries;
  }

  /** The reply of the download listeners. */
  function DownloadReply(model: RemoteModel, outcome: Outcome<Option<string>>): (r: Reply)
    ensures r.SuccessReply? <==> outcome.Done?
    ensures outcome.Done? ==> r.value == VMap(RemoteModelMap(model, outcome.result))
    ensures outcome.Failed? ==> r == ErrorReply(ErrorCode, outcome.exception.localizedMessage)
  {
    match outcome
    case Done(modelHash) => SuccessReply(VMap(RemoteModelMap(model, modelHash)))
    case Failed(exception) => ErrorReply(ErrorCode, exception.localizedMessage)
  }

  /** The message of a task's exception; null when there is no exception. */
  function ExceptionMessage<T>(task: Task<T>): Option<string>
  {
    match task.exception
    case None => None
    case Some(e) => e.localizedMessage
  }

  /** The `getLatestModelFile` listener as written: `None` stands for the
      NullPointerException it throws, before replying, when the task has
      neither a result nor an exception. */
  function LatestModelFileReplyAsWritten(task: Task<string>): (r: Option<Reply>)
    ensures r.None? <==> task.result.None? && task.exception.None?
    ensures r.Some? ==> (r.value.SuccessReply? <==> task.result.Some?)
  {
    match task.result
    case Some(path) => Some(SuccessReply(VStr(path)))
    case None =>
      match task.exception
      case None => None
      case Some(e) => Some(ErrorReply(ErrorCode, e.localizedMessage))
  }

  /** A lookup that finds no model file and raises no exception gets no
      reply at all from the listener as written. */
  lemma LatestModelFileMissingGetsNoReply()
    ensures LatestModelFileReplyAsWritten(Task(None, None)) == None
  {
  }

  /** The `getLatestModelFile` listener, replying in every case: the path
      exactly when there is a file, otherwise the error with the exception's
      message (null when there is none). It agrees with the listener as
      written wherever that one replies. */
  function LatestModelFileReply(task: Task<string>): (r: Reply)
    ensures r.SuccessReply? <==> task.result.Some?
    ensures task.result.Some? ==> r.value == VStr(task.result.value)
    ensures task.result.None? ==> r == ErrorReply(ErrorCode, ExceptionMessage(task))
    ensures LatestModelFileReplyAsWritten(task).Some? ==> LatestModelFileReplyAsWritten(task).value == r
  {
    match task.result
    case Some(path) => SuccessReply(VStr(path))
    case None => ErrorReply(ErrorCode, ExceptionMessage(task))
  }

  /** The `isModelDownloaded` listener as written, with `None` for the
      NullPointerException it throws when the task has neither a result nor
      an exception. */
  function IsModelDownloadedReplyAsWritten(task: Task<bool>): (r: Option<Reply>)
    ensures r.None? <==> task.result.None? && task.exception.None?
    ensures r.Some? ==> (r.value.SuccessReply? <==> task.result.Some?)
  {
    match task.result
    case Some(downloaded) => Some(SuccessReply(VBool(downloaded)))
    case None =>
      match task.exception
      case None => None
      case Some(e) => Some(ErrorReply(ErrorCode, e.localizedMessage))
  }

  lemma IsModelDownloadedMissingGetsNoReply()
    ensures IsModelDownloadedReplyAsWritten(Task(None, None)) == None
  {
  }

  /** The `isModelDownloaded` listener, replying in every case. */
  function IsModelDownloadedReply(task: Task<bool>): (r: Reply)
    ensures r.SuccessReply? <==> task.result.Some?
    ensures task.result.Some? ==> r.value == VBool(task.result.value)
    ensures task.result.None? ==> r == ErrorReply(ErrorCode, ExceptionMessage(task))
    ensures IsModelDownloadedReplyAsWritten(task).Some? ==> IsModelDownloadedReplyAsWritten(task).value == r
  {
    match task.result
    case Some(downloaded) => SuccessReply(VBool(downloaded))
    case None => ErrorReply(ErrorCode, ExceptionMessage(task))
  }

  /** The one reply a call gets, once the SDK's task has ended. */
  function Respond(call: MethodCall, sdk: ModelManagerSdk): (r: Reply)
    requires CallArgumentsOk(call)
    ensures r.NotImplementedReply? <==> Route(call.name) == NoHandler
    ensures r.ErrorReply? ==> r.code == ErrorCode
    ensures Route(call.name) == DownloadHandler && r.SuccessReply? ==>
      && r.value.VMap? && r.value.fields.Keys == {"modelName", "modelHash"}
      && r.value.fields["modelName"] == call.arguments["modelName"]
    ensures Route(call.name) == LatestModelFileHandler && r.SuccessReply? ==> r.value.VStr?
    ensures Route(call.name) == IsModelDownloadedHandler && r.SuccessReply? ==> r.value.VBool?
  {
    match DecodeRequest(call)
    case None => NotImplementedReply
    case Some(DownloadRequest(manager, model, conditions)) =>
      DownloadReply(model, sdk.download(manager, model, conditions))
    case Some(LatestModelFileRequest(manager, model)) =>
      LatestModelFileReply(sdk.latestModelFile(manager, model))
    case Some(IsModelDownloadedRequest(manager, model)) =>
      IsModelDownloadedReply(sdk.isModelDownloaded(manager, model))
  }

  // ---------------------------------------------------------------------
  // The adapter's code
  // ---------------------------------------------------------------------

  /** `download`, from building the request to the listener that runs. */
  method Download(call: MethodCall, sdk: ModelManagerSdk, result: MethodResult)
    requires DownloadArgumentsOk(call.arguments)
    modifies result
    ensures var args := call.arguments;
      var remoteModel := RemoteModel(args["modelName"].s);
      result.replies == old(result.replies) + [DownloadReply(remoteModel,
        sdk.download(SelectManager(args), remoteModel, ConditionsFrom(args["conditions"].fields)))]
  {
    var modelName := call.arguments["modelName"].s;
    var conditionsToMap := call.arguments["conditions"].fields;
    var remoteModel := RemoteModel(modelName);
    var conditions := BuildConditions(conditionsToMap);
    var modelManager := SelectManager(call.arguments);
    match sdk.download(modelManager, remoteModel, conditions) {
      case Done(modelHash) =>
        var data := RemoteModelToMap(remoteModel, modelHash);
        result.Success(VMap(data));
      case Failed(exception) =>
        result.Error(ErrorCode, exception.localizedMessage);
    }
  }

  /** The `onComplete` listener of `getLatestModelFile`. */
  method OnLatestModelFileComplete(task: Task<string>, result: MethodResult)
    modifies result
    ensures result.replies == old(result.replies) + [LatestModelFileReply(task)]
  {
    match task.result {
      case Some(modelFile) =>
        result.Success(VStr(modelFile));
      case None =>
        result.Error(ErrorCode, ExceptionMessage(task));
    }
  }

  method GetLatestModelFile(call: MethodCall, sdk: ModelManagerSdk, result: MethodResult)
    requires ModelArgumentsOk(call.arguments)
    modifies result
    ensures var remoteModel := RemoteModel(call.arguments["modelName"].s);
      result.replies == old(result.replies) +
        [LatestModelFileReply(sdk.latestModelFile(SelectManager(call.arguments), remoteModel))]
  {
    var remoteModel := RemoteModel(call.arguments["modelName"].s);
    var modelManager := SelectManager(call.arguments);
    OnLatestModelFileComplete(sdk.latestModelFile(modelManager, remoteModel), result);
  }

  /** The `onComplete` listener of `isModelDownloaded`. */
  method OnIsModelDownloadedComplete(task: Task<bool>, result: MethodResult)
    modifies result
    ensures result.replies == old(result.replies) + [IsModelDownloadedReply(task)]
  {
    match task.result {
      case Some(isModelDownloaded) =>
        result.Success(VBool(isModelDownloaded));
      case None =>
        result.Error(ErrorCode, ExceptionMessage(task));
    }
  }

  method IsModelDownloaded(call: MethodCall, sdk: ModelManagerSdk, result: MethodResult)
    requires ModelArgumentsOk(call.arguments)
    modifies result
    ensures var remoteModel := RemoteModel(call.arguments["modelName"].s);
      result.replies == old(result.replies) +
        [IsModelDownloadedReply(sdk.isModelDownloaded(SelectManager(call.arguments), remoteModel))]
  {
    var remoteModel := RemoteModel(call.arguments["modelName"].s);
    var modelManager := SelectManager(call.arguments);
    OnIsModelDownloadedComplete(sdk.isModelDownloaded(modelManager, remoteModel), result);
  }

  /** `handleModelManager`: every call gets exactly one reply, the one
      `Respond` gives. */
  method HandleModelManager(call: MethodCall, sdk: ModelManagerSdk, result: MethodResult)
    requires CallArgumentsOk(call)
    modifies result
    ensures result.replies == old(result.replies) + [Respond(call, sdk)]
  {
    match Route(call.name) {
      case DownloadHandler =>
        Download(call, sdk, result);
      case LatestModelFileHandler =>
        GetLatestModelFile(call, sdk, result);
      case IsModelDownloadedHandler =>
        IsModelDownloaded(call, sdk, result);
      case NoHandler =>
        result.NotImplemented();
    }
  }
}
