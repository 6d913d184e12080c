/**
 * `ResultUtils`: the lazily built code-to-name table, the three `makeResult`
 * overloads and the two overloads each of `sendSuccessResult` and
 * `sendErrorResult`. The class's static state is the fields of one object.
 */
module NativeBridge {
  import opened Wrappers
  import opened HexFormat
  import opened Json
  import opened Cordova
  import opened ResultFormat

  class ResultUtils {
    /** `mErrorTbl`: null until the first `makeResult`. */
    var errorTbl: Option<map<int, string>>

    /** Once built, the table is the full table and it never changes. */
    ghost predicate Valid()
      reads this
    {
      errorTbl.Some? ==> IsErrorTable(errorTbl.value)
    }

    ghost predicate Initialised()
      reads this
    {
      errorTbl.Some? && IsErrorTable(errorTbl.value)
    }

    constructor ()
      ensures Valid() && errorTbl.None?
    {
      errorTbl := None;
    }

    /** `init()`: fills the table, including the repeated put of 0x7. */
    method Init()
      modifies this
      ensures Initialised()
    {
      var tbl: map<int, string> := map[];
      tbl := tbl[SUCCESS_OK := "SUCCESS_OK"];
      tbl := tbl[ERROR_FAIL := "ERROR_FAIL"];
      tbl := tbl[ERROR_CANCEL := "ERROR_CANCEL"];
      tbl := tbl[ERROR_INVALID_ARG := "ERROR_INVALID_ARG"];
      tbl := tbl[ERROR_NOT_IMPLEMENT := "ERROR_NOT_IMPLEMENT"];
      tbl := tbl[ERROR_NOT_SUPPORT := "ERROR_NOT_SUPPORT"];
      tbl := tbl[ERROR_INVALID_OPERATION := "ERROR_INVALID_OPERATION"];
      tbl := tbl[ERROR_CLASS_NOT_FOUND := "ERROR_CLASS_NOT_FOUND"];
      tbl := tbl[ERROR_CLASS_NOT_FOUND := "ERROR_CLASS_NOT_FOUND"];
      tbl := tbl[ERROR_METHOD_NOT_FOUND := "ERROR_METHOD_NOT_FOUND"];
      errorTbl := Some(tbl);
    }

    /** `makeResult(int code, String message, String taskId, Object... args)`. */
    method MakeResult(code: Int32, message: Option<string>, taskId: Option<string>,
                      args: seq<Value>) returns (result: JsonObject)
      requires Valid()
      modifies this
      ensures Initialised()
      ensures old(errorTbl).Some? ==> errorTbl == old(errorTbl)
      ensures fresh(result)
      ensures result.fields == ResultFields(code, message, taskId, args)
    {
      if errorTbl.None? {
        Init();
      }
      var entry := Lookup(errorTbl.value, code);
      var name := if entry.Some? then entry.value else CustomName(code);
      result := new JsonObject();
      result.Put("code", Int(code));
      result.Put("name", Str(TAG + name));
      if message.Some? {
        result.Put("message", Str(message.value));
      }
      if taskId.Some? {
        result.Put("taskId", Str(taskId.value));
      }
      if 0 < |args| {
        var argsInfo := new JsonArray();
        for i := 0 to |args|
          modifies argsInfo
          invariant argsInfo.items == args[..i]
        {
          argsInfo.Put(args[i]);
        }
        assert args[..|args|] == args;
        result.Put("args", List(argsInfo.items));
      }
    }

    /** `makeResult(String message, String taskId, Object... args)`. */
    method MakeResultWithMessage(message: Option<string>, taskId: Option<string>,
                                 args: seq<Value>) returns (result: JsonObject)
      requires Valid()
      modifies this
      ensures Initialised()
      ensures old(errorTbl).Some? ==> errorTbl == old(errorTbl)
      ensures fresh(result)
      ensures result.fields == ResultFields(SUCCESS_OK, message, taskId, args)
    {
      result := MakeResult(SUCCESS_OK, message, taskId, args);
    }

    /** `makeResult(String taskId, Object... args)`. */
    method MakeResultForTask(taskId: Option<string>, args: seq<Value>) returns (result: JsonObject)
      requires Valid()
      modifies this
      ensures Initialised()
      ensures old(errorTbl).Some? ==> errorTbl == old(errorTbl)
      ensures fresh(result)
      ensures result.fields == ResultFields(SUCCESS_OK, None, taskId, args)
    {
      result := MakeResult(SUCCESS_OK, None, taskId, args);
    }

    /**
     * `sendSuccessResult(callbackContext, JSONObject result)`: the caller's
     * record is stamped in place, then delivered once with status OK.
     */
    method SendSuccessResult(callbackContext: CallbackContext, result: JsonObject?)
      requires Valid()
      modifies this, callbackContext, result
      ensures Valid()
      ensures result == null ==> Initialised()
      ensures result != null ==> errorTbl == old(errorTbl)
      ensures result != null ==> result.fields == StampCode(old(result.fields), SUCCESS_OK)
      ensures callbackContext.deliveries == old(callbackContext.deliveries) +
        [Delivery(Ok, Payload(if result == null then None else Some(old(result.fields)), SUCCESS_OK))]
    {
      var payload: JsonObject;
      if result == null {
        payload := MakeResultForTask(None, []);
      } else {
        if IsNullField(result.fields, "code") {
          result.Put("code", Int(SUCCESS_OK));
        }
        payload := result;
      }
      callbackContext.SendPluginResult(Ok, payload);
    }

    /** `sendSuccessResult(callbackContext, String taskId)`. */
    method SendSuccessForTask(callbackContext: CallbackContext, taskId: Option<string>)
      requires Valid()
      modifies this, callbackContext
      ensures Initialised()
      ensures callbackContext.deliveries == old(callbackContext.deliveries) +
        [Delivery(Ok, ResultFields(SUCCESS_OK, None, taskId, []))]
    {
      var result := MakeResultForTask(taskId, []);
      SendSuccessResult(callbackContext, result);
      StampCodeKeepsBuiltRecord(SUCCESS_OK, None, taskId, [], SUCCESS_OK);
    }

    /**
     * `sendErrorResult(callbackContext, JSONObject result)`: the caller's
     * record is stamped in place, then delivered once with status ERROR.
     */
    method SendErrorResult(callbackContext: CallbackContext, result: JsonObject?)
      requires Valid()
      modifies this, callbackContext, result
      ensures Valid()
      ensures result == null ==> Initialised()
      ensures result != null ==> errorTbl == old(errorTbl)
      ensures result != null ==> result.fields == StampCode(old(result.fields), ERROR_FAIL)
      ensures callbackContext.deliveries == old(callbackContext.deliveries) +
        [Delivery(Error, Payload(if result == null then None else Some(old(result.fields)), ERROR_FAIL))]
    {
      var payload: JsonObject;
      if result == null {
        payload := MakeResult(ERROR_FAIL, None, None, []);
      } else {
        if IsNullField(result.fields, "code") {
          result.Put("code", Int(ERROR_FAIL));
        }
        payload := result;
      }
      callbackContext.SendPluginResult(Error, payload);
    }

    /** `sendErrorResult(callbackContext, String taskId, int code, String message)`. */
    method SendErrorForTask(callbackContext: CallbackContext, taskId: Option<string>,
                            code: Int32, message: Option<string>)
      requires Valid()
      modifies this, callbackContext
      ensures Initialised()
      ensures callbackContext.deliveries == old(callbackContext.deliveries) +
        [Delivery(Error, ResultFields(code, message, taskId, []))]
    {
      var result := MakeResult(code, message, taskId, []);
      SendErrorResult(callbackContext, result);
      StampCodeKeepsBuiltRecord(code, message, taskId, [], ERROR_FAIL);
    }
  }
}
