# Result encoder of the Cordova native bridge plugin (Android)

This project models `ResultUtils`, the helper class on the Android side of the
`cdp.plugin.nativebridge` Cordova plugin. It builds the result records the
plugin sends back to JavaScript and hands them to the host's callback channel:

- a status code (`SUCCESS_OK` 0x0 to `ERROR_METHOD_NOT_FOUND` 0x8, or any other
  32-bit `int`) is turned into a `name`. The name is a fixed tag followed by the
  enumerated name from a lazily built table. A code missing from the table gets
  `ERROR_CUSTOM:0x` and its hexadecimal form instead;
- `makeResult` builds a JSON object with `code`, `name` and, only when given,
  `message`, `taskId` and `args`;
- `sendSuccessResult` / `sendErrorResult` replace a null record with a default
  one, or fill in a missing `code`. Each then delivers the record once, with
  status OK or ERROR.

Layout:

- `hex_format.dfy` (module `HexFormat`): Java's `%x` for an `int`. It covers the
  unsigned 32-bit reading and lower-case digits with no leading zeros. It also
  has a parser for the digits, and proves the round trip both ways.
- `json.dfy` (module `Json`): the parts of `org.json` that are used. `JSONObject`
  and `JSONArray` become classes whose `put` updates a map or a sequence in place.
- `cordova.dfy` (module `Cordova`): the host's `CallbackContext`, reduced to a
  log of `(status, record)` deliveries.
- `result_format.dfy` (module `ResultFormat`): the constants, the code-to-name
  table as a reference function, and the specification functions for the
  record built, the stamping step and the payload delivered. It also holds
  the lemmas about them.
- `native_bridge.dfy` (module `NativeBridge`): class `ResultUtils`. Each Java
  static method is a method here, proved against the functions of
  `ResultFormat`. The class's static field `mErrorTbl` is a field of the object.

Modelling choices:

- A Java `null` argument (`message`, `taskId`, the record passed to a send
  helper) is `None` / a `null` reference. The variadic `Object... args` is a
  `seq<Value>`.
- Codes are `Int32`. `%x` prints `Unsigned32(code)`, so `-1` is named
  `ERROR_CUSTOM:0xffffffff`.
- `PluginResult` encodes its JSON object when it is constructed, so a delivery
  logs the record's contents at the time of the call.
- The send helpers stamp `code` when `JSONObject.isNull("code")` holds.
  `isNull` is true for an absent key and for a key bound to JSON null, so
  both are stamped.
- The record overload of `sendErrorResult` keeps an existing `code`, including
  `0`. A success code can therefore reach the error channel. Stamping never
  adds a `name` to a caller's record that lacks one.
- The table is filled exactly as `init` fills it, including the second
  identical put of `ERROR_CLASS_NOT_FOUND`. The repeat changes nothing:
  the table ends with nine entries.

## Model

| member | source | states |
|---|---|---|
| HexFormat.Unsigned32 | dev/platforms/android/src/com/sony/cdp/plugin/nativebridge/ResultUtils.java:47 | the value `%x` prints lies in [0, 2^32), is congruent to the `int` modulo 2^32, and is the `int` itself when it is non-negative |
| HexFormat.Unsigned32Injective | dev/platforms/android/src/com/sony/cdp/plugin/nativebridge/ResultUtils.java:47 | two different `int`s never have the same unsigned reading |
| HexFormat.ToHex | dev/platforms/android/src/com/sony/cdp/plugin/nativebridge/ResultUtils.java:47 | `%x` digits are lower-case hex, at least one, with no leading zero; the first digit is `0` exactly for the value zero |
| HexFormat.FromHexToHex | dev/platforms/android/src/com/sony/cdp/plugin/nativebridge/ResultUtils.java:47 | parsing the printed digits gives back the printed value |
| HexFormat.ToHexFromHex | dev/platforms/android/src/com/sony/cdp/plugin/nativebridge/ResultUtils.java:47 | every canonical lower-case hex string is what `%x` prints for its value, so the printed form is unique |
| HexFormat.ToHexInjective | dev/platforms/android/src/com/sony/cdp/plugin/nativebridge/ResultUtils.java:47 | different values print different digits |
| HexFormat.ToHexLength | dev/platforms/android/src/com/sony/cdp/plugin/nativebridge/ResultUtils.java:47 | a value below 16^k prints in at most k digits |
| HexFormat.ToHex32Length | dev/platforms/android/src/com/sony/cdp/plugin/nativebridge/ResultUtils.java:47 | a 32-bit code prints in at most eight digits |
| ResultFormat.KnownName | dev/platforms/android/src/com/sony/cdp/plugin/nativebridge/ResultUtils.java:137-149 | the table `init` fills: a code has an enumerated name if and only if it lies in 0x0..0x8 |
| ResultFormat.KnownNamesDistinct | dev/platforms/android/src/com/sony/cdp/plugin/nativebridge/ResultUtils.java:139-148 | no two codes of the table share an enumerated name |
| ResultFormat.CustomName | dev/platforms/android/src/com/sony/cdp/plugin/nativebridge/ResultUtils.java:47 | `String.format("ERROR_CUSTOM:0x%x", code)` is `ERROR_CUSTOM:0x` followed by canonical lower-case hex digits whose value is the code read as an unsigned 32-bit number |
| ResultFormat.ResultName | dev/platforms/android/src/com/sony/cdp/plugin/nativebridge/ResultUtils.java:47-50 | every name starts with `TAG`; for a known code the rest is its enumerated name |
| ResultFormat.KnownResultNames | dev/platforms/android/src/com/sony/cdp/plugin/nativebridge/ResultUtils.java:137-149 | each of the nine known codes is named `TAG` + its enumerated name (`TAG + "ERROR_CANCEL"` for 2, and so on) |
| ResultFormat.CustomResultName | dev/platforms/android/src/com/sony/cdp/plugin/nativebridge/ResultUtils.java:47 | a code outside the table is named `TAG + "ERROR_CUSTOM:0x"` + the one canonical lower-case hex string of its unsigned 32-bit value, at most eight digits |
| ResultFormat.KnownNameNotCustom | dev/platforms/android/src/com/sony/cdp/plugin/nativebridge/ResultUtils.java:47 | no enumerated name can be mistaken for a synthesised custom name |
| ResultFormat.ResultNameInjective | dev/platforms/android/src/com/sony/cdp/plugin/nativebridge/ResultUtils.java:47-50 | the name determines the code: two codes with the same name are equal |
| ResultFormat.ResultFields | dev/platforms/android/src/com/sony/cdp/plugin/nativebridge/ResultUtils.java:39-69 | the record has only the five known keys; `code` equals the input and `name` its name, always; `message` and `taskId` are present, and equal to the input, if and only if given; `args` is present if and only if at least one argument is given, and then lists them in call order |
| ResultFormat.ResultFieldsInjective | dev/platforms/android/src/com/sony/cdp/plugin/nativebridge/ResultUtils.java:48-63 | a built record determines all of its inputs: nothing given is lost |
| Json.IsNullField | dev/platforms/android/src/com/sony/cdp/plugin/nativebridge/ResultUtils.java:101 | `JSONObject.isNull(key)` holds when the key is absent or bound to JSON null |
| ResultFormat.StampCode | dev/platforms/android/src/com/sony/cdp/plugin/nativebridge/ResultUtils.java:99-103 | after stamping, `code` is present and not null; an absent or null `code` becomes the default, an existing one is kept; no other key is added, removed or changed |
| ResultFormat.StampCodeIdempotent | dev/platforms/android/src/com/sony/cdp/plugin/nativebridge/ResultUtils.java:101-102 | stamping an already stamped record changes nothing, whatever the default |
| ResultFormat.StampCodeKeepsBuiltRecord | dev/platforms/android/src/com/sony/cdp/plugin/nativebridge/ResultUtils.java:113-115 | a record from `makeResult` passes the stamping step unchanged |
| ResultFormat.Payload | dev/platforms/android/src/com/sony/cdp/plugin/nativebridge/ResultUtils.java:120-126 | the delivered record always has a non-null `code`; that code is the default exactly when the record was null, its `code` was absent or null, or it already held the default |
| ResultFormat.PayloadOfNull | dev/platforms/android/src/com/sony/cdp/plugin/nativebridge/ResultUtils.java:99-100 | for a null record the payload is `code` and its name only, with no `message`, `taskId` or `args` |
| ResultFormat.PayloadKeepsOtherKeys | dev/platforms/android/src/com/sony/cdp/plugin/nativebridge/ResultUtils.java:124-125 | for a given record every key other than `code` is delivered with its presence and value unchanged |
| Json.JsonObject.constructor | dev/platforms/android/src/com/sony/cdp/plugin/nativebridge/ResultUtils.java:48 | a new JSON object is empty |
| Json.JsonObject.Put | dev/platforms/android/src/com/sony/cdp/plugin/nativebridge/ResultUtils.java:49-62 | `put` binds the key to the value and leaves the other keys alone |
| Json.JsonArray.constructor | dev/platforms/android/src/com/sony/cdp/plugin/nativebridge/ResultUtils.java:58 | a new JSON array is empty |
| Json.JsonArray.Put | dev/platforms/android/src/com/sony/cdp/plugin/nativebridge/ResultUtils.java:59-61 | `put` appends one value at the end |
| Cordova.CallbackContext.SendPluginResult | dev/platforms/android/src/com/sony/cdp/plugin/nativebridge/ResultUtils.java:104 | one call is exactly one delivery, of the given status and the record's current contents |
| NativeBridge.ResultUtils.constructor | dev/platforms/android/src/com/sony/cdp/plugin/nativebridge/ResultUtils.java:31 | the table starts unbuilt (`mErrorTbl` is null) |
| NativeBridge.ResultUtils.Init | dev/platforms/android/src/com/sony/cdp/plugin/nativebridge/ResultUtils.java:137-149 | after `init` the table maps each of the nine codes to its enumerated name and holds no other key |
| NativeBridge.ResultUtils.MakeResult | dev/platforms/android/src/com/sony/cdp/plugin/nativebridge/ResultUtils.java:39-69 | builds the table on first use and never changes it afterwards; returns a new object whose contents are `ResultFields` of the inputs (the loop copies the arguments in order) |
| NativeBridge.ResultUtils.MakeResultWithMessage | dev/platforms/android/src/com/sony/cdp/plugin/nativebridge/ResultUtils.java:75-77 | returns exactly what `makeResult(SUCCESS_OK, message, taskId, args)` returns |
| NativeBridge.ResultUtils.MakeResultForTask | dev/platforms/android/src/com/sony/cdp/plugin/nativebridge/ResultUtils.java:83-85 | returns exactly what `makeResult(SUCCESS_OK, null, taskId, args)` returns |
| NativeBridge.ResultUtils.SendSuccessResult | dev/platforms/android/src/com/sony/cdp/plugin/nativebridge/ResultUtils.java:97-108 | the caller's record is stamped with `SUCCESS_OK` in place; exactly one delivery is appended, with status OK and the payload for the record (for null, `makeResult(null)`) |
| NativeBridge.ResultUtils.SendSuccessForTask | dev/platforms/android/src/com/sony/cdp/plugin/nativebridge/ResultUtils.java:90-92 | exactly one OK delivery of `makeResult(taskId)` |
| NativeBridge.ResultUtils.SendErrorResult | dev/platforms/android/src/com/sony/cdp/plugin/nativebridge/ResultUtils.java:120-131 | the caller's record is stamped with `ERROR_FAIL` in place; exactly one delivery is appended, with status ERROR and the payload for the record (for null, `makeResult(ERROR_FAIL, null, null)`) |
| NativeBridge.ResultUtils.SendErrorForTask | dev/platforms/android/src/com/sony/cdp/plugin/nativebridge/ResultUtils.java:113-115 | exactly one ERROR delivery of `makeResult(code, message, taskId)` |

## Left out

- The `JSONException` catch branches and their `Log.e` calls (ResultUtils.java:64-66, 105-107, 128-130). Keys are never null, and the encoder only puts ints, strings and arrays, so `put` cannot throw. For that reason `MakeResult` returns a non-null object, and every send makes its delivery.
- `android.util.Log`: platform logging with no effect on results.
- The textual JSON form and the internals of `org.json` (number coercion, `put` of a null value removing a key). Records are maps from key strings to abstract values.
- `Value`: arguments are opaque values. How `JSONArray` wraps special Java objects, such as non-finite doubles or collections, is not modelled.
- Thread safety of the lazy `mErrorTbl` initialisation. The model is sequential. Its invariant `Valid` says the table is either unbuilt or complete and never changes once built.
- A `null` varargs array (`(Object[]) null`) or a null `CallbackContext`. Both make the Java code throw `NullPointerException`. The model takes a sequence and a non-null reference.
- What the host does with a delivery (`PluginResult`, the JavaScript side). It is reduced to a log.
- `CDPGateContext.h` is only an Objective-C interface: properties and an initializer with no logic. It is not part of this model.
