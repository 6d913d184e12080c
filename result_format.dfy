/**
 * What `ResultUtils` computes, as values: the status codes and their names,
 * the record `makeResult` builds, and the record the send helpers deliver.
 */
module ResultFormat {
  import opened Wrappers
  import opened HexFormat
  import opened Json

  /** Prefix of every `name` field. */
  const TAG: string := "[com.sony.cdp.plugin.nativebridge][Native][ResultUtil] "

  /** Prefix of the name synthesised for a code outside the table. */
  const CUSTOM_PREFIX: string := "ERROR_CUSTOM:0x"

  const SUCCESS_OK: Int32 := 0x0000
  const ERROR_FAIL: Int32 := 0x0001
  const ERROR_CANCEL: Int32 := 0x0002
  const ERROR_INVALID_ARG: Int32 := 0x0003
  const ERROR_NOT_IMPLEMENT: Int32 := 0x0004
  const ERROR_NOT_SUPPORT: Int32 := 0x0005
  const ERROR_INVALID_OPERATION: Int32 := 0x0006
  const ERROR_CLASS_NOT_FOUND: Int32 := 0x0007
  const ERROR_METHOD_NOT_FOUND: Int32 := 0x0008

  /** The enumerated name of a known status code; `None` for a custom code. */
  function KnownName(code: int): (r: Option<string>)
    ensures r.Some? <==> SUCCESS_OK <= code <= ERROR_METHOD_NOT_FOUND
  {
    match code
    case 0 => Some("SUCCESS_OK")
    case 1 => Some("ERROR_FAIL")
    case 2 => Some("ERROR_CANCEL")
    case 3 => Some("ERROR_INVALID_ARG")
    case 4 => Some("ERROR_NOT_IMPLEMENT")
    case 5 => Some("ERROR_NOT_SUPPORT")
    case 6 => Some("ERROR_INVALID_OPERATION")
    case 7 => Some("ERROR_CLASS_NOT_FOUND")
    case 8 => Some("ERROR_METHOD_NOT_FOUND")
    case _ => None
  }

  /** `SparseArray.get(key)`: the bound value, or null for an absent key. */
  function Lookup(table: map<int, string>, key: int): Option<string> {
    if key in table then Some(table[key]) else None
  }

  /** The table holds exactly the nine enumerated names. */
  ghost predicate IsErrorTable(table: map<int, string>) {
    forall code :: Lookup(table, code) == KnownName(code)
  }

  /** The nine enumerated names are pairwise different. */
  lemma KnownNamesDistinct(c1: int, c2: int)
    requires KnownName(c1).Some? && KnownName(c1) == KnownName(c2)
    ensures c1 == c2
  {
  }

  /** The synthesised part of a custom code's name. */
  function CustomName(code: Int32): (r: string)
    ensures |r| > |CUSTOM_PREFIX| && r[..|CUSTOM_PREFIX|] == CUSTOM_PREFIX
    ensures IsCanonicalHex(r[|CUSTOM_PREFIX|..])
    ensures FromHex(r[|CUSTOM_PREFIX|..]) == Unsigned32(code)
  {
    var digits := ToHex(Unsigned32(code));
    FromHexToHex(Unsigned32(code));
    assert (CUSTOM_PREFIX + digits)[|CUSTOM_PREFIX|..] == digits;
    CUSTOM_PREFIX + digits
  }

  /** The `name` field of the record for `code`. */
  function ResultName(code: Int32): (r: string)
    ensures |r| > |TAG| && r[..|TAG|] == TAG
    ensures KnownName(code).Some? ==> r[|TAG|..] == KnownName(code).value
  {
    TAG + (if KnownName(code).Some? then KnownName(code).value else CustomName(code))
  }

  /** Each of the nine known codes is named by the tag and its enumerated name. */
  lemma KnownResultNames()
    ensures ResultName(SUCCESS_OK) == TAG + "SUCCESS_OK"
    ensures ResultName(ERROR_FAIL) == TAG + "ERROR_FAIL"
    ensures ResultName(ERROR_CANCEL) == TAG + "ERROR_CANCEL"
    ensures ResultName(ERROR_INVALID_ARG) == TAG + "ERROR_INVALID_ARG"
    ensures ResultName(ERROR_NOT_IMPLEMENT) == TAG + "ERROR_NOT_IMPLEMENT"
    ensures ResultName(ERROR_NOT_SUPPORT) == TAG + "ERROR_NOT_SUPPORT"
    ensures ResultName(ERROR_INVALID_OPERATION) == TAG + "ERROR_INVALID_OPERATION"
    ensures ResultName(ERROR_CLASS_NOT_FOUND) == TAG + "ERROR_CLASS_NOT_FOUND"
    ensures ResultName(ERROR_METHOD_NOT_FOUND) == TAG + "ERROR_METHOD_NOT_FOUND"
  {
  }

  /**
   * A code outside the table is named by the tag, `ERROR_CUSTOM:0x` and the
   * one canonical lower-case hex string whose value is the code read as an
   * unsigned 32-bit number; that string has at most eight digits.
   */
  lemma CustomResultName(code: Int32, digits: string)
    requires KnownName(code).None?
    requires IsCanonicalHex(digits) && FromHex(digits) == Unsigned32(code)
    ensures ResultName(code) == TAG + CUSTOM_PREFIX + digits
    ensures |digits| <= 8
  {
    ToHexFromHex(digits);
    assert ToHex(Unsigned32(code)) == digits;
    assert CustomName(code) == CUSTOM_PREFIX + digits;
    ToHex32Length(code);
  }

  /** No enumerated name begins like a custom name. */
  lemma KnownNameNotCustom(code: int, suffix: string)
    requires KnownName(code).Some?
    ensures KnownName(code).value != CUSTOM_PREFIX + suffix
  {
    var s := CUSTOM_PREFIX + suffix;
    assert s[7] == 'U' && s[12] == ':';
  }

  /** The name determines the code: different codes never share a name. */
  lemma ResultNameInjective(c1: Int32, c2: Int32)
    requires ResultName(c1) == ResultName(c2)
    ensures c1 == c2
  {
    var s1, s2 := ResultName(c1)[|TAG|..], ResultName(c2)[|TAG|..];
    assert s1 == s2;
    if KnownName(c1).Some? && KnownName(c2).None? {
      KnownNameNotCustom(c1, ToHex(Unsigned32(c2)));
    } else if KnownName(c1).None? && KnownName(c2).Some? {
      KnownNameNotCustom(c2, ToHex(Unsigned32(c1)));
    } else if KnownName(c1).None? {
      assert CustomName(c1) == CustomName(c2);
      var h1, h2 := ToHex(Unsigned32(c1)), ToHex(Unsigned32(c2));
      assert h1 == CustomName(c1)[|CUSTOM_PREFIX|..];
      assert h2 == CustomName(c2)[|CUSTOM_PREFIX|..];
      ToHexInjective(Unsigned32(c1), Unsigned32(c2));
      Unsigned32Injective(c1, c2);
    } else {
      KnownNamesDistinct(c1, c2);
    }
  }

  /** The keys a record built by `makeResult` may hold. */
  const RESULT_KEYS: set<string> := {"code", "name", "message", "taskId", "args"}

  /**
   * The record `makeResult(code, message, taskId, args...)` returns: `code`
   * and `name` always, `message` and `taskId` only when given, `args` only
   * when at least one argument is given, as a list in call order.
   */
  function ResultFields(code: Int32, message: Option<string>, taskId: Option<string>,
                        args: seq<Value>): (r: Record)
    ensures r.Keys <= RESULT_KEYS
    ensures "code" in r && r["code"] == Int(code)
    ensures "name" in r && r["name"] == Str(ResultName(code))
    ensures "message" in r <==> message.Some?
    ensures "message" in r ==> r["message"] == Str(message.value)
    ensures "taskId" in r <==> taskId.Some?
    ensures "taskId" in r ==> r["taskId"] == Str(taskId.value)
    ensures "args" in r <==> |args| > 0
    ensures "args" in r ==> r["args"] == List(args)
  {
    var base := map["code" := Int(code), "name" := Str(ResultName(code))];
    var withMessage := if message.Some? then base["message" := Str(message.value)] else base;
    var withTask := if taskId.Some? then withMessage["taskId" := Str(taskId.value)] else withMessage;
    if |args| > 0 then withTask["args" := List(args)] else withTask
  }

  /** Two records built from different inputs differ. */
  lemma ResultFieldsInjective(
    c1: Int32, m1: Option<string>, t1: Option<string>, a1: seq<Value>,
    c2: Int32, m2: Option<string>, t2: Option<string>, a2: seq<Value>)
    requires ResultFields(c1, m1, t1, a1) == ResultFields(c2, m2, t2, a2)
    ensures c1 == c2 && m1 == m2 && t1 == t2 && a1 == a2
  {
  }

  /**
   * The stamping step of the send helpers: when `code` is absent or null it is
   * set to `code`; otherwise the record is left as it is.
   */
  function StampCode(r: Record, code: Int32): (s: Record)
    ensures "code" in s && s["code"] != Null
    ensures IsNullField(r, "code") ==> s["code"] == Int(code)
    ensures !IsNullField(r, "code") ==> s["code"] == r["code"]
    ensures s.Keys == r.Keys + {"code"}
    ensures forall k :: k in r && k != "code" ==> s[k] == r[k]
  {
    if IsNullField(r, "code") then r["code" := Int(code)] else r
  }

  /** Stamping twice is stamping once, whatever the second default is. */
  lemma StampCodeIdempotent(r: Record, first: Int32, second: Int32)
    ensures StampCode(StampCode(r, first), second) == StampCode(r, first)
  {
  }

  /** A record built by `makeResult` is never changed by stamping. */
  lemma StampCodeKeepsBuiltRecord(code: Int32, message: Option<string>, taskId: Option<string>,
                                  args: seq<Value>, default: Int32)
    ensures StampCode(ResultFields(code, message, taskId, args), default)
            == ResultFields(code, message, taskId, args)
  {
  }

  /**
   * The record a send helper delivers for the caller's `result` (null is
   * `None`): a fresh default record for null, the stamped record otherwise.
   */
  function Payload(result: Option<Record>, default: Int32): (p: Record)
    ensures "code" in p && p["code"] != Null
    ensures p["code"] == Int(default) <==>
            result.None? || IsNullField(result.value, "code") || result.value["code"] == Int(default)
  {
    match result
    case None => ResultFields(default, None, None, [])
    case Some(r) => StampCode(r, default)
  }

  /**
   * For a null record the delivered payload holds just `code` and the name of
   * that code, with no `message`, `taskId` or `args`.
   */
  lemma PayloadOfNull(default: Int32)
    ensures Payload(None, default) == map["code" := Int(default), "name" := Str(ResultName(default))]
  {
  }

  /** For a given record every key other than `code` is delivered unchanged. */
  lemma PayloadKeepsOtherKeys(r: Record, default: Int32, key: string)
    requires key != "code"
    ensures key in Payload(Some(r), default) <==> key in r
    ensures key in r ==> Payload(Some(r), default)[key] == r[key]
  {
  }
}
