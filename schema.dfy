/**
 * Values shared by the backend structuring step, the Notion sync and the
 * browser's result view: the loosely-shaped JSON the extraction step hands
 * over, and the typed meeting record that the backend validates, returns to
 * the browser and the browser renders.
 */
module Schema {

  datatype Option<+T> = None | Some(value: T)

  datatype Result<+T, +E> = Ok(value: T) | Err(error: E)

  /**
   * A JSON-like value as the backend sees it after parsing: Python's None,
   * bool, int, str, list and dict.
   */
  datatype Json =
    | JNull
    | JBool(b: bool)
    | JNum(n: int)
    | JStr(s: string)
    | JList(items: seq<Json>)
    | JObj(fields: map<string, Json>)

  /** Python's `d.get(key, default)`. */
  function Get(d: map<string, Json>, key: string, default: Json): Json
  {
    if key in d then d[key] else default
  }

  /**
   * Truthiness of an optional string. Python (`not s`, `s or x`) and
   * JavaScript (`s && x`, `s || x`) agree on it: null and "" are false.
   */
  predicate Truthy(o: Option<string>)
  {
    o.Some? && o.value != ""
  }

  /** One action item (the `TodoItem` model of the backend, the `TodoItem` interface of the client). */
  datatype TodoItem = TodoItem(action: string, description: Option<string>, owner: Option<string>, due: Option<string>)

  /** Meeting metadata (`MeetingInfo` on both sides). */
  datatype MeetingInfo = MeetingInfo(title: Option<string>, date: Option<string>, participants: seq<string>)

  /** The whole analysis result (`MeetingResult` in the backend, `ResultData` in the client). */
  datatype MeetingResult = MeetingResult(summary: string, meetingInfo: MeetingInfo, todos: seq<TodoItem>)
}
