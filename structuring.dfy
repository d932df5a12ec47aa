/**
 * The structuring step of the backend (`StructuringAgent.process`). It turns
 * the extraction step's loosely-shaped dictionary into the fixed
 * summary / meeting_info / todos record, filling defaults only for absent
 * keys and keeping the todos in their original order. Also the shape check
 * that `IntegrationAgent.validate` performs with the pydantic models.
 */
module Structuring {
  import opened Schema

  /** A cleaned todo: exactly the four keys, each holding the raw todo's value or the default. */
  datatype CleanedTodo = CleanedTodo(action: Json, description: Json, owner: Json, due: Json)

  datatype StructuredInfo = StructuredInfo(title: Json, date: Json, participants: Json)

  /** The `structured_data` dictionary the step returns. */
  datatype Structured = Structured(summary: string, meetingInfo: StructuredInfo, todos: seq<CleanedTodo>)

  /** The exceptions the todo loop raises on a malformed `todos` value. */
  datatype ProcessError =
    | NotIterable    // TypeError: iterating None, a bool or a number
    | TodoHasNoGet   // AttributeError: an element that is not a dict has no `.get`

  const UntitledMeeting := "Untitled Meeting"

  /** `extracted_data.get("todos", [])` */
  function RawTodos(extracted: map<string, Json>): Json
  {
    Get(extracted, "todos", JList([]))
  }

  /**
   * What `for todo in raw_todos` visits. A list yields its elements and a
   * string its one-character strings. A dict yields its keys, all strings, so
   * a non-empty one fails on its first key, which has no `.get`; that failure
   * is reported here at once. Anything else is not iterable.
   */
  function Iterated(raw: Json): (r: Result<seq<Json>, ProcessError>)
    ensures r.Err? <==> raw.JNull? || raw.JBool? || raw.JNum? || (raw.JObj? && raw.fields != map[])
    ensures r.Err? ==> r.error == (if raw.JObj? then TodoHasNoGet else NotIterable)
    ensures raw.JList? ==> r == Ok(raw.items)
    ensures raw.JStr? ==> |r.value| == |raw.s| && forall i :: 0 <= i < |raw.s| ==> r.value[i] == JStr([raw.s[i]])
    ensures raw.JObj? && r.Ok? ==> r.value == []
  {
    match raw
    case JList(xs) => Ok(xs)
    case JStr(s) => Ok(seq(|s|, i requires 0 <= i < |s| => JStr([s[i]])))
    case JObj(m) => if m == map[] then Ok([]) else Err(TodoHasNoGet)
    case _ => Err(NotIterable)
  }

  /**
   * The dictionary built for one raw todo: a present key is copied whatever
   * its value (null included); an absent one becomes null, except
   * `description`, which becomes "".
   */
  function CleanTodo(todo: map<string, Json>): (c: CleanedTodo)
    ensures "action" in todo ==> c.action == todo["action"]
    ensures "action" !in todo ==> c.action == JNull
    ensures "description" in todo ==> c.description == todo["description"]
    ensures "description" !in todo ==> c.description == JStr("")
    ensures "owner" in todo ==> c.owner == todo["owner"]
    ensures "owner" !in todo ==> c.owner == JNull
    ensures "due" in todo ==> c.due == todo["due"]
    ensures "due" !in todo ==> c.due == JNull
  {
    CleanedTodo(Get(todo, "action", JNull), Get(todo, "description", JStr("")),
                Get(todo, "owner", JNull), Get(todo, "due", JNull))
  }

  /** A cleaned todo written back as a dictionary with its four keys. */
  function AsDict(c: CleanedTodo): map<string, Json>
  {
    map["action" := c.action, "description" := c.description, "owner" := c.owner, "due" := c.due]
  }

  /** Cleaning is a normalisation: cleaning an already-cleaned todo changes nothing. */
  lemma CleanTodoIdempotent(c: CleanedTodo)
    ensures CleanTodo(AsDict(c)) == c
  {
  }

  /**
   * The cleaned todos of a whole list: one per element, in order, or the
   * AttributeError raised at the first element that is not a dict.
   */
  function CleanAll(items: seq<Json>): (r: Result<seq<CleanedTodo>, ProcessError>)
    ensures r.Ok? <==> forall i :: 0 <= i < |items| ==> items[i].JObj?
    ensures r.Err? ==> r.error == TodoHasNoGet
    ensures r.Ok? ==> |r.value| == |items|
    ensures r.Ok? ==> forall i :: 0 <= i < |items| ==> r.value[i] == CleanTodo(items[i].fields)
  {
    if items == [] then Ok([])
    else if !items[0].JObj? then Err(TodoHasNoGet)
    else
      match CleanAll(items[1..])
      case Ok(rest) => Ok([CleanTodo(items[0].fields)] + rest)
      case Err(e) => Err(e)
  }

  /** The record `StructuringAgent.process` returns, or the exception it raises. */
  function Structure(summary: string, extracted: map<string, Json>): (r: Result<Structured, ProcessError>)
    ensures r.Ok? <==> Iterated(RawTodos(extracted)).Ok? && CleanAll(Iterated(RawTodos(extracted)).value).Ok?
    ensures r.Ok? ==> r.value.summary == summary
    ensures r.Ok? ==> r.value.meetingInfo.title == Get(extracted, "meeting_title", JStr(UntitledMeeting))
    ensures r.Ok? ==> r.value.meetingInfo.date == Get(extracted, "meeting_date", JNull)
    ensures r.Ok? ==> r.value.meetingInfo.participants == Get(extracted, "participants", JList([]))
  {
    var it := Iterated(RawTodos(extracted));
    if it.Err? then Err(it.error)
    else
      match CleanAll(it.value)
      case Err(e) => Err(e)
      case Ok(todos) =>
        Ok(Structured(summary,
                      StructuredInfo(Get(extracted, "meeting_title", JStr(UntitledMeeting)),
                                     Get(extracted, "meeting_date", JNull),
                                     Get(extracted, "participants", JList([]))),
                      todos))
  }

  /**
   * The todo list is a map: no todo is added, dropped or reordered, and the
   * i-th cleaned todo comes from the i-th raw todo.
   */
  lemma StructureKeepsTodos(summary: string, extracted: map<string, Json>)
    requires Structure(summary, extracted).Ok?
    ensures Iterated(RawTodos(extracted)).Ok?
    ensures var raw := Iterated(RawTodos(extracted)).value;
            var todos := Structure(summary, extracted).value.todos;
            && |todos| == |raw|
            && forall i :: 0 <= i < |raw| ==> raw[i].JObj? && todos[i] == CleanTodo(raw[i].fields)
  {
  }

  /** The meeting title is "Untitled Meeting" when the key is absent, and the extracted value (even null) otherwise. */
  lemma TitleDefaultOnlyWhenAbsent(summary: string, extracted: map<string, Json>)
    requires Structure(summary, extracted).Ok?
    ensures "meeting_title" !in extracted ==> Structure(summary, extracted).value.meetingInfo.title == JStr(UntitledMeeting)
    ensures "meeting_title" in extracted ==> Structure(summary, extracted).value.meetingInfo.title == extracted["meeting_title"]
  {
  }

  /** The step as the source writes it: an append loop over the raw todos. */
  method Process(summary: string, extracted: map<string, Json>) returns (r: Result<Structured, ProcessError>)
    ensures r == Structure(summary, extracted)
  {
    var it := Iterated(RawTodos(extracted));
    if it.Err? {
      return Err(it.error);
    }
    var raw := it.value;
    var cleaned: seq<CleanedTodo> := [];
    var i := 0;
    while i < |raw|
      invariant 0 <= i <= |raw|
      invariant forall j :: 0 <= j < i ==> raw[j].JObj?
      invariant |cleaned| == i
      invariant forall j :: 0 <= j < i ==> cleaned[j] == CleanTodo(raw[j].fields)
    {
      if !raw[i].JObj? {
        return Err(TodoHasNoGet);
      }
      cleaned := cleaned + [CleanTodo(raw[i].fields)];
      i := i + 1;
    }
    assert CleanAll(raw).value == cleaned;
    r := Ok(Structured(summary,
                       StructuredInfo(Get(extracted, "meeting_title", JStr(UntitledMeeting)),
                                      Get(extracted, "meeting_date", JNull),
                                      Get(extracted, "participants", JList([]))),
                       cleaned));
  }

  // ----- the pydantic shape check of `IntegrationAgent.validate` -----

  /** `Optional[str]`: null or a string; the outer None means the value is refused. */
  function OptionalString(v: Json): (r: Option<Option<string>>)
    ensures r.Some? <==> v.JNull? || v.JStr?
    ensures v.JNull? ==> r == Some(None)
    ensures v.JStr? ==> r == Some(Some(v.s))
  {
    match v
    case JNull => Some(None)
    case JStr(s) => Some(Some(s))
    case _ => None
  }

  /** `List[str]`: a list whose every element is a string. */
  function StringList(items: seq<Json>): (r: Option<seq<string>>)
    ensures r.Some? <==> forall i :: 0 <= i < |items| ==> items[i].JStr?
    ensures r.Some? ==> |r.value| == |items| && forall i :: 0 <= i < |items| ==> r.value[i] == items[i].s
  {
    if items == [] then Some([])
    else if !items[0].JStr? then None
    else
      match StringList(items[1..])
      case None => None
      case Some(rest) => Some([items[0].s] + rest)
  }

  /** The `TodoItem` model: `action: str`, the other three `Optional[str]`. */
  function TypedTodo(c: CleanedTodo): (r: Option<TodoItem>)
    ensures r.Some? <==> && c.action.JStr?
                         && (c.description.JNull? || c.description.JStr?)
                         && (c.owner.JNull? || c.owner.JStr?)
                         && (c.due.JNull? || c.due.JStr?)
    ensures r.Some? ==> && JStr(r.value.action) == c.action
                        && Some(r.value.description) == OptionalString(c.description)
                        && Some(r.value.owner) == OptionalString(c.owner)
                        && Some(r.value.due) == OptionalString(c.due)
  {
    if c.action.JStr? && OptionalString(c.description).Some? && OptionalString(c.owner).Some?
       && OptionalString(c.due).Some?
    then Some(TodoItem(c.action.s, OptionalString(c.description).value,
                       OptionalString(c.owner).value, OptionalString(c.due).value))
    else None
  }

  /** `List[TodoItem]`: every todo fits, and the typed list keeps their order. */
  function TypedTodos(cs: seq<CleanedTodo>): (r: Option<seq<TodoItem>>)
    ensures r.Some? <==> forall i :: 0 <= i < |cs| ==> TypedTodo(cs[i]).Some?
    ensures r.Some? ==> |r.value| == |cs| && forall i :: 0 <= i < |cs| ==> Some(r.value[i]) == TypedTodo(cs[i])
  {
    if cs == [] then Some([])
    else
      match (TypedTodo(cs[0]), TypedTodos(cs[1..]))
      case (Some(t), Some(rest)) => Some([t] + rest)
      case _ => None
  }

  /**
   * `MeetingResult(**data)` seen as a shape check: the typed record when the
   * structured dictionary fits the models, None when validation fails.
   */
  function Validate(s: Structured): (m: Option<MeetingResult>)
    ensures m.Some? ==> m.value.summary == s.summary
    ensures m.Some? ==> |m.value.todos| == |s.todos|
                        && forall i :: 0 <= i < |s.todos| ==> Some(m.value.todos[i]) == TypedTodo(s.todos[i])
    ensures m.Some? ==> Some(m.value.meetingInfo.title) == OptionalString(s.meetingInfo.title)
                        && Some(m.value.meetingInfo.date) == OptionalString(s.meetingInfo.date)
    ensures m.Some? ==> s.meetingInfo.participants.JList?
                        && Some(m.value.meetingInfo.participants) == StringList(s.meetingInfo.participants.items)
    ensures m.None? <==> || TypedTodos(s.todos).None?
                         || OptionalString(s.meetingInfo.title).None?
                         || OptionalString(s.meetingInfo.date).None?
                         || !s.meetingInfo.participants.JList?
                         || StringList(s.meetingInfo.participants.items).None?
  {
    var info := s.meetingInfo;
    match (TypedTodos(s.todos), OptionalString(info.title), OptionalString(info.date))
    case (Some(todos), Some(title), Some(date)) =>
      if info.participants.JList? then
        match StringList(info.participants.items)
        case Some(people) => Some(MeetingResult(s.summary, MeetingInfo(title, date, people), todos))
        case None => None
      else None
    case _ => None
  }
}
