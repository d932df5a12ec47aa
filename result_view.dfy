/**
 * The result view (`ResultViewer`): a pure function from the analysis result
 * to what is displayed. Layout, styling and icons are not modelled; the view
 * records the texts, placeholders, chips, rows and badges.
 */
module ResultView {
  import opened Schema
  import Structuring

  const UntitledPlaceholder := "제목 없음"
  const UnknownDatePlaceholder := "날짜 불명"
  const NoParticipantsText := "감지된 참여자 없음"
  const NoTodosText := "추출된 할 일이 없습니다."
  const DueSuffix := "까지"
  const SyncNotice := "Notion 데이터베이스 동기화 완료"

  /** The participants area: one chip per name, or the placeholder. */
  datatype ParticipantsView = NoParticipants(text: string) | Chips(labels: seq<string>)

  /** One todo row: its action, description, and the badges shown for it. */
  datatype TodoRow = TodoRow(action: string, description: string, dueBadge: Option<string>, ownerBadge: Option<string>)

  /** The todo area: the empty message, or one row per todo. */
  datatype TodoListView = NoTodos(text: string) | Rows(rows: seq<TodoRow>)

  datatype View = View(title: string, date: string, participants: ParticipantsView, summary: string,
                       todoCount: nat, todos: TodoListView, notice: string)

  /** `value || placeholder` */
  function OrElse(value: Option<string>, placeholder: string): string
  {
    if Truthy(value) then value.value else placeholder
  }

  /** What React shows for a string that may be null: nothing for null. */
  function Shown(value: Option<string>): string
  {
    if value.Some? then value.value else ""
  }

  /** One row: the due badge only for a truthy due, reading "<due>까지"; the owner badge only for a truthy owner. */
  function RenderTodo(t: TodoItem): (row: TodoRow)
    ensures row.action == t.action
    ensures row.dueBadge.Some? <==> Truthy(t.due)
    ensures row.dueBadge.Some? ==> row.dueBadge.value == t.due.value + DueSuffix
    ensures row.ownerBadge.Some? <==> Truthy(t.owner)
    ensures row.ownerBadge.Some? ==> row.ownerBadge.value == t.owner.value
  {
    TodoRow(t.action, Shown(t.description),
            if Truthy(t.due) then Some(t.due.value + DueSuffix) else None,
            if Truthy(t.owner) then Some(t.owner.value) else None)
  }

  /** `todos.map(...)`: one row per todo, in input order, none sorted out or filtered. */
  function RenderRows(todos: seq<TodoItem>): (rows: seq<TodoRow>)
    ensures |rows| == |todos|
    ensures forall i :: 0 <= i < |todos| ==> rows[i] == RenderTodo(todos[i])
  {
    if todos == [] then [] else [RenderTodo(todos[0])] + RenderRows(todos[1..])
  }

  /** The whole view of one result. */
  function Render(data: MeetingResult): (v: View)
    ensures v.title == (if Truthy(data.meetingInfo.title) then data.meetingInfo.title.value else UntitledPlaceholder)
    ensures v.date == (if Truthy(data.meetingInfo.date) then data.meetingInfo.date.value else UnknownDatePlaceholder)
    ensures v.summary == data.summary
    ensures v.todoCount == |data.todos|
    ensures v.participants.NoParticipants? <==> data.meetingInfo.participants == []
    ensures v.participants.NoParticipants? ==> v.participants.text == NoParticipantsText
    ensures v.participants.Chips? ==> v.participants.labels == data.meetingInfo.participants
    ensures v.todos.NoTodos? <==> data.todos == []
    ensures v.todos.NoTodos? ==> v.todos.text == NoTodosText
    ensures v.todos.Rows? ==> |v.todos.rows| == |data.todos|
                              && forall i :: 0 <= i < |data.todos| ==> v.todos.rows[i] == RenderTodo(data.todos[i])
  {
    var info := data.meetingInfo;
    View(OrElse(info.title, UntitledPlaceholder),
         OrElse(info.date, UnknownDatePlaceholder),
         if |info.participants| > 0 then Chips(info.participants) else NoParticipants(NoParticipantsText),
         data.summary,
         |data.todos|,
         if |data.todos| == 0 then NoTodos(NoTodosText) else Rows(RenderRows(data.todos)),
         SyncNotice)
  }

  /** A result with nothing detected shows every placeholder and the summary verbatim. */
  lemma EmptyResultShowsPlaceholders()
    ensures Render(MeetingResult("S", MeetingInfo(None, None, []), []))
            == View(UntitledPlaceholder, UnknownDatePlaceholder, NoParticipants(NoParticipantsText), "S",
                    0, NoTodos(NoTodosText), SyncNotice)
  {
  }

  /**
   * End to end: when the backend's structuring step succeeds and its output
   * validates, the page shows one row per extracted todo, in extraction order,
   * each titled with the action string that todo carried.
   */
  lemma ExtractedTodosReachTheView(summary: string, extracted: map<string, Json>)
    requires Structuring.Structure(summary, extracted).Ok?
    requires Structuring.Validate(Structuring.Structure(summary, extracted).value).Some?
    ensures var raw := Structuring.Iterated(Structuring.RawTodos(extracted)).value;
            var view := Render(Structuring.Validate(Structuring.Structure(summary, extracted).value).value);
            && view.todoCount == |raw|
            && view.summary == summary
            && (view.todos.NoTodos? <==> raw == [])
            && (view.todos.Rows? ==>
                  forall i :: 0 <= i < |raw| ==>
                    raw[i].JObj? && "action" in raw[i].fields && raw[i].fields["action"] == JStr(view.todos.rows[i].action))
  {
    var s := Structuring.Structure(summary, extracted).value;
    Structuring.StructureKeepsTodos(summary, extracted);
    var m := Structuring.Validate(s).value;
    var raw := Structuring.Iterated(Structuring.RawTodos(extracted)).value;
    forall i | 0 <= i < |raw|
      ensures raw[i].JObj? && "action" in raw[i].fields && raw[i].fields["action"] == JStr(m.todos[i].action)
    {
      assert Some(m.todos[i]) == Structuring.TypedTodo(s.todos[i]);
    }
  }
}
