/**
 * The pure part of the Notion sync: the `YYYY-MM-DD` check
 * (`IntegrationAgent._is_valid_date`) and the property map built for one
 * todo inside the `sync_to_notion` loop.
 */
module NotionRow {
  import opened Schema

  // ----- the date check -----

  /** One position of a fixed-width pattern: `\d` or a literal character. */
  datatype Atom = Digit | Literal(c: char)

  /** `\d{4}-\d{2}-\d{2}` */
  const DatePattern: seq<Atom> :=
    [Digit, Digit, Digit, Digit, Literal('-'), Digit, Digit, Literal('-'), Digit, Digit]

  predicate IsAsciiDigit(c: char)
  {
    '0' <= c <= '9'
  }

  predicate AtomMatches(a: Atom, c: char)
  {
    match a
    case Digit => IsAsciiDigit(c)
    case Literal(l) => c == l
  }

  /** The pattern matches the whole of `s`, character by character. */
  function MatchesExactly(p: seq<Atom>, s: string): bool
  {
    if p == [] then s == []
    else s != [] && AtomMatches(p[0], s[0]) && MatchesExactly(p[1..], s[1..])
  }

  lemma {:induction false} MatchesExactlyIff(p: seq<Atom>, s: string)
    ensures MatchesExactly(p, s) <==> |s| == |p| && forall i :: 0 <= i < |p| ==> AtomMatches(p[i], s[i])
  {
    if p != [] && s != [] {
      MatchesExactlyIff(p[1..], s[1..]);
      if |s| == |p| && forall i :: 0 <= i < |p| ==> AtomMatches(p[i], s[i]) {
        forall i | 0 <= i < |p| - 1 ensures AtomMatches(p[1..][i], s[1..][i]) {
          assert AtomMatches(p[i + 1], s[i + 1]);
        }
      }
    }
  }

  /** `re.match(r"^" + p + "$", s)`: Python's `$` also matches just before one final newline. */
  function AnchoredMatch(p: seq<Atom>, s: string): bool
  {
    MatchesExactly(p, s) || (|s| > 0 && s[|s| - 1] == '\n' && MatchesExactly(p, s[..|s| - 1]))
  }

  /** `_is_valid_date`: false for null and "", otherwise the anchored `\d{4}-\d{2}-\d{2}` match. */
  function IsValidDate(d: Option<string>): (ok: bool)
    ensures !Truthy(d) ==> !ok
  {
    Truthy(d) && AnchoredMatch(DatePattern, d.value)
  }

  /** An independent description of the accepted shape: four digits, `-`, two digits, `-`, two digits. */
  predicate YearMonthDay(s: string)
  {
    && |s| == 10
    && s[4] == '-' && s[7] == '-'
    && forall i :: 0 <= i < 10 && i != 4 && i != 7 ==> IsAsciiDigit(s[i])
  }

  /** The check accepts exactly the `YYYY-MM-DD` shape, optionally followed by one newline. */
  lemma IsValidDateIff(s: string)
    ensures IsValidDate(Some(s)) <==> YearMonthDay(s) || (|s| == 11 && s[10] == '\n' && YearMonthDay(s[..10]))
  {
    MatchesExactlyIff(DatePattern, s);
    if |s| > 0 {
      MatchesExactlyIff(DatePattern, s[..|s| - 1]);
    }
  }

  /** There is no calendar check: month 13, day 99 passes; a one-digit month does not. */
  lemma NoCalendarCheck()
    ensures IsValidDate(Some("2026-13-99"))
    ensures !IsValidDate(Some("2026-1-9"))
  {
    var s := "2026-13-99";
    assert s == ['2', '0', '2', '6', '-', '1', '3', '-', '9', '9'];
    assert YearMonthDay(s);
    IsValidDateIff(s);
    var t := "2026-1-9";
    assert |t| == 8;
    IsValidDateIff(t);
  }

  // ----- the row -----

  /** The configured Notion property names (`prop_title` ... `prop_due_date`). */
  datatype PropNames = PropNames(title: string, meetingTitle: string, description: string, participants: string,
                                 assignee: string, meetingDate: string, dueDate: string)

  predicate Distinct(n: PropNames)
  {
    && n.title != n.meetingTitle && n.title != n.description && n.title != n.participants
    && n.title != n.assignee && n.title != n.meetingDate && n.title != n.dueDate
    && n.meetingTitle != n.description && n.meetingTitle != n.participants && n.meetingTitle != n.assignee
    && n.meetingTitle != n.meetingDate && n.meetingTitle != n.dueDate
    && n.description != n.participants && n.description != n.assignee && n.description != n.meetingDate
    && n.description != n.dueDate
    && n.participants != n.assignee && n.participants != n.meetingDate && n.participants != n.dueDate
    && n.assignee != n.meetingDate && n.assignee != n.dueDate
    && n.meetingDate != n.dueDate
  }

  /** One Notion property value. */
  datatype PropValue =
    | TitleProp(text: string)                 // {"title": [{"text": {"content": text}}]}
    | RichTextProp(content: Option<string>)   // {"rich_text": [{"text": {"content": content}}]}, None is JSON null
    | DateProp(start: string)                 // {"date": {"start": start}}

  /** The `properties` dictionary of one page. */
  type Row = map<string, PropValue>

  const Unassigned := "Unassigned"
  const ParticipantSeparator := ", "

  /** `sep.join(xs)` */
  function Join(sep: string, xs: seq<string>): (r: string)
    ensures |xs| == 0 ==> r == ""
    ensures |xs| > 0 ==> xs[0] <= r
    ensures |xs| > 0 ==> |xs[|xs| - 1]| <= |r| && r[|r| - |xs[|xs| - 1]|..] == xs[|xs| - 1]
  {
    if |xs| == 0 then "" else if |xs| == 1 then xs[0] else xs[0] + sep + Join(sep, xs[1..])
  }

  /** Joining keeps the list order: the last name comes last, after one separator. */
  lemma {:induction false} JoinSnoc(sep: string, xs: seq<string>, x: string)
    requires |xs| > 0
    ensures Join(sep, xs + [x]) == Join(sep, xs) + sep + x
  {
    if |xs| > 1 {
      assert (xs + [x])[1..] == xs[1..] + [x];
      JoinSnoc(sep, xs[1..], x);
    }
  }

  /** Python's `str()` of an optional string, as an f-string formats it. */
  function Formatted(o: Option<string>): string
  {
    if o.Some? then o.value else "None"
  }

  /** `f"{current_desc} (기한: {due_date})"` */
  function DueNote(description: Option<string>, due: string): string
  {
    Formatted(description) + " (기한: " + due + ")"
  }

  /** The literal dictionary of lines 173-189; a repeated name keeps the later value. */
  function BaseRow(names: PropNames, todo: TodoItem, info: MeetingInfo): (r: Row)
    ensures r.Keys == {names.title, names.meetingTitle, names.description, names.participants, names.assignee}
    ensures r[names.description].RichTextProp?
    ensures r[names.assignee] == RichTextProp(Some(if Truthy(todo.owner) then todo.owner.value else Unassigned))
    ensures names.participants != names.assignee ==>
              r[names.participants] == RichTextProp(Some(Join(ParticipantSeparator, info.participants)))
    ensures names.description !in {names.participants, names.assignee} ==>
              r[names.description] == RichTextProp(todo.description)
    ensures names.meetingTitle !in {names.description, names.participants, names.assignee} ==>
              r[names.meetingTitle] == RichTextProp(info.title)
    ensures names.title !in {names.meetingTitle, names.description, names.participants, names.assignee} ==>
              r[names.title] == TitleProp(todo.action)
  {
    map[names.title := TitleProp(todo.action)]
       [names.meetingTitle := RichTextProp(info.title)]
       [names.description := RichTextProp(todo.description)]
       [names.participants := RichTextProp(Some(Join(ParticipantSeparator, info.participants)))]
       [names.assignee := RichTextProp(Some(if Truthy(todo.owner) then todo.owner.value else Unassigned))]
  }

  /**
   * The properties sent for one todo, or None when building them raises:
   * folding an invalid due date into the description needs a rich-text value
   * under the description name, and a valid meeting date stored under the same
   * name has replaced it (KeyError, caught by the sync's outer handler).
   */
  function BuildRow(names: PropNames, todo: TodoItem, info: MeetingInfo): (r: Option<Row>)
    ensures r.None? <==> && names.meetingDate == names.description && IsValidDate(info.date)
                         && Truthy(todo.due) && !IsValidDate(todo.due)
    ensures r.Some? ==> r.value.Keys == {names.title, names.meetingTitle, names.description, names.participants, names.assignee}
                                        + (if IsValidDate(info.date) then {names.meetingDate} else {})
                                        + (if IsValidDate(todo.due) then {names.dueDate} else {})
    ensures Distinct(names) ==> r.Some?
    ensures Distinct(names) && r.Some? ==> r.value[names.title] == TitleProp(todo.action)
    ensures Distinct(names) && r.Some? ==> r.value[names.meetingTitle] == RichTextProp(info.title)
    ensures Distinct(names) && r.Some? ==> r.value[names.participants] == RichTextProp(Some(Join(ParticipantSeparator, info.participants)))
    ensures Distinct(names) && r.Some? ==> r.value[names.assignee] == RichTextProp(Some(if Truthy(todo.owner) then todo.owner.value else Unassigned))
    ensures Distinct(names) && r.Some? ==> (names.meetingDate in r.value <==> IsValidDate(info.date))
    ensures Distinct(names) && r.Some? && IsValidDate(info.date) ==> r.value[names.meetingDate] == DateProp(info.date.value)
    ensures Distinct(names) && r.Some? ==> (names.dueDate in r.value <==> IsValidDate(todo.due))
    ensures Distinct(names) && r.Some? && IsValidDate(todo.due) ==> r.value[names.dueDate] == DateProp(todo.due.value)
    ensures Distinct(names) && r.Some? ==>
              r.value[names.description]
              == RichTextProp(if Truthy(todo.due) && !IsValidDate(todo.due) then Some(DueNote(todo.description, todo.due.value))
                              else todo.description)
  {
    var base := BaseRow(names, todo, info);
    var withMeetingDate := if IsValidDate(info.date) then base[names.meetingDate := DateProp(info.date.value)] else base;
    if IsValidDate(todo.due) then
      Some(withMeetingDate[names.dueDate := DateProp(todo.due.value)])
    else if Truthy(todo.due) then
      if withMeetingDate[names.description].RichTextProp? then
        Some(withMeetingDate[names.description := RichTextProp(Some(DueNote(todo.description, todo.due.value)))])
      else
        None
    else
      Some(withMeetingDate)
  }

  /** An invalid meeting date (empty or malformed) adds no field and changes nothing else in the row. */
  lemma InvalidMeetingDateIgnored(names: PropNames, todo: TodoItem, info: MeetingInfo)
    requires !IsValidDate(info.date)
    ensures BuildRow(names, todo, info) == BuildRow(names, todo, info.(date := None))
  {
  }

  /**
   * Whenever the row builds, whatever the property names, a due date is never
   * lost: it is either the due-date field or the tail of the description.
   */
  lemma DueDateKept(names: PropNames, todo: TodoItem, info: MeetingInfo)
    requires Truthy(todo.due) && BuildRow(names, todo, info).Some?
    ensures var row := BuildRow(names, todo, info).value;
            || (names.dueDate in row && row[names.dueDate] == DateProp(todo.due.value))
            || (exists text :: row[names.description] == RichTextProp(Some(text + " (기한: " + todo.due.value + ")")))
  {
  }
}
