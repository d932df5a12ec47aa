# Meeting-audio-to-task pipeline: a Dafny model of its data handling and UI state

The system takes an uploaded meeting recording and turns it into a summary,
meeting metadata and a list of action items, which it also writes into a
Notion database. This project models the parts of it that are plain logic:

- **Structuring** (`agents/structure.py`, `StructuringAgent.process`): the
  extraction step's loosely-shaped dictionary becomes the fixed
  `summary / meeting_info / todos` record. Defaults are filled only for absent
  keys and the todos keep their order. The pydantic shape check of
  `IntegrationAgent.validate` is modelled as a function to an optional typed
  record.
- **Notion rows** (`agents/structure.py`, `_is_valid_date` and the body of the
  `sync_to_notion` loop): the `YYYY-MM-DD` check, and the property map built for
  one todo. Date fields appear only when valid, and an invalid due date is
  folded into the description.
- **Integration agent** (`agents/structure.py`): a class with the
  missing-property check and title fallback of `_validate_database_connection`,
  and the row loop of `sync_to_notion` with its success counter. Notion's
  answers are parameters.
- **Page** (`app/page.tsx`): a class with the four state fields `file`,
  `isLoading`, `result` and `error`, the upload handler (split at its `await`),
  the reset button and the section visibility conditions.
- **Upload control** (`app/components/FileUpload.tsx`): a class with
  `dragActive` and `selectedFile`, the drag/drop/change handlers, and the label
  and icon choice.
- **Result view** (`app/components/ResultViewer.tsx`): a pure function from
  the result record to what is displayed.

Modules: `Schema` (schema.dfy), `Structuring` (structuring.dfy), `NotionRow`
(notion_row.dfy), `Integration` (integration.dfy), `Upload` (file_upload.dfy),
`Page` (page.dfy), `ResultView` (result_view.dfy).

The client makes one POST to `/upload` and shows the response. It has no job
handle, no status polling, no separate message for an oversize upload, and
only one fixed error message. The reset button clears `result` and `file` and
leaves `error` and `isLoading` as they are.

## Model

| member | source | states |
|---|---|---|
| Structuring.CleanTodo | agents/structure.py:38-43 | each cleaned todo has exactly action, description, owner and due. A present key is copied whatever its value, null included. An absent key becomes null, except description, which becomes "" |
| Structuring.CleanTodoIdempotent | agents/structure.py:38-43 | cleaning is a normalisation: cleaning a cleaned todo again changes nothing |
| Structuring.CleanAll | agents/structure.py:36-43 | the result succeeds iff every raw element is a dict. It then has one cleaned todo per raw todo, and the i-th comes from the i-th. Otherwise the error is the AttributeError of a missing `.get` |
| Structuring.Iterated | agents/structure.py:37 | `for todo in raw_todos` fails with a TypeError on null, a bool or a number, and with an AttributeError on a non-empty dict. A list yields its elements in order, a string its one-character strings, and an empty dict nothing |
| Structuring.Structure | agents/structure.py:33-54 | the summary passes through unchanged. The title is the extracted `meeting_title`, or "Untitled Meeting" when the key is absent. The date defaults to null and participants to []. The result fails exactly when iterating the todos fails |
| Structuring.StructureKeepsTodos | agents/structure.py:33-43 | no todo is added, dropped or reordered. The i-th cleaned todo is built from the i-th raw todo |
| Structuring.TitleDefaultOnlyWhenAbsent | agents/structure.py:48 | "Untitled Meeting" appears when `meeting_title` is absent; a present value, null included, is kept |
| Structuring.Process | agents/structure.py:27-54 | the append loop returns exactly the record, or the error, that `Structure` specifies |
| Structuring.OptionalString | agents/structure.py:10-12 | an `Optional[str]` field accepts exactly null, typed as None, and a string, kept as is |
| Structuring.TypedTodo | agents/structure.py:8-12 | a todo fits `TodoItem` iff its action is a string and its description, owner and due are each a string or null; the typed todo carries the same four values |
| Structuring.StringList | agents/structure.py:17 | `List[str]` accepts a list iff every element is a string, and keeps the elements in order |
| Structuring.TypedTodos | agents/structure.py:8-12 | `List[TodoItem]` accepts iff every todo fits the model, and keeps length and order |
| Structuring.Validate | agents/structure.py:129-141 | validation succeeds iff the todos, title, date and participants all fit the pydantic models. On success the typed record carries the same summary, the same todos in order, the same title and date, and the same participant strings in order |
| NotionRow.IsValidDate | agents/structure.py:149-153 | null and "" are never valid dates |
| NotionRow.MatchesExactlyIff | agents/structure.py:153 | a fixed-width pattern matches a string iff the lengths agree and every character fits its position |
| NotionRow.IsValidDateIff | agents/structure.py:149-153 | a date is valid iff it is 4 ASCII digits, `-`, 2 digits, `-`, 2 digits, optionally followed by one newline, which `$` admits |
| NotionRow.NoCalendarCheck | agents/structure.py:152-153 | "2026-13-99" is accepted (there is no calendar check) and "2026-1-9" is refused |
| NotionRow.Join | agents/structure.py:184 | joining nothing gives "". Otherwise the result starts with the first name and ends with the last |
| NotionRow.JoinSnoc | agents/structure.py:184 | `", ".join` keeps list order: the last name comes last, after one separator |
| NotionRow.BaseRow | agents/structure.py:173-189 | the five-property dict literal: its keys are exactly the five configured names, and the assignee always holds the owner if truthy, else "Unassigned". Each earlier entry keeps its value unless a later entry of the literal has the same name: title holds the action, meeting title the meeting's title, description the todo's description, participants the names joined with ", " |
| NotionRow.BuildRow | agents/structure.py:173-205 | the row's keys are the five base names plus the meeting-date name iff the meeting date is valid and the due-date name iff due is valid. It fails only when a valid meeting date sits under the description name and an invalid due must be folded there. With distinct names: assignee is the owner if truthy, else "Unassigned"; participants are joined with ", "; date fields hold the dates; an invalid non-empty due turns the description into "<description> (기한: <due>)", with a null description printed as "None" |
| NotionRow.InvalidMeetingDateIgnored | agents/structure.py:192-196 | an invalid or empty meeting date yields the same row as no meeting date at all |
| NotionRow.DueDateKept | agents/structure.py:198-205 | whenever the row builds, whatever the property names, a non-empty due is never lost: it is either the due-date field or the tail " (기한: <due>)" of the description |
| Integration.Absent | agents/structure.py:103 | the missing list holds exactly the required names the database lacks, and is no longer than the required list |
| Integration.AbsentAppend | agents/structure.py:103 | the comprehension keeps the order of the required list: filtering a concatenation is the concatenation of the filtered parts |
| Integration.FirstTitle | agents/structure.py:106-111 | the fallback is None iff no property has type "title"; otherwise it is the name of a title-typed property |
| Integration.FirstTitleAt | agents/structure.py:108-111 | the search stops at the first title-typed property |
| Integration.AdjustedNames | agents/structure.py:106-114 | only the title name can change, and only to a non-empty title property of the database when the configured one is absent |
| Integration.RemoveFirst | agents/structure.py:115-116 | `list.remove` of a present value drops its first occurrence and keeps the other elements in order, so the list is one shorter and loses exactly one copy. Python raises ValueError for an absent value; the `in` test of line 115 means that case is never reached |
| Integration.MissingAsWritten | agents/structure.py:103-116 | as written, the reported list always equals the required names of the configured names that the database lacks: the removal never happens |
| Integration.AsWrittenReportsReplacedTitle | agents/structure.py:102-116 | as written, the check adopts the fallback title "이름" yet still reports "Name" as missing |
| Integration.Missing | agents/structure.py:102-116 | corrected missing list: the required names of the final configuration that the database lacks, exactly and in required order |
| Integration.CountTrue | agents/structure.py:220 | the number of accepted rows never exceeds the number of rows sent |
| Integration.IntegrationAgent.constructor | agents/structure.py:59-71 | the agent starts with the given names, client and database id, and no cached properties |
| Integration.IntegrationAgent.ValidateDatabaseConnection | agents/structure.py:82-127 | without a client or a database id, or when retrieval fails, nothing changes and no list is reported. Otherwise the properties are cached, the title may switch to the fallback, and the reported list is exactly the required names of the final configuration that the database lacks, in required order. This uses the corrected missing list under Findings |
| Integration.IntegrationAgent.SyncToNotion | agents/structure.py:155-240 | it returns false, with nothing sent, when the client or database id is missing. Otherwise it sends `BuildRow` of each todo in order, and returns true iff every row builds, which always holds with distinct names. On a failing row it stops there and returns false. The success count is the number of accepted rows sent, so it never exceeds the todo count |
| Upload.FileUpload.constructor | app/components/FileUpload.tsx:13-14 | nothing is highlighted and no file is selected |
| Upload.FileUpload.HandleDrag | app/components/FileUpload.tsx:16-24 | dragenter and dragover arm the highlight and dragleave disarms it. Any other type leaves it unchanged, and the selection never changes |
| Upload.FileUpload.HandleDrop | app/components/FileUpload.tsx:26-35 | a drop always disarms. With no file it selects and reports nothing; otherwise it selects the first file and reports it exactly once |
| Upload.FileUpload.HandleChange | app/components/FileUpload.tsx:37-44 | with no file the selection stays and nothing is reported; otherwise only the first file is selected and reported once. The highlight is untouched |
| Upload.FileUpload.DropOnZone | app/components/FileUpload.tsx:54-57 | while loading a drop reaches no handler and changes nothing; otherwise it behaves as `HandleDrop` |
| Upload.FileUpload.PickFiles | app/components/FileUpload.tsx:59-65 | while loading the disabled input fires nothing; otherwise it behaves as `HandleChange` |
| Upload.FileUpload.Label | app/components/FileUpload.tsx:82 | the label is the loading text if loading, else the selected file's name, else the prompt |
| Upload.FileUpload.CurrentIcon | app/components/FileUpload.tsx:68-78 | the spinner shows iff loading, and the file icon iff not loading with a file selected |
| Upload.FileUpload.Hint | app/components/FileUpload.tsx:84-86 | the hint is the waiting text iff loading |
| Page.Home.constructor | app/page.tsx:16-19 | the page starts with no file, no result, no error and not loading |
| Page.Home.BeginUpload | app/page.tsx:21-25 | selecting a file stores it, clears error and result, and sets loading before the request is sent |
| Page.Home.CompleteUpload | app/page.tsx:30-44 | a success stores the response data as the result, and error stays null. A failure stores the fixed message, and the result stays null. Loading is false afterwards on both paths and the file is kept |
| Page.Home.HandleFileSelect | app/page.tsx:21-45 | after the whole handler the file is the selected one and loading is false. Exactly one of result and error is set, according to the outcome |
| Page.Home.Reset | app/page.tsx:135 | reset clears result and file and changes no other field; from the results view this is the initial state |
| Page.Home.DropFiles | app/page.tsx:97 | a drop with no file, or one made while loading, changes no page field and keeps the control's selection; the highlight is cleared unless loading. Otherwise the first file goes through the whole upload handler |
| Page.SectionsExclusive | app/page.tsx:94-128 | the upload section is hidden iff the results section is rendered. Results never show with progress or an error, and progress never shows with an error |
| ResultView.RenderTodo | app/components/ResultViewer.tsx:96-122 | the due badge appears iff due is truthy and reads due + "까지"; the owner badge appears iff owner is truthy |
| ResultView.RenderRows | app/components/ResultViewer.tsx:96-124 | one row per todo, in input order, with no sorting or filtering |
| ResultView.Render | app/components/ResultViewer.tsx:27-137 | the title is shown if truthy, else "제목 없음", and the date likewise, else "날짜 불명". There is one chip per participant in order, or only the "감지된 참여자 없음" placeholder. The summary is verbatim and the count equals the number of todos. An empty list shows exactly "추출된 할 일이 없습니다." and no participants show exactly "감지된 참여자 없음"; otherwise there is one row per todo in order |
| ResultView.EmptyResultShowsPlaceholders | app/components/ResultViewer.tsx:40-93 | a result with no title, date, participants or todos shows every placeholder and the summary "S" |
| ResultView.ExtractedTodosReachTheView | app/components/ResultViewer.tsx:86-103 | when structuring succeeds and validates, the view has one row per raw extracted todo, in extraction order. Each row is titled with the action string that todo carried |

## Findings

| source | as written | input that shows it | evidently intended | confidence | as-written member | corrected member |
|---|---|---|---|---|---|---|
| agents/structure.py:112-116 | after adopting a fallback title, the code tests whether the fallback name is in `missing`. It never is, because the fallback is a database property, so the configured title stays listed as missing | default property names; a database whose only title-typed property is "이름" and which has no "Name" | once a fallback title is adopted, the configured title name is no longer reported missing | not executed; high | Integration.MissingAsWritten, Integration.AsWrittenReportsReplacedTitle | Integration.Missing |

## Left out

- Notion client calls (`databases.retrieve`, `pages.create`), console output and the hint printing of the exception paths: they are foreign I/O. Retrieval is a `Result` parameter and each row's creation a boolean parameter.
- Reading the property names, API key and database id from the environment (with `strip()` and `or` defaults) in `IntegrationAgent.__init__`, and its call to the database check: the constructor takes the resolved configuration.
- Integration.IntegrationAgent.SyncToNotion: modelled on the validated typed record. The pipeline calls it only after `validate` succeeded on the structuring output, which always has every key. So the `.get` defaults of lines 166-187 ("Untitled Task", "", []) and the exceptions raised on malformed dictionaries are not modelled.
- Integration.RemoveFirst: Python's ValueError for a value that is not in the list is not modelled; the model returns the list unchanged, and no caller reaches that case.
- NotionRow.IsValidDate: Python's `\d` also matches non-ASCII Unicode digits; the model accepts ASCII digits only.
- JSON numbers are integers only; floating point is not modelled.
- Structuring.Iterated: iterating a non-empty dict as `todos` fails on its first key; the model reports that failure without producing the keys.
- Structuring.Validate: models pydantic's strict string rules. It does not model coercions that depend on the pydantic version, nor the version-dependent meaning of `Optional` fields without a default; the structuring output always has every key.
- `IntegrationAgent.export` (`json.dumps`) and the printed database name: library formatting and logging.
- The LLM agents, pipeline orchestration, the FastAPI endpoint, the command-line entry and the mocks: thin wrappers over external services and files.
- The axios POST, `FormData`, and the `API_URL` lookup in the page: the request is an outcome parameter. Response bodies are the result record; a non-object body, whose truthiness would differ, is not modelled.
- React's batching of state updates is modelled as sequential assignment, which gives the same final state. The `isLoading` prop is passed to the upload control's methods as a parameter.
- The animated background, styling, animation and icons beyond the icon choice; the "개 업무" text after the todo count (the count itself is modelled); a file's contents and the advisory `accept="audio/*"` filter.
