/**
 * `IntegrationAgent`: the schema check of the Notion database
 * (`_validate_database_connection`) and the row-by-row sync
 * (`sync_to_notion`). The Notion client is not modelled: what
 * `databases.retrieve` returned and whether each `pages.create` succeeded are
 * parameters.
 */
module Integration {
  import opened Schema
  import opened NotionRow

  /** One entry of the database's `properties` object, in the order the API lists them. */
  datatype DbProperty = DbProperty(name: string, kind: Option<string>)

  /** `name in self._db_properties` */
  predicate Has(props: seq<DbProperty>, name: string)
  {
    exists i :: 0 <= i < |props| && props[i].name == name
  }

  /** The property names used when no environment override is given. */
  const DefaultNames := PropNames("Name", "Meeting Title", "Description", "Participants", "Assignee",
                                  "Meeting Date", "Due Date")

  /** The `required` list of line 102: title, meeting title, description, participants, assignee. */
  function Required(n: PropNames): seq<string>
  {
    [n.title, n.meetingTitle, n.description, n.participants, n.assignee]
  }

  /** `[p for p in required if p not in props]`: the required names the database lacks, in required order. */
  function Absent(required: seq<string>, props: seq<DbProperty>): (r: seq<string>)
    ensures forall x :: x in r <==> x in required && !Has(props, x)
    ensures |r| <= |required|
  {
    if required == [] then []
    else (if Has(props, required[0]) then [] else [required[0]]) + Absent(required[1..], props)
  }

  /** The filter keeps the required order: filtering two lists one after the other is filtering each in turn. */
  lemma {:induction false} AbsentAppend(a: seq<string>, b: seq<string>, props: seq<DbProperty>)
    ensures Absent(a + b, props) == Absent(a, props) + Absent(b, props)
  {
    if a == [] {
      assert a + b == b;
    } else {
      assert (a + b)[1..] == a[1..] + b;
      AbsentAppend(a[1..], b, props);
    }
  }

  /** The name of the first property whose type is "title", if any. */
  function FirstTitle(props: seq<DbProperty>): (r: Option<string>)
    ensures r.None? <==> forall i :: 0 <= i < |props| ==> props[i].kind != Some("title")
    ensures r.Some? ==> exists i :: 0 <= i < |props| && props[i].name == r.value && props[i].kind == Some("title")
  {
    if props == [] then None
    else if props[0].kind == Some("title") then Some(props[0].name)
    else FirstTitle(props[1..])
  }

  /** The first title-typed property is the one the search of lines 108-111 stops at. */
  lemma {:induction false} FirstTitleAt(props: seq<DbProperty>, i: nat)
    requires i < |props| && props[i].kind == Some("title")
    requires forall j :: 0 <= j < i ==> props[j].kind != Some("title")
    ensures FirstTitle(props) == Some(props[i].name)
  {
    if i > 0 {
      FirstTitleAt(props[1..], i - 1);
    }
  }

  /** The configured title is absent and a title-typed property with a non-empty name replaces it. */
  predicate AdoptsFallback(n: PropNames, props: seq<DbProperty>)
  {
    !Has(props, n.title) && FirstTitle(props).Some? && FirstTitle(props).value != ""
  }

  /** The property names in force after the check: only the title can change. */
  function AdjustedNames(n: PropNames, props: seq<DbProperty>): (r: PropNames)
    ensures r == n || (AdoptsFallback(n, props) && r == n.(title := FirstTitle(props).value))
    ensures Has(props, r.title) || (r == n && !AdoptsFallback(n, props))
  {
    if AdoptsFallback(n, props) then n.(title := FirstTitle(props).value) else n
  }

  /** The position of the first occurrence of `x` in `xs`, as `xs.index(x)` finds it. */
  function FirstIndex(xs: seq<string>, x: string): (k: nat)
    requires x in xs
    ensures k < |xs| && xs[k] == x && x !in xs[..k]
  {
    if xs[0] == x then 0
    else
      var j := FirstIndex(xs[1..], x);
      assert xs[..j + 1] == [xs[0]] + xs[1..][..j];
      j + 1
  }

  /**
   * `xs.remove(x)`: drops the first occurrence and keeps the rest in order.
   * Python raises ValueError when `x` is absent; every caller tests membership
   * first, and the model returns the list unchanged there.
   */
  function RemoveFirst(xs: seq<string>, x: string): (r: seq<string>)
    ensures x !in xs ==> r == xs
    ensures x in xs ==> r == xs[..FirstIndex(xs, x)] + xs[FirstIndex(xs, x) + 1..]
    ensures x in xs ==> |r| == |xs| - 1 && multiset(r) + multiset{x} == multiset(xs)
  {
    if x !in xs then xs
    else
      var k := FirstIndex(xs, x);
      assert xs == xs[..k] + [x] + xs[k + 1..];
      assert multiset(xs) == multiset(xs[..k]) + multiset{x} + multiset(xs[k + 1..]);
      xs[..k] + xs[k + 1..]
  }

  /**
   * The missing list as lines 103-116 compute it: the removal tests the
   * fallback name itself, so it never happens: the fallback is a property of the
   * database, and the missing list holds only names the database lacks, so
   * the result is the plain filter of the configured required names.
   */
  function MissingAsWritten(n: PropNames, props: seq<DbProperty>): (r: seq<string>)
    ensures r == Absent(Required(n), props)
  {
    var missing := Absent(Required(n), props);
    match FirstTitle(props)
    case Some(fallback) =>
      if !Has(props, n.title) && fallback != "" && fallback in missing then RemoveFirst(missing, fallback) else missing
    case None => missing
  }

  /**
   * The effect: with the default names and a database whose only title
   * property is "이름", the agent switches to "이름" and still reports "Name" as
   * missing, a name it no longer uses.
   */
  lemma AsWrittenReportsReplacedTitle()
    ensures var props := [DbProperty("이름", Some("title"))];
            && AdjustedNames(DefaultNames, props).title == "이름"
            && "Name" in MissingAsWritten(DefaultNames, props)
            && "Name" !in Required(AdjustedNames(DefaultNames, props))
  {
    var props := [DbProperty("이름", Some("title"))];
    assert !Has(props, "Name");
    assert FirstTitle(props) == Some("이름");
  }

  /**
   * The missing list as intended: when a fallback title is adopted the title
   * slot is satisfied, so the configured title name is dropped from the list.
   */
  function Missing(n: PropNames, props: seq<DbProperty>): (r: seq<string>)
    ensures r == Absent(Required(AdjustedNames(n, props)), props)
    ensures forall x :: x in r <==> x in Required(AdjustedNames(n, props)) && !Has(props, x)
  {
    if AdoptsFallback(n, props) then
      var adjusted := Required(AdjustedNames(n, props));
      assert Has(props, adjusted[0]) && adjusted[1..] == Required(n)[1..];
      Absent(Required(n)[1..], props)
    else
      Absent(Required(n), props)
  }

  /** How many rows Notion accepted. */
  function CountTrue(s: seq<bool>): (k: nat)
    ensures k <= |s|
  {
    if s == [] then 0 else CountTrue(s[..|s| - 1]) + (if s[|s| - 1] then 1 else 0)
  }

  class IntegrationAgent {
    var names: PropNames
    var hasClient: bool
    var databaseId: string
    var dbProperties: Option<seq<DbProperty>>

    /** The agent after its configuration was read: names, whether a client exists, the database id. */
    constructor (names: PropNames, hasClient: bool, databaseId: string)
      ensures this.names == names && this.hasClient == hasClient && this.databaseId == databaseId
      ensures dbProperties == None
    {
      this.names := names;
      this.hasClient := hasClient;
      this.databaseId := databaseId;
      dbProperties := None;
    }

    /**
     * `_validate_database_connection`, with the missing-list correction (see
     * `Missing`). `retrieved` is what `databases.retrieve` returned, or the
     * error it raised. The result is the missing list it reports, None when it
     * returned early or failed.
     */
    method ValidateDatabaseConnection(retrieved: Result<seq<DbProperty>, string>) returns (missing: Option<seq<string>>)
      modifies this
      ensures hasClient == old(hasClient) && databaseId == old(databaseId)
      ensures !old(hasClient) || old(databaseId) == "" || retrieved.Err? ==>
                missing.None? && names == old(names) && dbProperties == old(dbProperties)
      ensures old(hasClient) && old(databaseId) != "" && retrieved.Ok? ==>
                && dbProperties == Some(retrieved.value)
                && names == AdjustedNames(old(names), retrieved.value)
                && missing == Some(Missing(old(names), retrieved.value))
                && missing == Some(Absent(Required(names), retrieved.value))
                && (forall x :: x in missing.value <==> x in Required(names) && !Has(retrieved.value, x))
    {
      if !hasClient || databaseId == "" {
        return None;
      }
      if retrieved.Err? {
        return None;
      }
      var props := retrieved.value;
      dbProperties := Some(props);
      var m := Absent(Required(names), props);
      if !Has(props, names.title) {
        var fallback: Option<string> := None;
        var i := 0;
        while i < |props|
          invariant 0 <= i <= |props|
          invariant fallback.None? ==> forall j :: 0 <= j < i ==> props[j].kind != Some("title")
          invariant fallback.Some? ==> fallback == FirstTitle(props)
          decreases |props| - i, if fallback.None? then 1 else 0
        {
          if props[i].kind == Some("title") {
            FirstTitleAt(props, i);
            fallback := Some(props[i].name);
            break;
          }
          i := i + 1;
        }
        if fallback.Some? && fallback.value != "" {
          var configured := names.title;
          names := names.(title := fallback.value);
          if configured in m {
            m := RemoveFirst(m, configured);
          }
        }
      }
      missing := Some(m);
    }

    /**
     * `sync_to_notion`. `created[i]` says whether `pages.create` accepted the
     * i-th row. Returns the function's boolean result, the rows handed to
     * `pages.create` in order, and how many of them were created.
     */
    method SyncToNotion(data: MeetingResult, created: seq<bool>) returns (ok: bool, sent: seq<Row>, successCount: nat)
      requires |created| == |data.todos|
      ensures !hasClient || databaseId == "" ==> !ok && sent == [] && successCount == 0
      ensures hasClient && databaseId != "" ==>
                (ok <==> forall i :: 0 <= i < |data.todos| ==> BuildRow(names, data.todos[i], data.meetingInfo).Some?)
      ensures hasClient && databaseId != "" && Distinct(names) ==> ok
      ensures |sent| <= |data.todos|
      ensures forall i :: 0 <= i < |sent| ==> BuildRow(names, data.todos[i], data.meetingInfo) == Some(sent[i])
      ensures ok ==> |sent| == |data.todos|
      ensures hasClient && databaseId != "" && !ok ==>
                |sent| < |data.todos| && BuildRow(names, data.todos[|sent|], data.meetingInfo).None?
      ensures successCount == CountTrue(created[..|sent|]) && successCount <= |data.todos|
    {
      if !hasClient || databaseId == "" {
        return false, [], 0;
      }
      sent := [];
      successCount := 0;
      var i := 0;
      while i < |data.todos|
        invariant 0 <= i <= |data.todos|
        invariant |sent| == i
        invariant forall j :: 0 <= j < i ==> BuildRow(names, data.todos[j], data.meetingInfo) == Some(sent[j])
        invariant successCount == CountTrue(created[..i])
      {
        var row := BuildRow(names, data.todos[i], data.meetingInfo);
        if row.None? {
          return false, sent, successCount;
        }
        sent := sent + [row.value];
        assert created[..i + 1][..i] == created[..i];
        if created[i] {
          successCount := successCount + 1;
        }
        i := i + 1;
      }
      ok := true;
    }
  }
}
