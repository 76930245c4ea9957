/**
  The per-issue row of the issues CSV export.

  The export's column table maps each of twenty headers, in a fixed order, either
  to an attribute the issue is sent by name or to a small computation on the issue.
  A row is that table applied to one issue. The CSV rendering, the URL routing and
  the `to_s(:csv)` formatting of dates, times and integers are not part of this
  model: the URL comes from the function `issueUrl`, and a formatted value stays a
  `Cell` constructor that names what is formatted.
 */
module IssuesExportCsv {
  import opened Wrappers
  import opened Strings

  datatype User = User(name: string, username: string)
  datatype Milestone = Milestone(title: string)
  datatype Timelog = Timelog(timeSpent: int)
  datatype Date = Date(year: int, month: nat, day: nat)
  datatype Timestamp = Timestamp(unixSeconds: int)

  /** The issue record, with the associations the export preloads. `authorName` is the
      value of the record's `author_name`. */
  datatype Issue = Issue(
    id: nat,
    iid: nat,
    title: string,
    closed: bool,
    description: Option<string>,
    authorName: Option<string>,
    author: Option<User>,
    assignees: seq<User>,
    confidential: bool,
    discussionLocked: bool,
    dueDate: Option<Date>,
    createdAt: Option<Timestamp>,
    updatedAt: Option<Timestamp>,
    closedAt: Option<Timestamp>,
    milestone: Option<Milestone>,
    weight: Option<int>,
    timeEstimate: int,
    timelogs: seq<Timelog>)

  /** One CSV cell before rendering; the `Csv…` cells are a value's `to_s(:csv)`. */
  datatype Cell =
    | Nil
    | Text(text: string)
    | Number(n: int)
    | CsvDate(date: Date)
    | CsvTime(time: Timestamp)
    | CsvInteger(value: int)

  /** The attributes the table names by string and the builder sends to the issue. */
  datatype Attribute = Iid | Title | Description | AuthorName

  /** The table's lambdas, one per column that computes its value. */
  datatype Computed =
    | Url | State | AuthorUsername | AssigneeNames | AssigneeUsernames | Confidential | Locked
    | DueDate | CreatedAt | UpdatedAt | ClosedAt | MilestoneTitle | Weight | Labels
    | TimeEstimate | TimeSpent

  /** A table entry's value: an attribute name, or a lambda on the issue. */
  datatype Extractor = Send(attribute: Attribute) | Lambda(computed: Computed)

  type Column = (string, Extractor)

  /** What the lambdas read from the service besides the issue: the labels hash and the
      URL helper. */
  datatype Service = Service(labels: map<nat, seq<string>>, issueUrl: Issue -> string)

  /** `issue.public_send(name)` for the attribute entries. */
  function SendTo(issue: Issue, a: Attribute): Cell
  {
    match a
    case Iid => Number(issue.iid)
    case Title => Text(issue.title)
    case Description => if issue.description.Some? then Text(issue.description.value) else Nil
    case AuthorName => if issue.authorName.Some? then Text(issue.authorName.value) else Nil
  }

  /** The lambdas' bodies. */
  function Compute(service: Service, c: Computed, issue: Issue): Cell
  {
    match c
    case Url => Text(service.issueUrl(issue))
    case State => Text(if issue.closed then "Closed" else "Open")
    case AuthorUsername => if issue.author.Some? then Text(issue.author.value.username) else Nil
    case AssigneeNames => Text(Join(Names(issue.assignees), ", "))
    case AssigneeUsernames => Text(Join(Usernames(issue.assignees), ", "))
    case Confidential => Text(YesNo(issue.confidential))
    case Locked => Text(YesNo(issue.discussionLocked))
    case DueDate => if issue.dueDate.Some? then CsvDate(issue.dueDate.value) else Nil
    case CreatedAt => if issue.createdAt.Some? then CsvTime(issue.createdAt.value) else Nil
    case UpdatedAt => if issue.updatedAt.Some? then CsvTime(issue.updatedAt.value) else Nil
    case ClosedAt => if issue.closedAt.Some? then CsvTime(issue.closedAt.value) else Nil
    case MilestoneTitle => if issue.milestone.Some? then Text(issue.milestone.value.title) else Nil
    case Weight => if issue.weight.Some? then Number(issue.weight.value) else Nil
    case Labels => IssueLabels(service.labels, issue)
    case TimeEstimate => CsvInteger(issue.timeEstimate)
    case TimeSpent => IssueTimeSpent(issue)
  }

  function Apply(service: Service, e: Extractor, issue: Issue): Cell
  {
    match e
    case Send(a) => SendTo(issue, a)
    case Lambda(c) => Compute(service, c, issue)
  }

  /** `.presence`: the string itself, or nil when it is blank. */
  function Presence(s: string): (c: Cell)
    ensures c == Nil <==> Blank(s)
    ensures c != Nil ==> c == Text(s)
  {
    if Blank(s) then Nil else Text(s)
  }

  /** `@labels[issue.id]`; the labels hash answers `[]` for an issue without labels. */
  function LabelsOf(labels: map<nat, seq<string>>, issue: Issue): seq<string>
  {
    if issue.id in labels then labels[issue.id] else []
  }

  /** `issue_labels`: the issue's label titles sorted, joined with ",", nil when blank. */
  function IssueLabels(labels: map<nat, seq<string>>, issue: Issue): Cell
  {
    Presence(Join(Sort(LabelsOf(labels, issue)), ","))
  }

  function SumTimeSpent(timelogs: seq<Timelog>): int
  {
    if timelogs == [] then 0 else timelogs[0].timeSpent + SumTimeSpent(timelogs[1..])
  }

  /** `issue_time_spent`: the sum of the issue's timelog entries. */
  function IssueTimeSpent(issue: Issue): Cell
  {
    Number(SumTimeSpent(issue.timelogs))
  }

  function Names(users: seq<User>): (names: seq<string>)
    ensures |names| == |users| && forall i :: 0 <= i < |users| ==> names[i] == users[i].name
  {
    if users == [] then [] else [users[0].name] + Names(users[1..])
  }

  function Usernames(users: seq<User>): (usernames: seq<string>)
    ensures |usernames| == |users| && forall i :: 0 <= i < |users| ==> usernames[i] == users[i].username
  {
    if users == [] then [] else [users[0].username] + Usernames(users[1..])
  }

  function YesNo(b: bool): string
  {
    if b then "Yes" else "No"
  }

  /** `header_to_value_hash`: the twenty columns, in the order the CSV shows them. */
  const HeaderToValue: seq<Column> :=
    [ ("Issue ID", Send(Iid)),
      ("URL", Lambda(Url)),
      ("Title", Send(Title)),
      ("State", Lambda(State)),
      ("Description", Send(Description)),
      ("Author", Send(AuthorName)),
      ("Author Username", Lambda(AuthorUsername)),
      ("Assignee", Lambda(AssigneeNames)),
      ("Assignee Username", Lambda(AssigneeUsernames)),
      ("Confidential", Lambda(Confidential)),
      ("Locked", Lambda(Locked)),
      ("Due Date", Lambda(DueDate)),
      ("Created At (UTC)", Lambda(CreatedAt)),
      ("Updated At (UTC)", Lambda(UpdatedAt)),
      ("Closed At (UTC)", Lambda(ClosedAt)),
      ("Milestone", Lambda(MilestoneTitle)),
      ("Weight", Lambda(Weight)),
      ("Labels", Lambda(Labels)),
      ("Time Estimate", Lambda(TimeEstimate)),
      ("Time Spent", Lambda(TimeSpent))
    ]

  /** No header occurs twice, so the hash keeps every entry. */
  predicate DistinctHeaders(table: seq<Column>)
  {
    forall i, j :: 0 <= i < j < |table| ==> table[i].0 != table[j].0
  }

  /** The headers, in table order: the CSV's first line. */
  function Headers(table: seq<Column>): (headers: seq<string>)
    ensures |headers| == |table| && forall i :: 0 <= i < |table| ==> headers[i] == table[i].0
  {
    seq(|table|, i requires 0 <= i < |table| => table[i].0)
  }

  /** The first position of `header` in the table at or after `k`. For a table without
      repeated headers, such as `HeaderToValue`, this is the entry a hash lookup finds; a
      Ruby hash literal with a repeated key would keep the last value instead. */
  function HeaderIndexFrom(table: seq<Column>, header: string, k: nat): Option<nat>
    requires k <= |table|
    decreases |table| - k
  {
    if k == |table| then None
    else if table[k].0 == header then Some(k)
    else HeaderIndexFrom(table, header, k + 1)
  }

  /** The cell under `header` on this issue, None for a header the table lacks. It agrees
      with the hash's answer when the headers are distinct (`RowMatchesHeaders`). */
  function ValueFor(service: Service, table: seq<Column>, header: string, issue: Issue): Option<Cell>
  {
    match HeaderIndexFrom(table, header, 0)
    case None => None
    case Some(i) => if i < |table| then Some(Apply(service, table[i].1, issue)) else None
  }

  /** One issue's row: each column's value, in header order. */
  function Row(service: Service, table: seq<Column>, issue: Issue): (row: seq<Cell>)
    ensures |row| == |table|
  {
    if table == [] then [] else [Apply(service, table[0].1, issue)] + Row(service, table[1..], issue)
  }

  /** The row the export writes for an issue: as many cells as there are headers. */
  function IssueRow(service: Service, issue: Issue): (row: seq<Cell>)
    ensures |row| == |Headers(HeaderToValue)| == 20
  {
    Row(service, HeaderToValue, issue)
  }

  /** The cell the export writes under `header` for this issue. */
  function ExportValue(service: Service, issue: Issue, header: string): Option<Cell>
  {
    ValueFor(service, HeaderToValue, header, issue)
  }

  // ---------------------------------------------------------------- the table

  lemma {:induction false} HeaderIndexFromFinds(table: seq<Column>, i: nat, k: nat)
    requires DistinctHeaders(table) && k <= i < |table|
    ensures HeaderIndexFrom(table, table[i].0, k) == Some(i)
    decreases i - k
  {
    if k < i {
      assert table[k].0 != table[i].0;
      HeaderIndexFromFinds(table, i, k + 1);
    }
  }

  lemma {:induction false} RowAt(service: Service, table: seq<Column>, issue: Issue, i: nat)
    requires i < |table|
    ensures Row(service, table, issue)[i] == Apply(service, table[i].1, issue)
  {
    if i > 0 {
      RowAt(service, table[1..], issue, i - 1);
    }
  }

  /** Every row is laid out against the header sequence: its i-th cell is the value the
      table gives for the i-th header. */
  lemma RowMatchesHeaders(service: Service, table: seq<Column>, issue: Issue, i: nat)
    requires DistinctHeaders(table) && i < |table|
    ensures ValueFor(service, table, Headers(table)[i], issue) == Some(Row(service, table, issue)[i])
  {
    HeaderIndexFromFinds(table, i, 0);
    RowAt(service, table, issue, i);
  }

  /** The export's header line: twenty headers in a fixed order, none twice. */
  lemma ExportHeaders()
    ensures Headers(HeaderToValue) ==
      [ "Issue ID", "URL", "Title", "State", "Description", "Author", "Author Username",
        "Assignee", "Assignee Username", "Confidential", "Locked", "Due Date",
        "Created At (UTC)", "Updated At (UTC)", "Closed At (UTC)", "Milestone", "Weight",
        "Labels", "Time Estimate", "Time Spent" ]
  {
  }

  /** No header is named twice, so the hash keeps all twenty entries. */
  lemma ExportHeadersDistinct()
    ensures DistinctHeaders(HeaderToValue)
  {
    forall i, j | 0 <= i < j < 20
      ensures HeaderToValue[i].0 != HeaderToValue[j].0
    {
      if j < 10 {
        FirstHeadersDistinct(i, j);
      } else if 10 <= i {
        LastHeadersDistinct(i, j);
      } else {
        FirstAndLastHeadersDistinct(i, j);
      }
    }
  }

  lemma FirstHeadersDistinct(i: nat, j: nat)
    requires i < j < 10
    ensures HeaderToValue[i].0 != HeaderToValue[j].0
  {
  }

  lemma LastHeadersDistinct(i: nat, j: nat)
    requires 10 <= i < j < 20
    ensures HeaderToValue[i].0 != HeaderToValue[j].0
  {
  }

  lemma FirstAndLastHeadersDistinct(i: nat, j: nat)
    requires i < 10 <= j < 20
    ensures HeaderToValue[i].0 != HeaderToValue[j].0
  {
  }

  /** Every issue's row lines up with the export's header line. */
  lemma IssueRowMatchesHeaders(service: Service, issue: Issue, i: nat)
    requires i < 20
    ensures ExportValue(service, issue, Headers(HeaderToValue)[i]) == Some(IssueRow(service, issue)[i])
  {
    ExportHeadersDistinct();
    RowMatchesHeaders(service, HeaderToValue, issue, i);
  }

  /** The value of the column `header`, found at position `i` of the export's table. */
  lemma ColumnAt(service: Service, issue: Issue, i: nat, header: string, e: Extractor)
    requires i < 20 && HeaderToValue[i] == (header, e)
    ensures ExportValue(service, issue, header) == Some(Apply(service, e, issue))
  {
    ExportHeadersDistinct();
    HeaderIndexFromFinds(HeaderToValue, i, 0);
  }

  // ---------------------------------------------------------------- the columns

  /** 'Issue ID' is the issue's iid. */
  lemma IssueIdColumn(service: Service, issue: Issue)
    ensures ExportValue(service, issue, "Issue ID") == Some(Number(issue.iid))
  {
    ColumnAt(service, issue, 0, "Issue ID", Send(Iid));
  }

  /** 'URL' is the issue's URL. */
  lemma UrlColumn(service: Service, issue: Issue)
    ensures ExportValue(service, issue, "URL") == Some(Text(service.issueUrl(issue)))
  {
    ColumnAt(service, issue, 1, "URL", Lambda(Url));
  }

  /** 'Title' is the issue's title. */
  lemma TitleColumn(service: Service, issue: Issue)
    ensures ExportValue(service, issue, "Title") == Some(Text(issue.title))
  {
    ColumnAt(service, issue, 2, "Title", Send(Title));
  }

  /** 'State' is "Closed" for a closed issue and "Open" for any other. */
  lemma StateColumn(service: Service, issue: Issue)
    ensures issue.closed ==> ExportValue(service, issue, "State") == Some(Text("Closed"))
    ensures !issue.closed ==> ExportValue(service, issue, "State") == Some(Text("Open"))
  {
    ColumnAt(service, issue, 3, "State", Lambda(State));
  }

  /** 'Description' is the description, nil when it is nil. */
  lemma DescriptionColumn(service: Service, issue: Issue)
    ensures ExportValue(service, issue, "Description") ==
      Some(if issue.description.Some? then Text(issue.description.value) else Nil)
  {
    ColumnAt(service, issue, 4, "Description", Send(Description));
  }

  /** 'Author' is the record's `author_name`, nil when it is nil. */
  lemma AuthorColumn(service: Service, issue: Issue)
    ensures ExportValue(service, issue, "Author") ==
      Some(if issue.authorName.Some? then Text(issue.authorName.value) else Nil)
  {
    ColumnAt(service, issue, 5, "Author", Send(AuthorName));
  }

  /** 'Author Username' is read through `&.`: nil exactly when there is no author. */
  lemma AuthorUsernameColumn(service: Service, issue: Issue)
    ensures ExportValue(service, issue, "Author Username") ==
      Some(if issue.author.Some? then Text(issue.author.value.username) else Nil)
  {
    ColumnAt(service, issue, 6, "Author Username", Lambda(AuthorUsername));
  }

  /** 'Assignee' lists the assignees' names in order, separated by ", "; "" when unassigned. */
  lemma AssigneeColumn(service: Service, issue: Issue)
    ensures ExportValue(service, issue, "Assignee") == Some(Text(Join(Names(issue.assignees), ", ")))
    ensures issue.assignees == [] ==> ExportValue(service, issue, "Assignee") == Some(Text(""))
  {
    ColumnAt(service, issue, 7, "Assignee", Lambda(AssigneeNames));
  }

  /** 'Assignee Username' lists the assignees' usernames the same way. */
  lemma AssigneeUsernameColumn(service: Service, issue: Issue)
    ensures ExportValue(service, issue, "Assignee Username") == Some(Text(Join(Usernames(issue.assignees), ", ")))
    ensures issue.assignees == [] ==> ExportValue(service, issue, "Assignee Username") == Some(Text(""))
  {
    ColumnAt(service, issue, 8, "Assignee Username", Lambda(AssigneeUsernames));
  }

  /** 'Confidential' says "Yes" exactly when the issue is confidential, "No" otherwise. */
  lemma ConfidentialColumn(service: Service, issue: Issue)
    ensures ExportValue(service, issue, "Confidential") == Some(Text("Yes")) <==> issue.confidential
    ensures ExportValue(service, issue, "Confidential") == Some(Text("No")) <==> !issue.confidential
  {
    ColumnAt(service, issue, 9, "Confidential", Lambda(Confidential));
  }

  /** 'Locked' says "Yes" exactly when the discussion is locked, "No" otherwise. */
  lemma LockedColumn(service: Service, issue: Issue)
    ensures ExportValue(service, issue, "Locked") == Some(Text("Yes")) <==> issue.discussionLocked
    ensures ExportValue(service, issue, "Locked") == Some(Text("No")) <==> !issue.discussionLocked
  {
    ColumnAt(service, issue, 10, "Locked", Lambda(Locked));
  }

  /** 'Due Date' is read through `&.`: nil exactly when there is no due date. */
  lemma DueDateColumn(service: Service, issue: Issue)
    ensures ExportValue(service, issue, "Due Date") ==
      Some(if issue.dueDate.Some? then CsvDate(issue.dueDate.value) else Nil)
  {
    ColumnAt(service, issue, 11, "Due Date", Lambda(DueDate));
  }

  /** 'Created At (UTC)' is read through `&.`: nil exactly when the timestamp is. */
  lemma CreatedAtColumn(service: Service, issue: Issue)
    ensures ExportValue(service, issue, "Created At (UTC)") ==
      Some(if issue.createdAt.Some? then CsvTime(issue.createdAt.value) else Nil)
  {
    ColumnAt(service, issue, 12, "Created At (UTC)", Lambda(CreatedAt));
  }

  /** 'Updated At (UTC)' likewise. */
  lemma UpdatedAtColumn(service: Service, issue: Issue)
    ensures ExportValue(service, issue, "Updated At (UTC)") ==
      Some(if issue.updatedAt.Some? then CsvTime(issue.updatedAt.value) else Nil)
  {
    ColumnAt(service, issue, 13, "Updated At (UTC)", Lambda(UpdatedAt));
  }

  /** 'Closed At (UTC)' likewise. */
  lemma ClosedAtColumn(service: Service, issue: Issue)
    ensures ExportValue(service, issue, "Closed At (UTC)") ==
      Some(if issue.closedAt.Some? then CsvTime(issue.closedAt.value) else Nil)
  {
    ColumnAt(service, issue, 14, "Closed At (UTC)", Lambda(ClosedAt));
  }

  /** 'Milestone' is read through `&.`: nil exactly when there is no milestone. */
  lemma MilestoneColumn(service: Service, issue: Issue)
    ensures ExportValue(service, issue, "Milestone") ==
      Some(if issue.milestone.Some? then Text(issue.milestone.value.title) else Nil)
  {
    ColumnAt(service, issue, 15, "Milestone", Lambda(MilestoneTitle));
  }

  /** 'Weight' is the weight, nil when it is nil. */
  lemma WeightColumn(service: Service, issue: Issue)
    ensures ExportValue(service, issue, "Weight") ==
      Some(if issue.weight.Some? then Number(issue.weight.value) else Nil)
  {
    ColumnAt(service, issue, 16, "Weight", Lambda(Weight));
  }

  /** 'Time Estimate' is the estimate, which is never nil. */
  lemma TimeEstimateColumn(service: Service, issue: Issue)
    ensures ExportValue(service, issue, "Time Estimate") == Some(CsvInteger(issue.timeEstimate))
  {
    ColumnAt(service, issue, 18, "Time Estimate", Lambda(TimeEstimate));
  }

  /** When no assignee name holds a comma, the 'Assignee' cell determines the names:
      cutting it at ", " gives them back, in order. */
  lemma AssigneeNamesRoundTrip(users: seq<User>)
    requires users != [] && forall u :: u in users ==> ',' !in u.name
    ensures SplitOn(Join(Names(users), ", "), ", ") == Names(users)
  {
    forall n | n in Names(users) ensures ',' !in n {
      var i :| 0 <= i < |users| && Names(users)[i] == n;
      assert users[i] in users;
    }
    SplitJoin(Names(users), ", ");
  }

  /** Likewise for usernames and the 'Assignee Username' cell. */
  lemma AssigneeUsernamesRoundTrip(users: seq<User>)
    requires users != [] && forall u :: u in users ==> ',' !in u.username
    ensures SplitOn(Join(Usernames(users), ", "), ", ") == Usernames(users)
  {
    forall n | n in Usernames(users) ensures ',' !in n {
      var i :| 0 <= i < |users| && Usernames(users)[i] == n;
      assert users[i] in users;
    }
    SplitJoin(Usernames(users), ", ");
  }

  /** The sorted labels joined with "," are blank exactly when there are no labels or a
      single blank one: with two or more, the comma is there. */
  lemma JoinedLabelsBlank(ls: seq<string>, sorted: seq<string>)
    requires Sorted(sorted) && multiset(sorted) == multiset(ls)
    ensures Blank(Join(sorted, ",")) <==> ls == [] || (|ls| == 1 && Blank(ls[0]))
  {
    assert |sorted| == |multiset(sorted)| == |ls|;
    if |ls| == 1 {
      assert ls == [ls[0]];
      assert sorted[0] in multiset(ls);
    } else if |ls| >= 2 {
      var joined := Join(sorted, ",");
      JoinContains(sorted, ",", ',');
      var k :| 0 <= k < |joined| && joined[k] == ',';
      assert !IsSpace(joined[k]);
    }
  }

  /** When no label holds a comma, cutting the joined labels at "," gives them back. */
  lemma JoinedLabelsRoundTrip(ls: seq<string>, sorted: seq<string>)
    requires Sorted(sorted) && multiset(sorted) == multiset(ls)
    requires sorted != [] && forall l :: l in ls ==> ',' !in l
    ensures SplitOn(Join(sorted, ","), ",") == sorted
  {
    forall l | l in sorted ensures ',' !in l {
      assert l in multiset(sorted);
    }
    SplitJoin(sorted, ",");
  }

  /** 'Labels' is the issue's labels in ascending order joined with "," (any ascending
      arrangement of them: there is only one), or nil when that string is blank, which
      happens exactly when the issue has no labels or a single blank one. When no label
      holds a comma, cutting the cell at "," gives the sorted labels back. */
  lemma LabelsColumn(service: Service, issue: Issue, sorted: seq<string>)
    requires Sorted(sorted) && multiset(sorted) == multiset(LabelsOf(service.labels, issue))
    ensures ExportValue(service, issue, "Labels") == Some(Presence(Join(sorted, ",")))
    ensures ExportValue(service, issue, "Labels") == Some(Nil) <==>
      var ls := LabelsOf(service.labels, issue); ls == [] || (|ls| == 1 && Blank(ls[0]))
    ensures issue.id !in service.labels ==> ExportValue(service, issue, "Labels") == Some(Nil)
    ensures sorted != [] && (forall l :: l in LabelsOf(service.labels, issue) ==> ',' !in l) ==>
      SplitOn(Join(sorted, ","), ",") == sorted
  {
    var ls := LabelsOf(service.labels, issue);
    ColumnAt(service, issue, 17, "Labels", Lambda(Labels));
    SortedPermutationIsUnique(Sort(ls), sorted);
    JoinedLabelsBlank(ls, sorted);
    if sorted != [] && (forall l :: l in ls ==> ',' !in l) {
      JoinedLabelsRoundTrip(ls, sorted);
    }
  }

  /** `sum` adds the entries of a concatenation piecewise. */
  lemma {:induction false} SumTimeSpentAppend(a: seq<Timelog>, b: seq<Timelog>)
    ensures SumTimeSpent(a + b) == SumTimeSpent(a) + SumTimeSpent(b)
  {
    if a == [] {
      assert a + b == b;
    } else {
      assert (a + b)[1..] == a[1..] + b;
      SumTimeSpentAppend(a[1..], b);
    }
  }

  /** 'Time Spent' is the total of the issue's timelog entries, 0 without any. */
  lemma TimeSpentColumn(service: Service, issue: Issue)
    ensures ExportValue(service, issue, "Time Spent") == Some(Number(SumTimeSpent(issue.timelogs)))
    ensures issue.timelogs == [] ==> ExportValue(service, issue, "Time Spent") == Some(Number(0))
  {
    ColumnAt(service, issue, 19, "Time Spent", Lambda(TimeSpent));
  }

  /** Logging more time adds exactly that entry's amount to 'Time Spent'. */
  lemma TimeSpentAddsEntry(issue: Issue, log: Timelog)
    ensures IssueTimeSpent(issue.(timelogs := issue.timelogs + [log]))
         == Number(SumTimeSpent(issue.timelogs) + log.timeSpent)
  {
    SumTimeSpentAppend(issue.timelogs, [log]);
  }
}
