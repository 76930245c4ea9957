# GitLab: the `Seed` pipeline-chain link and the issue CSV row, in Dafny

This project models two pieces of GitLab.

**The `Seed` link of the CI pipeline-creation chain** (`ci_pipeline_chain_seed.dfy`,
module `CiPipelineChainSeed`). Pipeline creation runs a chain of links over a shared
command object. `Seed#perform!` does five things in order:

1. It refuses to run without a YAML processor result.
2. It gives the pipeline a project iid and a CI ref, each only if the pipeline lacks one.
3. It copies the ref's protection onto the pipeline.
4. It runs the caller's seeds block, unless the `seed_block_run_before_workflow_rules`
   feature flag has moved that block earlier in the chain.
5. It builds the stage/job seed graph once per link and keeps it. If the graph reports
   errors, it records them on the pipeline as one configuration error, joined with
   newlines. Otherwise it hands the graph to the command.

`break?` stops the chain once the pipeline has an error. The model is imperative, as
the Ruby code is. `Pipeline`, `Command`, `SeedsBlock`, the seed graph `PipelineSeed` and
the link `Seed` are classes. `Perform` states the complete new state of the pipeline,
the command, the block and the link's memo. The memo's errors are those `seedErrors`
reports for the state the graph was built from. The block's `Call` records the pipeline
object it was handed and that pipeline's state, and the seed graph records the state
it was built from. This shows that the iid, the ref and the protection are in place
before either of them runs.

**The per-issue row of the issues CSV export** (`issues_export_csv.dfy`, module
`IssuesExportCsv`). `header_to_value_hash` is an ordered table of twenty headers. Each
header maps to an attribute sent to the issue or to a lambda. The model keeps this as
the constant `HeaderToValue`. `ValueFor` finds a header at its first position in the
table. For a table without repeated headers this is what the Ruby hash answers. The
export's table has no repeated header (`ExportHeadersDistinct`); a Ruby hash literal
with a repeated key would keep the last value instead. A row is the table applied to
one issue (`Row`, `IssueRow`). One lemma per column states the cell the export writes under that header. `issue_labels` sorts
the labels, joins them with "," and turns a blank result into nil. `issue_time_spent`
sums the timelogs.

`strings.dfy` (module `Strings`) holds the Ruby string operations these use:

- `Array#join` (`Join`);
- `String#<=>` with `Array#sort` (`LessEq`, `Sort`);
- ActiveSupport's `String#blank?` (`Blank`).

It also holds `SplitOn`, an inverse of `Join` that the round-trip lemmas use.
`wrappers.dfy` holds `Option`, which stands for a value that may be Ruby's `nil`.

Inputs that the model takes as given:

- **Seed link.** `Perform` receives three values as parameters:
  - the feature flag's value for the project;
  - the iid the allocator would hand out;
  - the `Ci::Ref` record that `ensure_ci_ref!` would attach.

  The link is created with the function `seedErrors`. It stands for the errors
  `Gitlab::Ci::Pipeline::Seed::Pipeline.new` would report: `None` for nil, otherwise
  the list.
- **CSV export.** The issue URL comes from the function `Service.issueUrl`. The labels
  hash is the map `Service.labels`. A value formatted with `to_s(:csv)` stays a `Cell`
  constructor (`CsvDate`, `CsvTime`, `CsvInteger`) that names the value without
  rendering it.

Two details of `seed.rb` that the model keeps as written:

- A missing YAML processor result raises `ArgumentError` with the message
  "missing YAML processor result" (seed.rb:12). It is not recorded as a pipeline error.
- The seeds block runs in this link only when the flag
  `seed_block_run_before_workflow_rules` is off (seed.rb:22-27).

## Model

| member | source | states |
|---|---|---|
| `CiPipelineChainSeed.Seed.Perform` | lib/gitlab/ci/pipeline/chain/seed.rb:11-37 | Without a YAML processor result: returns `ArgumentError("missing YAML processor result")` and leaves the pipeline, the command, the block and the link unchanged. Otherwise, on both the error and the success path: iid and CI ref are kept if present and set if absent; `protected` equals the command's `protected_ref?`; the block (when present) is called exactly once iff the flag is off, with this very pipeline object, already carrying the iid, the ref and the protection; the seed graph is built at most once (a second call reuses the same object) from the stages attributes and the prepared pipeline, and its errors are what `seedErrors` reports for that pipeline and those attributes. Errors present: exactly one error, the messages joined with "\n", flagged `config_error`, `pipeline_seed` untouched and `Break()` holds. No errors: error list unchanged and the command holds the seed graph. |
| `CiPipelineChainSeed.Seed.Break` | lib/gitlab/ci/pipeline/chain/seed.rb:39-41 | True iff the pipeline's error list is non-empty; a function, so it changes nothing. |
| `CiPipelineChainSeed.Seed.GetPipelineSeed` | lib/gitlab/ci/pipeline/chain/seed.rb:45-50 | The first call builds a fresh seed graph from the stages attributes and the pipeline as it is now, carrying the errors `seedErrors` reports for them, and counts one construction. Every later call returns that same object and builds nothing. |
| `CiPipelineChainSeed.Seed.Error` | lib/gitlab/ci/pipeline/chain/seed.rb:33 | Appends exactly one error, with the given message and `config_error` flag, to the pipeline's errors. |
| `CiPipelineChainSeed.Pipeline.EnsureProjectIid` | lib/gitlab/ci/pipeline/chain/seed.rb:14-15 | Afterwards the pipeline has an iid. An iid it already had is kept. Otherwise it takes the allocated one. |
| `CiPipelineChainSeed.Pipeline.EnsureCiRef` | lib/gitlab/ci/pipeline/chain/seed.rb:16 | Afterwards the pipeline has a CI ref. A ref it already had is kept. Otherwise it takes the given one. |
| `CiPipelineChainSeed.SeedsBlock.Call` | lib/gitlab/ci/pipeline/chain/seed.rb:26 | One call of the block is recorded: the pipeline object it was given, together with that pipeline's state at that moment. |
| `CiPipelineChainSeed.PipelineSeed.constructor` | lib/gitlab/ci/pipeline/chain/seed.rb:48 | The seed graph keeps the pipeline state and the stages attributes it was built from, and the errors its construction reported. |
| `Strings.SplitJoin` | lib/gitlab/ci/pipeline/chain/seed.rb:33 | `join` loses nothing: a non-empty list of parts without the separator's first character is recovered by cutting the joined string at the separator. This applies to the "\n"-joined error message and to the "," and ", " joins of the export. |
| `Strings.Sort` | app/services/issues/export_csv_service.rb:66 | `sort` on strings gives an ascending (`String#<=>`) permutation of its input, of the same length. |
| `Strings.SortedPermutationIsUnique` | app/services/issues/export_csv_service.rb:66 | Two ascending permutations of the same strings are equal, so the sorted label order is determined by the labels alone. |
| `IssuesExportCsv.Presence` | app/services/issues/export_csv_service.rb:66 | `.presence` gives nil exactly for a blank string (empty or Unicode white space only) and the string itself otherwise. |
| `IssuesExportCsv.ExportHeaders` | app/services/issues/export_csv_service.rb:40-62 | The header line is exactly the twenty headers from 'Issue ID' to 'Time Spent', in the table's order. |
| `IssuesExportCsv.ExportHeadersDistinct` | app/services/issues/export_csv_service.rb:40-62 | No header occurs twice, so the hash keeps all twenty entries. |
| `IssuesExportCsv.RowMatchesHeaders` | app/services/issues/export_csv_service.rb:40-62 | For any table without repeated headers, the i-th cell of an issue's row is the value the hash gives for the i-th header. |
| `IssuesExportCsv.IssueRowMatchesHeaders` | app/services/issues/export_csv_service.rb:40-62 | Every issue's export row lines up with the export's header line, cell by cell. |
| `IssuesExportCsv.IssueRow` | app/services/issues/export_csv_service.rb:40-62 | Every issue's row has one cell per header: twenty. |
| `IssuesExportCsv.IssueIdColumn` | app/services/issues/export_csv_service.rb:42 | 'Issue ID' is the issue's iid. |
| `IssuesExportCsv.UrlColumn` | app/services/issues/export_csv_service.rb:43 | 'URL' is the issue's URL. |
| `IssuesExportCsv.TitleColumn` | app/services/issues/export_csv_service.rb:44 | 'Title' is the issue's title. |
| `IssuesExportCsv.StateColumn` | app/services/issues/export_csv_service.rb:45 | 'State' is "Closed" for a closed issue and "Open" otherwise. |
| `IssuesExportCsv.DescriptionColumn` | app/services/issues/export_csv_service.rb:46 | 'Description' is the description, nil when it is nil. |
| `IssuesExportCsv.AuthorColumn` | app/services/issues/export_csv_service.rb:47 | 'Author' is the record's `author_name`, nil when it is nil. |
| `IssuesExportCsv.AuthorUsernameColumn` | app/services/issues/export_csv_service.rb:48 | 'Author Username' is the author's username, nil exactly when there is no author. |
| `IssuesExportCsv.AssigneeColumn` | app/services/issues/export_csv_service.rb:49 | 'Assignee' is the assignees' names in assignee order joined with ", ". It is "" with no assignees. |
| `IssuesExportCsv.AssigneeUsernameColumn` | app/services/issues/export_csv_service.rb:50 | 'Assignee Username' is the usernames in assignee order joined with ", ". It is "" with no assignees. |
| `IssuesExportCsv.Names` | app/services/issues/export_csv_service.rb:49 | `map(&:name)`: one name per assignee, position by position. |
| `IssuesExportCsv.Usernames` | app/services/issues/export_csv_service.rb:50 | `map(&:username)`: one username per assignee, position by position. |
| `IssuesExportCsv.AssigneeNamesRoundTrip` | app/services/issues/export_csv_service.rb:49 | When no name holds a comma, cutting the 'Assignee' text at ", " gives back the names in order. |
| `IssuesExportCsv.AssigneeUsernamesRoundTrip` | app/services/issues/export_csv_service.rb:50 | When no username holds a comma, cutting the 'Assignee Username' text at ", " gives back the usernames in order. |
| `IssuesExportCsv.ConfidentialColumn` | app/services/issues/export_csv_service.rb:51 | 'Confidential' is "Yes" iff the issue is confidential and "No" iff it is not. |
| `IssuesExportCsv.LockedColumn` | app/services/issues/export_csv_service.rb:52 | 'Locked' is "Yes" iff the discussion is locked and "No" iff it is not. |
| `IssuesExportCsv.DueDateColumn` | app/services/issues/export_csv_service.rb:53 | 'Due Date' is the formatted due date, nil exactly when there is none. |
| `IssuesExportCsv.CreatedAtColumn` | app/services/issues/export_csv_service.rb:54 | 'Created At (UTC)' is the formatted creation time, nil exactly when there is none. |
| `IssuesExportCsv.UpdatedAtColumn` | app/services/issues/export_csv_service.rb:55 | 'Updated At (UTC)' is the formatted update time, nil exactly when there is none. |
| `IssuesExportCsv.ClosedAtColumn` | app/services/issues/export_csv_service.rb:56 | 'Closed At (UTC)' is the formatted closing time, nil exactly when there is none. |
| `IssuesExportCsv.MilestoneColumn` | app/services/issues/export_csv_service.rb:57 | 'Milestone' is the milestone's title, nil exactly when there is no milestone. |
| `IssuesExportCsv.WeightColumn` | app/services/issues/export_csv_service.rb:58 | 'Weight' is the weight, nil when it is nil. |
| `IssuesExportCsv.LabelsColumn` | app/services/issues/export_csv_service.rb:59-67 | 'Labels' is `presence` of the ascending labels joined with ",". It is nil exactly when the issue has no labels or a single blank label, and nil for an issue missing from the labels hash. When no label holds a comma, cutting the text at "," gives back the sorted labels. |
| `IssuesExportCsv.JoinedLabelsBlank` | app/services/issues/export_csv_service.rb:66 | The sorted labels joined with "," are blank iff there are no labels or a single blank one. |
| `IssuesExportCsv.JoinedLabelsRoundTrip` | app/services/issues/export_csv_service.rb:66 | Comma-free labels, sorted and joined with ",", are recovered by cutting the result at ",". |
| `IssuesExportCsv.TimeEstimateColumn` | app/services/issues/export_csv_service.rb:60 | 'Time Estimate' is the formatted estimate and is never nil. |
| `IssuesExportCsv.TimeSpentColumn` | app/services/issues/export_csv_service.rb:70-72 | 'Time Spent' is the sum of the timelogs' `time_spent`, and 0 without timelogs. |
| `IssuesExportCsv.SumTimeSpentAppend` | app/services/issues/export_csv_service.rb:71 | The sum over two lists of timelogs put together is the sum of their sums. |
| `IssuesExportCsv.TimeSpentAddsEntry` | app/services/issues/export_csv_service.rb:70-72 | One more timelog raises the time spent by exactly that entry's amount. |

## Left out

- Allocating the iid (`ensure_project_iid!`'s database sequence, and its running outside the pipeline-creation transaction) is not part of this model. The allocated value is a parameter, and only the set-if-absent behaviour is modelled.
- `Ci::Pipeline#ensure_ci_ref!` is not part of this model. It is modelled as set-if-absent with the ref record as a parameter.
- `Gitlab::Ci::Pipeline::Seed::Pipeline` (stage and job seeds, `needs` resolution, error collection) is not part of this model. Its reported errors come from the link's `seedErrors` function.
- `Gitlab::Ci::Features.seed_block_run_before_workflow_rules_enabled?` is not part of this model. Its answer for the project is a parameter of `Perform`.
- `Chain::Helpers#error` is not part of this model. It is modelled as appending the message and its `config_error` flag to the pipeline's errors. Anything else it may do to the pipeline is not modelled.
- What the caller's seeds block does to the pipeline is the caller's code. The model records each call and the pipeline state it received, and assumes the block leaves the pipeline's iid, ref, protection and errors as they were.
- The chain runner that calls `perform!` and `break?` on each link is not part of this model.
- `CiPipelineChainSeed.Seed.Break`: `pipeline.errors.any?` is read as "the error list is non-empty". ActiveModel's error collection is not modelled.
- `csv_data`, `email`, `csv_builder` and `CsvBuilder` are left out: rendering, the `TARGET_FILESIZE` cut-off, memoising the builder and mail delivery are I/O.
- `associations_to_preload` is ORM preloading and is left out. Routing behind `issue_url` is the `Service.issueUrl` parameter.
- `to_s(:csv)` formatting of dates, times and integers is not rendered. The cells `CsvDate`, `CsvTime` and `CsvInteger` name the formatted value.
- `labels_hash` is not part of this model. It is the map `Service.labels`, and an issue missing from it reads as having no labels: the hash it builds answers `[]` for a missing key.
- `author_name` is the issue's own field. The delegation to the author record behind it is not part of this model.
- `Strings.LessEq` compares code points. For UTF-8 strings this gives the same order as Ruby's byte-wise `String#<=>`.
- The EE override that `prepend_if_ee` adds is not part of this model.
