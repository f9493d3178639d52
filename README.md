# pytest-testrail publisher core in Dafny

This project models the part of the pytest-testrail plugin that turns
collected test results into TestRail API calls. That part is the
`TestrailActions` class. It also models the option lookup of
`ConfigManager` in the plugin's `conftest.py`.

- **Records** (`records.dfy`): the result dictionary built by `add_result`, the
  wire entry sent for it, the session settings the actions read, the
  `plan_entry_storage` registry entry, every POST request the class issues,
  and the transport replies it reads.
- **Wire entries** (`pytext.dfy`, `comment.dfy`): how `_add_results` builds
  one entry.
  - The comment is assembled from its four sections in a fixed order.
  - The pytest log tail is truncated and indented with four spaces.
  - `version` is attached when the session sets one.
  - The duration becomes an `elapsed` text of rounded seconds. Python's
    `round` is modelled as half-to-even.
- **Sending order** (`ordering.dfy`): the stable sort by case id, and the
  exclusion of cases the run reports as blocked. That exclusion applies only
  when `publish_blocked` is exactly `False`.
- **Chunking** (`chunking.dfy`): the flush rule as a predicate.
  - The rule determines the chunking uniquely.
  - The packing loop is proved to produce that chunking.
- **Routing** (`routing.dfy`): the two branches of `publish_results`.
  - With a configured run, the results of the first stored suite are
    bucketed under that suite's stored run and read back under the
    configured run.
  - Otherwise the results are grouped by the stored run of their suite,
    keeping the insertion order of the `defaultdict`.
  - Both branches are written as loop methods proved against reference
    functions.
- **Queries** (`queries.dfy`): the `[]` fallback of the list-returning `get_*`
  wrappers, the two availability checks, and the nested loops of
  `get_available_testruns` and `get_testplan_entry_id`.
- **Publish trace** (`publishing.dfy`): the POST sequence of a whole publish
  as a function of the registry, the settings and the replies. Its lemmas
  state that:
  - what is sent comes from listed results only;
  - it goes to the right run;
  - blocked cases are never sent;
  - every eligible result is sent.
- **The class** (`actions.dfy`): `TestrailActions` holds the registry,
  `testplan_id`, `testplan_entry_id` and the trace of POSTs issued. Every
  operation that changes them is a method whose postcondition gives the new
  state. The methods are tied to the functions above.
- **Options** (`config.dfy`): `ConfigManager.__init__` and `getoption`. The
  precedence is command line, then ini, then config file, then default; a
  falsy command-line value falls through to the ini value.

The HTTP client is an oracle:
- a method receives the reply it would read (the error text from
  `get_error`, and the fields it reads from the body) as a parameter;
- every POST is appended to the `posted` field;
- GET requests leave no trace;
- an error text `""` stands for "no error".

Python exceptions that the code lets escape are results:
- `Raised(KeyError)`, `Raised(IndexError)` and `Raised(AttributeError)` for
  functions and methods that return a value;
- `Threw(...)` for `publish_results`.

## Behaviour worth knowing

- A duration of 2.5 s gives `"2s"`, because Python's `round` is
  half-to-even.
- A flushed chunk is larger than 512 KiB, because the size test comes after
  the append.
- Without a configured run, a listed result whose suite is not in the
  registry makes the grouping loop raise `KeyError`. The model assumes
  `plan_entry_storage` is a plain dict; see "## Left out".
- With a configured run, a bucket missing under that run id makes
  `_add_results(None)` raise `AttributeError` at the sort. So does a bucket
  stored under a different run. An empty registry raises `IndexError` at
  `list(...)[0]`.

## Model

| member | source | states |
|---|---|---|
| Records.AddResult | pytest_testrail/testrail_actions.py:15-39 | every field of the result is the corresponding argument; `test_comments` is `[]` when not given |
| PyText.NatStrDigits | pytest_testrail/testrail_actions.py:101 | `str(n)` of a natural number is non-empty, all digits, and has decimal value `n` |
| PyText.IntStrRoundTrip | pytest_testrail/testrail_actions.py:101 | the decimal text of any integer reads back to that integer |
| PyText.IntStrInjective | pytest_testrail/testrail_actions.py:447 | `str(a) == str(b)` exactly when `a == b` |
| PyText.PyTail | pytest_testrail/testrail_actions.py:94 | `s[-k:]` is a suffix of `s`; its length is `min(len(s), k)` for `k > 0`, and it is all of `s` for `k == 0` |
| PyText.DedentIndent | pytest_testrail/testrail_actions.py:94-95 | the `'\n' -> '\n    '` replacement loses nothing: removing the four spaces after each break gives the text back |
| PyText.IndentFollowsBreaks | pytest_testrail/testrail_actions.py:94-95 | every line break of the indented text is followed by four spaces |
| Comment.ReadSection | pytest_testrail/testrail_actions.py:92-95 | a pytest-result section, truncated or not, reads back to its truncation flag and its dedented body |
| Comment.ResultSectionReadBack | pytest_testrail/testrail_actions.py:90-95 | for a non-empty comment of a non-passed test, the section reads back as (truncated exactly when `len(comment) > limit`, the last `limit` characters of the comment) |
| Comment.ComposeComment | pytest_testrail/testrail_actions.py:83-97 | the comment is empty exactly when no section applies; it starts with the parametrize section when there is one and ends with `custom_comment + '\n'` when that is set |
| Comment.ComposeSections | pytest_testrail/testrail_actions.py:83-97 | the comment is, in this order: the parametrize header, value and a blank line (when present); the comments header, the comments joined by line breaks and a blank line (when there are comments); the pytest-result section; `custom_comment + '\n'` (when set) |
| Comment.ResultSectionMeaning | pytest_testrail/testrail_actions.py:90-95 | the pytest-result section is present exactly for a non-empty comment of a test that did not pass, and then reads back to (truncated exactly when `len(comment) > limit`, the last `limit` characters) |
| Comment.RoundHalfEven | pytest_testrail/testrail_actions.py:100 | the result is within 0.5 of the input, and a tie goes to the even integer |
| Comment.RoundHalfEvenUnique | pytest_testrail/testrail_actions.py:100 | those two properties determine the rounded integer |
| Comment.ElapsedSeconds | pytest_testrail/testrail_actions.py:99-100 | a non-zero duration gives at least 1 second: exactly 1 below one second, else the half-to-even rounding |
| Comment.Elapsed | pytest_testrail/testrail_actions.py:98-101 | `elapsed` is absent exactly when the duration is zero |
| Comment.ElapsedReadBack | pytest_testrail/testrail_actions.py:101 | a present `elapsed` is the decimal text of the seconds followed by `s` |
| Comment.ElapsedExamples | pytest_testrail/testrail_actions.py:98-101 | 0.4 gives `1s`, 2.5 gives `2s`, 3.5 gives `4s`, 0 gives no `elapsed` |
| Comment.WireEntryOf | pytest_testrail/testrail_actions.py:77-101 | status, case and defects are copied; `version` is present exactly when the session sets one and is that text; `elapsed` is absent exactly for a zero duration and otherwise is the `Elapsed` text; the comment is the composed comment |
| Comment.WireEntries | pytest_testrail/testrail_actions.py:76-102 | one wire entry per result, in the same order |
| Ordering.SortByCase | pytest_testrail/testrail_actions.py:56 | ascending by case id, a permutation of the input, and stable: each case's results keep their relative order |
| Ordering.BlockedCases | pytest_testrail/testrail_actions.py:61-64 | a case is listed exactly when some test of the run has it with the blocked status |
| Ordering.DropBlocked | pytest_testrail/testrail_actions.py:67 | a result is kept exactly when its case is not blocked; each kept case keeps its results in order; sortedness is preserved |
| Ordering.SentResults | pytest_testrail/testrail_actions.py:56-67 | the results sent are sorted by case id; when `publish_blocked` is `False` they are exactly the given results whose case is not blocked, otherwise the given results reordered; the order within a case is kept |
| Ordering.SentMembers | pytest_testrail/testrail_actions.py:59-67 | a result is sent exactly when it was given and (if `publish_blocked` is `False`) no blocked test has its case |
| Chunking.ChunkFromIsChunking | pytest_testrail/testrail_actions.py:104-109 | continuing from an open chunk that never reached the limit yields a chunking of the open chunk plus the remaining entries |
| Chunking.ConcatMembers | pytest_testrail/testrail_actions.py:109 | an entry is in the concatenated chunks exactly when it is in one of them |
| Chunking.ChunksAreChunking | pytest_testrail/testrail_actions.py:74-109 | the chunks are at least one, concatenate to the entries in order, every chunk but the last went over the limit exactly at its last entry, and the last never reached it |
| Chunking.ChunkingFirst | pytest_testrail/testrail_actions.py:104-109 | the first chunk is a prefix of the entries and the other chunks chunk the rest |
| Chunking.ChunkingUnique | pytest_testrail/testrail_actions.py:104-109 | the flush rule admits exactly one chunking of a given entry list |
| Chunking.SingleChunkFits | pytest_testrail/testrail_actions.py:105 | a non-empty entry list sent in one chunk is within the limit |
| Chunking.ExceedingSplits | pytest_testrail/testrail_actions.py:105-109 | entries whose whole payload exceeds 512 KiB are sent in at least two POSTs |
| Chunking.PackChunks | pytest_testrail/testrail_actions.py:74-109 | the packing loop yields exactly the chunking of the entries under the flush rule |
| Routing.Routed | pytest_testrail/testrail_actions.py:142-143 | the routed results are exactly the results whose `str(case_id)` is in `tests_list` |
| Routing.SuiteRouted | pytest_testrail/testrail_actions.py:135-137 | the routed results of a suite are exactly the listed results with that suite id |
| Routing.RunsOf | pytest_testrail/testrail_actions.py:144 | one stored run per result, in order |
| Routing.OrderStep | pytest_testrail/testrail_actions.py:144-145 | a listed result adds its stored run to the `defaultdict` keys only the first time that run is seen; other results change nothing |
| Routing.BucketMembers | pytest_testrail/testrail_actions.py:142-145 | `results_by_run[k]` holds exactly the listed results whose stored run is `k` |
| Routing.BucketRunKnown | pytest_testrail/testrail_actions.py:144-145 | a run with a non-empty bucket is among the dict's keys |
| Routing.GroupByRun | pytest_testrail/testrail_actions.py:141-146 | the grouping loop raises `KeyError` exactly when a listed result's suite is not stored, else gives one batch per key of `results_by_run` in insertion order |
| Routing.BatchesOf | pytest_testrail/testrail_actions.py:146 | `results_by_run.items()`: one batch per key, in key order, with that key's bucket |
| Routing.BucketFixed | pytest_testrail/testrail_actions.py:135-139 | the fixed-run loop fills at most one bucket: under the stored run of the first suite, holding that suite's listed results |
| Routing.GroupRunsDistinct | pytest_testrail/testrail_actions.py:146-147 | `_add_results` is called at most once per run |
| Routing.GroupSound | pytest_testrail/testrail_actions.py:142-147 | a batch holds exactly the listed results whose stored run is that batch's run |
| Routing.GroupNonEmpty | pytest_testrail/testrail_actions.py:144-147 | no batch is empty |
| Routing.GroupComplete | pytest_testrail/testrail_actions.py:142-147 | every listed result is in the batch of its stored run |
| Routing.FixedRoutes | pytest_testrail/testrail_actions.py:133-140 | when the fixed branch returns, there is exactly one batch, for the configured run, holding exactly the listed results of the first stored suite |
| Routing.FixedOutcome | pytest_testrail/testrail_actions.py:132-139 | with a configured run: `IndexError` for an empty registry; otherwise a batch exactly when the first suite's stored run equals the configured run and some listed result belongs to that suite; `AttributeError` in every other case, because results are bucketed under the stored run but read back under the configured one |
| Queries.ListOrEmpty | pytest_testrail/testrail_actions.py:397-410 | `[]` on a transport error, else the response body (the same rule as in `get_cases` and `get_suites`) |
| Queries.IsTestrunAvailable | pytest_testrail/testrail_actions.py:320-335 | true exactly when there is no error and `is_completed` is `False` |
| Queries.IsTestplanAvailable | pytest_testrail/testrail_actions.py:465-477 | true exactly when there is no error and `is_completed` is `False` |
| Queries.OpenRunsOfMembership | pytest_testrail/testrail_actions.py:460-462 | an id is collected from an entry exactly when one of its runs has that id and is not completed |
| Queries.OpenRunsMembership | pytest_testrail/testrail_actions.py:452-463 | an id is collected exactly when some run of some entry of the plan has it and is not completed |
| Queries.AvailableTestruns | pytest_testrail/testrail_actions.py:452-463 | a reply without `entries` raises `KeyError`; otherwise the nested loops collect the open run ids, entry by entry and run by run |
| Queries.FindEntryFirst | pytest_testrail/testrail_actions.py:439-450 | the lookup finds nothing exactly when no entry holds the run; otherwise it finds the first entry that does |
| Queries.FindEntryAt | pytest_testrail/testrail_actions.py:445-449 | the first entry holding the run is the one found |
| Queries.HasRunById | pytest_testrail/testrail_actions.py:447 | comparing `str(run['id'])` with the decimal text of `n` selects exactly the runs with id `n` |
| Publishing.ResultPosts | pytest_testrail/testrail_actions.py:111-116 | one `add_results` POST per chunk, in chunk order, to the same run |
| Publishing.CloseRequests | pytest_testrail/testrail_actions.py:151-154 | at most one close; none unless `close_on_complete` and a run or plan is set; with `close_on_complete` a set run gives exactly `close_run/<run>`, and otherwise a set plan gives exactly `close_plan/<plan>` |
| Publishing.PostsShape | pytest_testrail/testrail_actions.py:104-119 | one `_add_results` call posts at least once, always to its run; every POST but the last is over the limit and the last never reached it |
| Publishing.PostsCarry | pytest_testrail/testrail_actions.py:76-119 | an entry is posted exactly when it is the wire entry of one of the results sent |
| Publishing.BlockedNeverPosted | pytest_testrail/testrail_actions.py:59-119 | with `publish_blocked` `False`, no posted entry has a case that the run reports as blocked |
| Publishing.PostsOfMember | pytest_testrail/testrail_actions.py:76-119 | every result sent is posted |
| Publishing.ResultPosted | pytest_testrail/testrail_actions.py:56-119 | a given result is posted unless `publish_blocked` is `False` and its case is blocked |
| Publishing.PostedFromResults | pytest_testrail/testrail_actions.py:56-119 | every posted entry is the wire entry of a given result |
| Publishing.TraceMembers | pytest_testrail/testrail_actions.py:146-147 | a request is in the sequence of calls exactly when it is in one call's requests |
| Publishing.BatchRequestsSnoc | pytest_testrail/testrail_actions.py:146-147 | one batch more appends that batch's `_add_results` requests |
| Publishing.BatchRequestsMembers | pytest_testrail/testrail_actions.py:146-147 | a request of a publish belongs to the POSTs of one batch |
| Publishing.BatchDelivers | pytest_testrail/testrail_actions.py:146-147 | a result of a batch is posted to the batch's run unless it is excluded as blocked |
| Publishing.BatchSendsOnly | pytest_testrail/testrail_actions.py:146-147 | every request is an `add_results` POST to the run of some batch, and carries only wire entries of that batch's results |
| Publishing.PublishDelivers | pytest_testrail/testrail_actions.py:141-147 | without a configured run, every listed, unblocked result is posted to its suite's stored run |
| Publishing.FixedBatchFrom | pytest_testrail/testrail_actions.py:133-140 | with a configured run, a batch only holds listed results of the first stored suite |
| Publishing.FixedBatchRun | pytest_testrail/testrail_actions.py:133-140 | with a configured run, a publish has exactly one batch, for that run |
| Publishing.FixedBatchesRun | pytest_testrail/testrail_actions.py:133-140 | with a configured run, every batch is for that run |
| Publishing.GroupBatchFrom | pytest_testrail/testrail_actions.py:141-147 | without a configured run, a batch only holds listed results stored for its run |
| Publishing.PublishFixedSendsOnly | pytest_testrail/testrail_actions.py:133-140 | with a configured run, every POST of a publish goes to that run and carries only entries of listed results of the first stored suite |
| Publishing.PublishGroupSendsOnly | pytest_testrail/testrail_actions.py:141-147 | without a configured run, every POST goes to the stored run of the suite of each result it carries, and only listed results are carried |
| Actions.InsertKey | pytest_testrail/testrail_actions.py:134 | the dict's key order: a new key is appended last (`order + [k]`), and a re-stored key keeps its place, so the first key is stable |
| Actions.MergedCases | pytest_testrail/testrail_actions.py:271 | `list(set(tr_keys + current))` holds every case of either list, each once |
| Actions.CurrentCases | pytest_testrail/testrail_actions.py:266-268 | the run's current cases when `save_previous`, else none |
| Actions.TestrailActions.constructor | pytest_testrail/testrail_actions.py:12-13 | the object adopts the session's registry (with its key order), plan id and plan-entry id; nothing is posted yet |
| Actions.TestrailActions.Store | pytest_testrail/testrail_actions.py:195-197 | `plan_entry_storage[suite] = entry` changes only that suite's entry and keeps the key order |
| Actions.TestrailActions.SelectSent | pytest_testrail/testrail_actions.py:56-67 | the sort and the blocked filter yield the results that are sent |
| Actions.TestrailActions.PostChunks | pytest_testrail/testrail_actions.py:111-119 | every chunk is posted, in order, whatever the errors |
| Actions.TestrailActions.AddResults | pytest_testrail/testrail_actions.py:41-119 | `_add_results` appends exactly the POSTs of the sent results, chunked by the flush rule |
| Actions.TestrailActions.CloseTestRun | pytest_testrail/testrail_actions.py:337-351 | posts one close of the run |
| Actions.TestrailActions.CloseTestPlan | pytest_testrail/testrail_actions.py:353-367 | posts one close of the plan |
| Actions.TestrailActions.PlanBatches | pytest_testrail/testrail_actions.py:124-147 | the routing half of `publish_results` yields the publish's batches or its exception |
| Actions.TestrailActions.PostBatches | pytest_testrail/testrail_actions.py:140-147 | one `_add_results` call per batch, in order |
| Actions.TestrailActions.PublishResults | pytest_testrail/testrail_actions.py:121-154 | a routing exception propagates with nothing posted; otherwise the trace grows by the batches' POSTs and then at most one close |
| Actions.TestrailActions.CreateTestRun | pytest_testrail/testrail_actions.py:168-202 | posts the run. On error: returns 0 and leaves the registry alone. Otherwise: stores `{None, response id, tr_keys}` for the suite and returns the configured `testrun_id` |
| Actions.TestrailActions.CreatePlanEntry | pytest_testrail/testrail_actions.py:204-233 | posts the entry. On error: returns 0 and leaves the registry alone. Without runs: raises `IndexError`. Otherwise: stores `{entry id, first run id, tr_keys}` and returns the first run id |
| Actions.TestrailActions.CreatePlan | pytest_testrail/testrail_actions.py:235-256 | posts the plan. On error: returns 0 and keeps `testplan_id`. Otherwise: sets and returns the new plan id |
| Actions.TestrailActions.UpdateTestrun | pytest_testrail/testrail_actions.py:258-289 | posts and stores the same merged case list for the suite, whatever the reply; no other suite changes |
| Actions.TestrailActions.UpdateTestplanEntry | pytest_testrail/testrail_actions.py:291-318 | posts and stores the same merged case list with the entry id, whatever the reply; no other suite changes |
| Actions.TestrailActions.GetTestplanEntryId | pytest_testrail/testrail_actions.py:439-450 | a reply without `entries` raises `KeyError`; otherwise returns the first entry holding the run, recording it, or `None`, leaving `testplan_entry_id` alone |
| Config.NewConfigManager | pytest_testrail/conftest.py:176-191 | the config file is loaded exactly when the path is a file or a link |
| Config.CliOrIni | pytest_testrail/conftest.py:197 | a truthy command-line value wins; otherwise the ini value, even when that is `None` |
| Config.GetOption | pytest_testrail/conftest.py:193-210 | command line, then ini, then (with a section and a loaded file) the file entry read as a boolean when `is_bool`, then the default; only `getboolean` can raise `ValueError` |
| Config.FalsyCliIgnored | pytest_testrail/conftest.py:197-199 | a falsy command-line value gives the same answer as no command-line value |
| Config.HigherSourceWins | pytest_testrail/conftest.py:196-199 | a command-line or ini value hides the file and the default |
| Config.FileConsultedLast | pytest_testrail/conftest.py:201-210 | an answer that is neither the default nor the command-line/ini value comes from the file entry `(section, cfg_name)` |

## Left out

- Console output: every `print` in both files. It has no effect on behaviour.
- Transport: `send_post`, `send_get`, `get_error`, the URL templates and
  `cert_check` are the HTTP client's. The model takes the replies as
  parameters and records the POSTs.
  - A POST error is only printed, so it leaves no trace.
  - A reply missing a field the code reads (`id`, `runs`, `is_completed`)
    is not modelled. The one exception is `entries`, whose absence raises
    `KeyError`.
- The Python 2 `unicode` shim of `_add_results`: on Python 3 it is the
  identity on `str`.
- `sys.getsizeof(data.__str__())` depends on the CPython runtime. It is the
  `Measure` parameter, and no property of it is assumed.
- Helpers and constants from other modules are parameters:
  - `filter_publish_results` is the `Filter` parameter;
  - `get_case_list` is `caseList`;
  - `COMMENT_SIZE_LIMIT` is `commentLimit`;
  - `TESTRAIL_TEST_STATUS["blocked"]` is `blockedStatus`.
- Durations are `real` numbers, not IEEE floats.
- A `None` comment is the empty text. Both are falsy and neither is ever
  printed.
- A parametrize value is the text of its `str`, or `None` when it is falsy.
- Actions.TestrailActions.SelectSent: `results.sort` reorders the caller's
  list in place. The model sorts a copy, because no caller of
  `_add_results` reads the list afterwards.
- Actions.MergedCases: Python leaves the order of `list(set(...))` to the
  set. The model keeps first occurrences and states only membership and
  uniqueness.
- `plan_entry_storage` is built by the caller, outside the modelled code.
  The model assumes it is a plain dict, not a `defaultdict`, so reading an
  unregistered suite raises `KeyError`.
- `get_plan` and `get_run` return the response whatever the error. The
  queries built on them take that response as input.
- `get_cases` and `get_suites` follow the same `[]` fallback as
  `get_tests`, which `Queries.ListOrEmpty` states for all three.
- `update_testplan_entry` types `entry_id` as `str` in its signature. The
  model uses an integer id.
- `ConfigManager`:
  - `configparser`'s reading of the file, much of it library behaviour, is
    not modelled: option-name lowercasing, the `DEFAULT` section and
    interpolation. The parsed file is a map from `(section, option)` to
    text.
  - `getboolean` is the `BoolReader` parameter.
  - `os.path.isfile` and `os.path.islink` are boolean parameters.
- `config.getoption` for an option pytest does not know raises `ValueError`
  in pytest. The model reads a missing key as `None`.
- `pytest_addoption` and `pytest_configure` (conftest.py:42-172) are plugin
  registration and are not part of this model. Neither is
  `TestRailModel.py`, a plain data holder that serves only as a source of
  field names.
- The URL and id messages printed at the end of `publish_results`.
