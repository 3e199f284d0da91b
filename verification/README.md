# SWAPI character loader — a Dafny model of the per-record pipeline

The loader fetches Star Wars characters 1 to 100 from `https://swapi.dev/api/people/`.
For each character it resolves the linked films, species, starships, vehicles and
homeworld to their names, flattens the record into one row, and upserts that row
into the `characters` table, keyed by the id taken from the character's URL.

This project models that pipeline as pure functions. The fetches are the network
and are not modelled. Their outcomes are inputs, given in the order that
`asyncio.gather` returns them. Each outcome is one of:

- `Missing`: the fetcher returned `None`.
- `Raised(exc)`: an exception that the fetcher did not catch.
- `Payload(obj)`: a decoded JSON object.

The modules follow the components of `async_requests.py`:

- `Wrappers` (`wrappers.dfy`): `Option`, plus `Result` with a Python exception as its
  failure. An uncaught exception is an `Err` that `:-` propagates.
- `Json` (`json.dfy`): payload values (`Null`, `Text`, `Links`) and Python truthiness.
- `Strings` (`strings.dfy`): `str.split('/')`, `", ".join`, `split(", ")`, `str(n)` and `int(s)`.
- `Resolver` (`resolver.dfy`): `fetch_names` and `fetch_name`.
- `Normalizer` (`normalizer.dfy`): the body of `save_character` up to the write, and the
  14-column row of `models.py`.
- `Storage` (`storage.dfy`): the table as `map<int, Row>` and the upsert.
- `Orchestrator` (`orchestrator.dfy`): the 100 character URLs and the loop of
  `fetch_all_characters`.
- `Scenarios` (`scenarios.dfy`): end-to-end cases on particular payloads.

The model follows the code, including where it raises:

- A URL whose id does not parse raises `ValueError`, `IndexError` or
  `AttributeError`, so `Normalize` returns `Crashed` and `Run` stops with
  `Aborted`. Rows committed before that point stay written.
- A captured exception among one character's relationship fetch results raises
  `TypeError` inside `fetch_names`. `Normalize` returns `Crashed(TypeError)` and
  the whole run stops; see "Findings".

## Model

| member | source | states |
|---|---|---|
| Strings.SplitWhole | async_requests.py:50 | a string without `/` splits into itself alone |
| Strings.SplitAround | async_requests.py:50 | `split('/')` of `x + "/" + y` is `split` of `x` followed by `split` of `y` |
| Strings.SplitJoinRoundTrip | async_requests.py:57 | splitting a `", "`-joined non-empty list of names, none containing `", "`, gives back exactly those names in order |
| Strings.Decimal | async_requests.py:81 | `str(i)` of a natural number is a non-empty string of ASCII digits |
| Strings.DecimalRoundTrip | async_requests.py:81 | the digits of `str(n)` denote `n` |
| Strings.ParseInt | async_requests.py:50 | `int(s)` succeeds exactly on an optional sign followed by digits (no digit-count limit is modelled); the value is that of the digits, negated after `-`; anything else is `ValueError` |
| Strings.ParseDecimal | async_requests.py:50 | `int(str(n)) == n` |
| Resolver.FetchNames | async_requests.py:24-28 | the name list is never longer than the list of fetch results |
| Resolver.FetchNamesLength | async_requests.py:27-28 | no result is dropped exactly when every result is a payload with the field; when none is, the list is empty, not `None` |
| Resolver.FetchNamesSound | async_requests.py:27 | every name is `data[field]` of some fetched payload that has the field |
| Resolver.FetchNamesAppend | async_requests.py:25-27 | resolving `a + b` gives the names of `a` followed by the names of `b`, so input order is preserved |
| Resolver.FetchNamesAsWritten | async_requests.py:26-27 | as written, resolution raises `TypeError` exactly when a captured exception is among the results; otherwise it agrees with `FetchNames` |
| Resolver.CapturedExceptionAbortsResolution | async_requests.py:26-27 | a resolved title plus one captured exception: as written this raises `TypeError`; corrected, it keeps the title |
| Resolver.FetchName | async_requests.py:31-36 | a falsy URL gives `None` whatever the fetch; otherwise `data[field]` when the payload has it, `None` when the fetch failed or lacks the field, and the fetcher's exception propagates |
| Normalizer.RelationUrls | async_requests.py:44-47 | `data.get(key, [])` can be iterated unless the key holds `None`; an absent key gives no URLs |
| Normalizer.ParseId | async_requests.py:50 | a URL that is not a string has no `split` and raises `AttributeError` |
| Normalizer.IdOfUrlWithoutSlash | async_requests.py:50 | a URL without `/` has no second-to-last segment and raises `IndexError` |
| Normalizer.IdOfResourceUrl | async_requests.py:50 | for `p + "/" + d + "/"` with `d` decimal digits, the id is the value of `d` |
| Normalizer.Normalize | async_requests.py:24-67 | skipped exactly when `url` is absent; stored exactly when the record survives every raising step; a captured exception among the film, species, starship or vehicle fetch results raises `TypeError`; the stored id parses from `url`; the homeworld is the resolved name when truthy, else `"Unknown"`; each relation column is the `", "` join of its resolved names |
| Normalizer.NormalizedScalars | async_requests.py:54-63 | each of the eight scalar columns is the payload value under that name, or `"Unknown"` when the key is absent |
| Normalizer.RelationColumn | async_requests.py:57 | a joined column of no names is `""`; splitting it on `", "` gives back the names |
| Normalizer.NormalizedRelations | async_requests.py:44-66 | a stored row's films, species, starships and vehicles columns are `""` when no name resolved; otherwise, when no resolved name contains `", "`, splitting the column on `", "` gives exactly the resolved names in URL order |
| Normalizer.NormalizedId | async_requests.py:50 | a stored row for `.../<digits>/` has the digits' value as its id |
| Storage.Upsert | async_requests.py:69-75 | after the write, the row's id maps to exactly the new row; the key set gains only that id; every other row is unchanged |
| Storage.UpsertIdempotent | async_requests.py:69-75 | writing the same row twice equals writing it once |
| Storage.UpsertLastWins | async_requests.py:69-75 | a second write to an id overwrites every column of the first |
| Storage.UpsertCommutes | async_requests.py:69-75 | writes to different ids do not interfere |
| Storage.UpsertAll | async_requests.py:84-89 | a sequence of writes adds exactly the written ids; unwritten rows are unchanged |
| Storage.UpsertAllLatest | async_requests.py:69-75 | after a sequence of writes, each id holds the last row written to it |
| Storage.UpsertAllIdempotent | async_requests.py:69-75 | replaying a batch of writes over its own result changes nothing |
| Orchestrator.CharacterUrls | async_requests.py:81 | one URL per id, 100 in all |
| Orchestrator.CharacterUrlIds | async_requests.py:81 | the id parsed back from the i-th URL is i + 1, so all 100 URLs differ |
| Orchestrator.Effect | async_requests.py:84-89 | a captured exception, `None` or an empty object is skipped, and so is a record without `url`; only a non-empty object reaches `save_character`, and only a record with `url` can raise |
| Orchestrator.Run | async_requests.py:84-89 | a run never removes rows; every new or changed row has the id of a stored record |
| Orchestrator.RunCommitsBeforeCrash | async_requests.py:84-89 | the table holds the rows stored before the first raising record, in order; the run completes exactly when no record raises; an abort reports that record's exception |
| Orchestrator.RunOverSkippedEntries | async_requests.py:84-88 | a run over entries that are all captured exceptions or falsy results completes with the table unchanged |
| Orchestrator.RunIgnoresSkippedEntries | async_requests.py:84-88 | dropping skipped entries does not change the outcome of the run |
| Orchestrator.FetchAllCharacters | async_requests.py:78-89 | starting from the freshly created empty table, only stored ids appear |
| Orchestrator.FetchAllCharactersTable | async_requests.py:78-89 | after a completed run, the table has one row per stored id: the last row stored for it |
| Scenarios.FailedFilmOmitted | async_requests.py:44 | films `[A, B]` where A resolves and B fails to fetch are stored as exactly A's title |
| Scenarios.AbsentHomeworldIsUnknown | async_requests.py:61 | a payload without `homeworld` stores `"Unknown"` there |
| Scenarios.EmptySpeciesIsEmptyString | async_requests.py:64 | an empty species list stores `""`, which is not the `"Unknown"` sentinel |
| Scenarios.NoUrlLeavesTable | async_requests.py:40-42 | a payload without `url` leaves the table unchanged |
| Scenarios.CapturedFilmAbortsRun | async_requests.py:26-27 | a character with a url, one of whose film fetches raised, ends the run with `TypeError`; the table stays as it was and no later character is written |

## Findings

| source | as written | input that shows it | evidently intended | confidence | as-written member | corrected member |
|---|---|---|---|---|---|---|
| async_requests.py:26-27 | The results are gathered with `return_exceptions=True`. The filter `data and field_name in data` then runs `in` on a captured exception. An exception is truthy and does not support `in`, so this raises `TypeError`. Nothing catches it in `save_character` or `fetch_all_characters`, so the whole run aborts and every later character is lost. | One film whose fetch raises an exception the fetcher does not catch, such as a JSON decode error | A captured exception contributes no name, like a failed fetch | medium, not executed | Resolver.FetchNamesAsWritten, Resolver.CapturedExceptionAbortsResolution, Scenarios.CapturedFilmAbortsRun | Resolver.FetchNames, Resolver.FetchNamesLength |

`Normalize` resolves the relation lists as written, through `FetchNamesAsWritten`.
When that resolution succeeds, its names are those of the corrected `FetchNames`.
So every lemma about a stored row is stated in terms of `FetchNames`.

## Left out

- The fetcher (`fetch_character_data`, async_requests.py:12-21) is network I/O. This covers the HTTP GET, the 20-second timeout and the `Semaphore(20)` cap. Only its outcome is modelled, as `Missing`, `Raised` or `Payload`.
- `asyncio.gather` is scheduling and concurrency. Its positional result list is an input.
- A relation's result list is not checked against the number of URLs, because the URLs themselves only reach the network.
- The SQL statement, `session.execute` and `commit` belong to a foreign library. Only their meaning, a map update, is modelled. Database errors are not modelled.
- The database column types are not modelled. An id outside PostgreSQL's 32-bit `Integer`, or a list value in a `String` column, would fail at the database. A JSON null is written as SQL `NULL`.
- `models.py` is not modelled: the DSN configuration, the engine and the session factory. The `Character` schema gives only the row's 14 columns. `init_orm` is modelled only by its effect, which is that every run starts from an empty table (`FetchAllCharacters`).
- Timing, `print` diagnostics and `KeyboardInterrupt` handling (async_requests.py:92-101) are process glue.
- JSON numbers, booleans and nested objects are not modelled. A payload value is null, a string or a list of URL strings. A response body that is not a JSON object is not modelled either.
- Strings.ParseInt: weaker than Python's `int`. It raises `ValueError` on surrounding whitespace, `_` digit separators and non-ASCII digits, which `int` accepts. It also returns `Ok` for a decimal string longer than 4300 digits, where Python 3.11 and later raise `ValueError` by default (`sys.int_info.default_max_str_digits`). URLs from the API contain none of these.
- Normalizer.RelationUrls: the URLs it produces are not fed to any fetch. Only its failure on `None` is used, because the fetch outcomes are inputs.
