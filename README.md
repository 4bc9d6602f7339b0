# fast_api services in Dafny

A model of two small HTTP services, each a handful of handlers over one SQLite table:

- the **to-do service** (`todo_app/main.py`, module `TodoApp`): the `tasks` table is a
  map from id to `Task(title, completed)` plus the AUTOINCREMENT sequence (the largest id
  ever handed out). The handlers `create_task`, `get_all_tasks`, `get_task`, `update_task`
  and `delete_task` are the methods of class `TodoServer`;
- the **URL shortener** (`shorten_url/main.py`, module `ShortenUrl`): the `urls` table is a
  map from short id to `Link(fullUrl, clicks)`. `generate_short_id`, `shorten_url`,
  `redirected_to_url` and `get_stats` are the methods of class `UrlServer`.

Responses are values of `Responses.Response`: `Ok(payload)` or `NotFound(detail)`, the
404 whose JSON body is `{"detail": detail}`, with the exact detail strings of the source.

Each handler has a pure specification function over the table value (`Create`, `Get`,
`Update`, `Delete`; `Shorten`, `Resolve`, `Stats`) whose `ensures` say which row changes,
how, and what is answered. Each class method does the source's read-check-write on its
fields and is proved to agree with that function. On top of these, lemmas over whole runs
of requests (`Run`) state what holds across calls: ids are never reused, rows of the URL
table are never removed, their target never changes and their counter only grows by one
per redirect.

The request body's optional `completed` field defaults to false (`TaskBody`).

## Model

| member | source | states |
|---|---|---|
| TodoApp.TaskBody | todo_app/main.py:8-10 | the title is kept; an omitted `completed` is false, a given one is kept |
| TodoApp.Create | todo_app/main.py:34-40 | the new id was not in the table, is above every id ever assigned and becomes the sequence; the table gains exactly that row with the given fields, other rows unchanged; the answer echoes title and completed |
| TodoApp.Get | todo_app/main.py:50-57 | Ok exactly when the id has a row, and then that row with its id; otherwise NotFound "Task not found" |
| TodoApp.Update | todo_app/main.py:60-71 | absent id: NotFound "Task for update not found" and the table unchanged; present id: both fields of that row replaced, key set, sequence and other rows unchanged, answer echoes the input with the given id |
| TodoApp.Delete | todo_app/main.py:74-85 | absent id: NotFound "Task for delete not found" and the table unchanged; present id: exactly that key removed, other rows and the sequence unchanged, answer `{status: "deleted", id}` |
| TodoApp.GetAfterUpdate | todo_app/main.py:60-71 | a get after a successful update returns the new title and completed |
| TodoApp.GetAfterDelete | todo_app/main.py:74-85 | a get after a successful delete is NotFound "Task not found" |
| TodoApp.CreatedIdsBounded | todo_app/main.py:23 | over any run of requests every id handed out lies above the sequence before the run and at or below the sequence after it; the sequence never goes down |
| TodoApp.CreatedIdsIncrease | todo_app/main.py:23 | over any run of requests, deletes included, the ids handed out rise strictly, so none is handed out twice |
| TodoApp.CreatedIdsAreFresh | todo_app/main.py:34-39 | no id handed out during a run names a row that existed before it |
| TodoApp.TodoServer.constructor | todo_app/main.py:20-29 | a freshly created table: no rows, sequence 0 |
| TodoApp.TodoServer.CreateTask | todo_app/main.py:33-40 | new rows, sequence and answer are those of `Create`; the id invariant is kept |
| TodoApp.TodoServer.GetAllTasks | todo_app/main.py:44-47 | every record returned is a row of the table, every row is returned, and ids rise strictly (each row once, in id order); nothing is changed |
| TodoApp.TodoServer.GetTask | todo_app/main.py:50-57 | the answer is that of `Get`; nothing is changed |
| TodoApp.TodoServer.UpdateTask | todo_app/main.py:60-71 | new rows and answer are those of `Update`; the id invariant is kept |
| TodoApp.TodoServer.DeleteTask | todo_app/main.py:74-85 | new rows and answer are those of `Delete`; the id invariant is kept |
| ShortenUrl.AlphabetIsAsciiAlnum | shorten_url/main.py:29 | the generator's alphabet has 62 symbols and a character is one of them exactly when it is an ASCII letter or digit |
| ShortenUrl.Shorten | shorten_url/main.py:41-44 | the table gains exactly one row, `(url, 0)` under the fresh id; other rows unchanged |
| ShortenUrl.ShortUrl | shorten_url/main.py:46 | the answer is `http://127.0.0.1:8000/` followed by exactly the short id |
| ShortenUrl.Resolve | shorten_url/main.py:50-61 | absent id: NotFound "Short URL not found" and the table unchanged; present id: redirect to the stored target, that row's clicks up by exactly 1, its target, the key set and other rows unchanged |
| ShortenUrl.Stats | shorten_url/main.py:64-70 | Ok exactly when the id has a row, and then its stored target and clicks; otherwise NotFound "Short URL not found" |
| ShortenUrl.ShortenThenRedirect | shorten_url/main.py:40-61 | shortening a URL and resolving the new id once redirects to exactly that URL and leaves clicks at 1, which the stats report |
| ShortenUrl.UnknownIdNotFound | shorten_url/main.py:51-55 | for an id without a row, redirect and stats are both NotFound and nothing changes |
| ShortenUrl.RowsPersist | shorten_url/main.py:43-59 | over any run of requests a row is never removed, its target never changes and its clicks never decrease |
| ShortenUrl.ClicksCountRedirects | shorten_url/main.py:57-59 | over any run of requests a row's clicks grow by exactly the number of redirects to its id |
| ShortenUrl.UrlServer.constructor | shorten_url/main.py:16-25 | a freshly created table with no rows |
| ShortenUrl.UrlServer.GenerateShortId | shorten_url/main.py:28-35 | the id returned has exactly `length` symbols of the alphabet and no row; every earlier candidate drawn had a row; the table is not changed |
| ShortenUrl.UrlServer.ShortenUrl | shorten_url/main.py:38-46 | the answer is the base URL plus a 6-symbol alphabet id that had no row, and the table is exactly `Shorten` of the old one under that id |
| ShortenUrl.UrlServer.RedirectedToUrl | shorten_url/main.py:49-61 | new table and answer are those of `Resolve` |
| ShortenUrl.UrlServer.GetStats | shorten_url/main.py:63-70 | the answer is that of `Stats`; nothing is changed |

## Left out

- FastAPI routing, decorators, `response_model` and `RedirectResponse`/`HTTPException` objects: a redirect is `Ok(fullUrl)`, an `HTTPException(404)` is `NotFound(detail)`.
- Pydantic parsing and validation of `Task` and `URLItem` beyond the default of `completed`; a malformed body never reaches a handler.
- SQLite itself: the connection, cursor, commits, SQL text, `row_factory` and the BOOLEAN-as-integer storage of `completed`. Each table is a map.
- The persisted database file: both constructors start from an empty table, as on a first start; a restart with existing rows is not modelled.
- `read_root` in both files: a constant message.
- Concurrency: `check_same_thread=False` lets several threads share one connection; the check-then-insert of `shorten_url` and the read-increment-write of `redirected_to_url` are modelled as atomic sequential steps.
- 64-bit limits of SQLite INTEGER: ids and click counters are unbounded.
- ShortenUrl.UrlServer.GenerateShortId: the source redraws without bound; the model makes at most `attempts` draws and answers None when all of them had a row (the source would still be drawing). The distribution of `random.choice` is not modelled; each symbol is an arbitrary choice from the alphabet.
- ShortenUrl.UrlServer.ShortenUrl: inherits the `attempts` bound; on None the table is unchanged.
- TodoApp.TodoServer.GetAllTasks: SQL gives no order without ORDER BY; the model scans ids upwards, the rowid order SQLite uses for this table.
- In the run lemmas of `ShortenUrl`, a shorten whose id already has a row leaves the table unchanged, as the PRIMARY KEY would refuse the insert; the generator never offers such an id.
