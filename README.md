# wp_post_fetcher in Dafny

A model of the core of `wp_post_fetcher`, a batch tool that pages through a
WordPress site's REST API for posts dated on or after a cutoff and upserts
them into a SQLite `posts` table. Three pieces are modelled:

- **Settings validation** (`Config`, config.dfy): `AppConfig.from_file` from the
  point where the INI file has been parsed into sections. Defaults
  (`per_page` 100, path `data/wp_posts.db`), removal of every trailing `/`
  from `base_url`, and the rejection rules in their fixed order: missing
  section, unparsable or non-positive `per_page`, empty `base_url`, empty `date`.
- **The REST client** (`WordPress`, wordpress_client.dfy): the server is a
  function from a `Request` to a `Response` (a page of posts, a 400 with a
  JSON body, a 400 with a non-JSON body, or another error status). The page
  loop of `_fetch_paginated` is a `while` loop over pages 1, 2, 3, ...,
  specified by the function `Crawl`. `fetch_posts` joins the pages and
  projects each post through `_extract_fields`, whose nested lookup
  `_get_nested` is a loop proved equal to the function `Lookup`.
- **The store** (`PostStore`, database.dfy): a `Database` class whose `rows`
  field is the committed `posts` table (`map<int, Row>`). `insert_posts` stages
  every record in order on a copy of the table and commits the copy only if
  every record binds and satisfies the schema (`id INTEGER PRIMARY KEY`,
  `date TEXT NOT NULL`), so the batch applies entirely or not at all.

Shared modules: `Wrappers` (Option, Result, Outcome) and `Json` (decoded JSON
values and `dict.get`).

Inputs that the program obtains from the outside are parameters: the HTTP
server (`server: Request -> Response`), `_format_after`
(`formatAfter: string -> Option<string>`), the text-to-integer parse of
`getint` (`parseInt: string -> Option<int>`) and the `posts` table already in
the database file (`existing: Option<Table>`). Because the source loops
forever against a server that never ends the run, `FetchPaginated` and
`FetchPosts` take a ghost page number `last` whose response is known to end
it; `CrawlBoundIrrelevant` shows the result does not depend on which such
page is chosen.

## Model

| member | source | states |
|---|---|---|
| `Config.StripTrailingSlashes` | src/wp_post_fetcher/config.py:56 | `rstrip("/")`: the result is a prefix of the input, does not end in `/`, and everything removed is `/` |
| `Config.StripTrailingSlashesUnique` | src/wp_post_fetcher/config.py:56 | those three properties determine the stripped string |
| `Config.StripTrailingSlashesExamples` | src/wp_post_fetcher/config.py:56 | `"http://x//"` becomes `"http://x"`, and `"///"` becomes empty |
| `Config.PerPageSetting` | src/wp_post_fetcher/config.py:51 | per_page is 100 when the option is absent, the parsed integer when it parses, and `PerPageNotInteger` otherwise |
| `Config.FromSections` | src/wp_post_fetcher/config.py:45-72 | each error is returned exactly when all earlier checks passed and its own failed (sections, then per_page parse, then per_page > 0, then base_url, then date); on success per_page > 0, base_url is the raw option with every trailing `/` stripped and is non-empty without a trailing `/`, date is non-empty, username and password are copied (absent stays absent), per_page defaults to 100 and path to `data/wp_posts.db` |
| `WordPress.Truthy` | src/wp_post_fetcher/wordpress_client.py:22 | an optional string is truthy exactly when it is present and not the empty string |
| `WordPress.NewClient` | src/wp_post_fetcher/wordpress_client.py:19-23 | basic auth is attached exactly when both username and application password are non-empty, with those two values |
| `WordPress.RequestAt` | src/wp_post_fetcher/wordpress_client.py:38-58 | every request carries the page number, `per_page = min(configured, 100)`: at most 100, at most the setting, and equal to one of them (positive when the setting is), the cutoff, ascending date order, the nine-field projection, the session's auth and the posts endpoint URL |
| `WordPress.Classify` | src/wp_post_fetcher/wordpress_client.py:60-75 | a response ends pagination normally exactly when it is an empty page or a 400 with code `rest_post_invalid_page_number`; it continues exactly on a non-empty page; every other response aborts: another error status with `HTTPError` of its own status, a 400 with a non-JSON body or another code with `HTTPError(400)`, and a 400 whose JSON body is not an object on `error.get` |
| `WordPress.FirstEnd` | src/wp_post_fetcher/wordpress_client.py:36-75 | the first page whose response ends the loop; every page before it is non-empty |
| `WordPress.Crawl` | src/wp_post_fetcher/wordpress_client.py:36-75 | the batches the generator yields from a page on, or its error; a successful run holds only non-empty batches, at most one per page up to the bound (its full characterization is `CrawlOutcome`) |
| `WordPress.CrawlOutcome` | src/wp_post_fetcher/wordpress_client.py:33-75 | the run succeeds exactly when its first ending response is an end of data, and then returns the pages before it, in page order, each non-empty; otherwise it fails with that response's error |
| `WordPress.CrawlBoundIrrelevant` | src/wp_post_fetcher/wordpress_client.py:36-75 | the result does not depend on which ending page bounds the run |
| `WordPress.CrawlDependsOnSteps` | src/wp_post_fetcher/wordpress_client.py:60-72 | two servers whose responses are handled alike give the same run |
| `WordPress.EmptyPageSameAsInvalidPage` | src/wp_post_fetcher/wordpress_client.py:60-72 | an empty page and an invalid-page-number 400 at the same position give identical results |
| `WordPress.FetchPaginated` | src/wp_post_fetcher/wordpress_client.py:33-75 | the loop returns `Crawl`'s result; it requests pages 1, 2, 3, ... in order, each built by `RequestAt`, every one but the last non-empty, the last ending the loop |
| `WordPress.Lookup` | src/wp_post_fetcher/wordpress_client.py:96-103 | with no keys the lookup is `data` itself; it is `None` when `data` is not an object or lacks the first key (longer paths: `LookupSnoc`, `LookupAppend`, `LookupMissing`) |
| `WordPress.LookupSnoc` | src/wp_post_fetcher/wordpress_client.py:96-103 | extending a path by one key is one more safe step from where the shorter path ended: the value under that key when the shorter path ends at an object holding it, `None` otherwise |
| `WordPress.LookupAppend` | src/wp_post_fetcher/wordpress_client.py:96-103 | looking up a path in two parts is looking up the second from the end of the first |
| `WordPress.LookupMissing` | src/wp_post_fetcher/wordpress_client.py:99-101 | once an intermediate value is not an object or lacks the next key, the result is `None` |
| `WordPress.GetNested` | src/wp_post_fetcher/wordpress_client.py:96-103 | the loop returns `Lookup(data, keys)`, and `data` itself for an empty path |
| `WordPress.LookupTwoKeys` | src/wp_post_fetcher/wordpress_client.py:91-93 | a `(key, "rendered")` lookup on a post is its nested value or `None` |
| `WordPress.ExtractFields` | src/wp_post_fetcher/wordpress_client.py:82-94 | the record has exactly the nine keys; `id` to `link` are `post.get`, `title`, `content`, `excerpt` the nested `rendered` value or `None` |
| `WordPress.Concat` | src/wp_post_fetcher/wordpress_client.py:28-30 | the joined list is as long as the sum of the page lengths |
| `WordPress.ConcatAt` | src/wp_post_fetcher/wordpress_client.py:28-30 | post `j` of page `i` appears after all posts of earlier pages: request order is kept |
| `WordPress.ProjectAll` | src/wp_post_fetcher/wordpress_client.py:31 | one projected record per post, record `i` being `ExtractFields` of post `i` |
| `WordPress.FetchPosts` | src/wp_post_fetcher/wordpress_client.py:25-31 | a bad cutoff date fails; a failed run returns its error and no posts; a successful run returns one record per post, as many as the pages hold together, record `i` being the projection of post `i` of the joined pages |
| `PostStore.ToRecord` | src/wp_post_fetcher/database.py:10-20 | a record is the nine values of `POST_FIELDS`, in order, `None` for missing keys |
| `PostStore.ToRecordIgnoresOtherKeys` | src/wp_post_fetcher/database.py:52-55 | keys outside `POST_FIELDS` do not affect the record |
| `PostStore.Records` | src/wp_post_fetcher/database.py:52-55 | one record per post, record `i` being `ToRecord` of post `i` |
| `PostStore.Bind` | src/wp_post_fetcher/database.py:57-73 | `None` binds to NULL and only `None` does; arrays, objects and integers outside 64 bits fail; strings bind to text unchanged, in-range integers to that integer, booleans to 1 or 0 |
| `PostStore.BindFrom` | src/wp_post_fetcher/database.py:57-73 | binding succeeds exactly when every parameter binds, giving each parameter's value in column order |
| `PostStore.PrepareRow` | src/wp_post_fetcher/database.py:37-72 | a record becomes a row only when its id binds to an integer and its date is not NULL; each column is the bound value of its parameter; a record is accepted exactly when every parameter binds, the id binds to an integer and the date is not NULL, so a NULL date or a NULL or text id is rejected |
| `PostStore.PrepareAll` | src/wp_post_fetcher/database.py:52-73 | the batch prepares exactly when every record does, giving one row per record in order |
| `PostStore.PrepareAllFirstError` | src/wp_post_fetcher/database.py:56-73 | the first record that fails determines the batch's error |
| `PostStore.Ids` | src/wp_post_fetcher/database.py:57-73 | the set of ids a batch writes: every row's id and nothing else |
| `PostStore.Upsert` | src/wp_post_fetcher/database.py:57-73 | the table after executing the upsert for each row in order; its ids are the old ids plus the batch's (values: `UpsertAt`, `UpsertIdempotent`, `UpsertAppend`) |
| `PostStore.LastIndex` | src/wp_post_fetcher/database.py:62-70 | the position of the last row in the batch with a given id, or -1 when none has it |
| `PostStore.UpsertAt` | src/wp_post_fetcher/database.py:56-73 | after the upsert, an id of the batch holds its last row (last write wins), an id outside it keeps its old row or stays absent |
| `PostStore.UpsertIdempotent` | src/wp_post_fetcher/database.py:56-73 | applying the same rows twice equals applying them once |
| `PostStore.UpsertAppend` | src/wp_post_fetcher/database.py:57-73 | rows apply in order: two batches in turn equal their concatenation |
| `PostStore.MergeById` | src/wp_post_fetcher/database.py:62-70 | a second write of an id replaces the first: one row for that id, with every non-key column from the second |
| `PostStore.UpsertWellFormed` | src/wp_post_fetcher/database.py:39 | the NOT NULL rule on `date` holds of the table after upserting prepared rows |
| `PostStore.ApplyBatch` | src/wp_post_fetcher/database.py:51-73 | one transaction fails exactly when some record is rejected; on success its ids are the old ids plus the batch's (values: `BatchResult`, `InsertIdempotent`) |
| `PostStore.InsertIdempotent` | src/wp_post_fetcher/database.py:51-73 | inserting the same posts twice leaves the table as inserting them once |
| `PostStore.BatchResult` | src/wp_post_fetcher/database.py:51-73 | after a successful batch, each id of the batch holds the row prepared from its last post, and all other rows are unchanged |
| `PostStore.MissingDateRejectsBatch` | src/wp_post_fetcher/database.py:39-73 | one post without a date fails the whole batch |
| `PostStore.Database.constructor` | src/wp_post_fetcher/database.py:26-31 | opening keeps the rows already in the file, or starts an empty table, and the connection is open |
| `PostStore.Database.EnsureSchema` | src/wp_post_fetcher/database.py:33-49 | never alters rows, so calling it again changes nothing; fails only on a closed connection |
| `PostStore.Database.InsertPosts` | src/wp_post_fetcher/database.py:51-73 | on an open connection the committed table becomes `ApplyBatch` of the old table, or stays as it was when any record fails (atomicity); an empty batch changes nothing; a closed connection fails without change |
| `PostStore.Database.Close` | src/wp_post_fetcher/database.py:75-76 | the connection is closed and the committed rows stay |
| `PostStore.StorePosts` | src/wp_post_fetcher/database.py:78-82 | inside the `with` block the connection is closed on every path, success or failure, and the table is the batch's result or the original |

## Left out

- HTTP transport (`requests.Session`, the 30-second timeout, query encoding, JSON decoding): the server is a parameter from request to response.
- `_format_after` (`datetime.fromisoformat`/`strftime`): a parameter that may fail, giving `DateFormatInvalid`.
- Logging of fetched pages.
- Reading the configuration file: the missing-file error and the INI parsing; the model starts from parsed sections, and `getint`'s text parsing is the parameter `parseInt`. Section name case rules and the `DEFAULT` section are not modelled.
- configparser's `%` interpolation: a `%` in `base_url`, `date`, `username`, `application_password` or `path` makes `.get` raise `InterpolationSyntaxError`; the model returns the option text unchanged.
- `Path()` normalisation of the database path (repeated or trailing separators): the path is kept as the option's text.
- `Response.Page` carries JSON objects only: a page whose items are not objects (which makes `_extract_fields` raise) or whose body is not a list is not modelled.
- `Response.ErrorStatus` stands for a 4xx/5xx status other than 400; its status is not constrained, so the model would also abort on a 1xx-3xx status carried in it, which the source does not raise on.
- Floating-point JSON numbers and floats bound to SQLite are not modelled.
- sqlite3 connection handling, `mkdir` of the parent directory and `row_factory`.
- `PostStore.PrepareRow`: a NULL id is rejected, where SQLite would assign a fresh rowid; a text id that looks like an integer is rejected, where SQLite's type affinity would convert it. Text affinity conversion of integers in the TEXT columns is not modelled either.
- The order in which SQLite reports a failing id and a NULL date in the same record is taken as id first; it only changes the reported error, never the table.
- `fetch_posts.py` wiring: its one rule, that the store is never opened when no posts come back, is not modelled.
