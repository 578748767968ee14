# Interaction loading for the Globotech analytics project, in Dafny

This project models the core of a small Python ETL repository. The repository loads a CSV of
user interactions with media content (`interacoes_globo.csv`) into a relational store. It
then registers a fixed set of SQL report queries and runs them.

The model covers:

- **Row validation** (`utils.py`, module `Validation`): `validar_dataframe` drops rows that
  lack a user id, content id or platform, and rows whose watch duration is negative or
  missing.
- **The MySQL loader** (`carga_dados.py`, module `MysqlLoader`): validate, rewrite
  `view_start` to `view`, upsert platforms, users and contents with
  `ON DUPLICATE KEY UPDATE` (content is last-write-wins), read back the name → id map,
  re-upsert the report registry, and append the six projected fact columns to `interacao`.
- **The SQLite loading script** (`carregar_dados.py`, module `SqliteLoader`): the same
  pipeline without validation, using `INSERT OR IGNORE` (content is first-write-wins).
  - Every `engine.begin()` block is one transaction.
  - The script can stop at a missing user id, an unresolvable platform or a missing
    content id. The failing block is rolled back; the blocks before it stay committed.
- **The storage** (modules `Tables` and `Storage`):
  - the tables `plataforma` (rows with an auto-increment counter; SQLite admits several
    NULL names), `usuario`, `conteudo`, `interacao` and `relatorios_sql`;
  - a `Database` class with one field per table and one method per kind of SQL statement
    the loaders issue.
  - Key uniqueness and foreign-key closure are invariants (`Tables.WellFormed`) that every
    load preserves.
- **The report queries** (`conexao_sqlalchemy.py`, modules `Aggregates` and `Reports`), each
  as a pure function of the tables. Aggregation follows SQL:
  - joins are inner joins;
  - `GROUP BY` keeps groups in order of first appearance;
  - `ORDER BY … DESC` is a stable sort;
  - `LIMIT 10` takes a prefix.

  The `consultas` dictionary itself is kept as data, with its eight names and query texts.
- **The report registry** (`inserir_relatorios.py`, module `ReportRegistry`): a keyed upsert
  loop. It stores each entry's description (`_` becomes a space, then `capitalize()`) and
  its query text after `strip()`.
- **The export helper** (`relatorios.py`, module `Export`): `.csv` suffix normalisation, the
  `data/` path join, the preview count and head, and the failing-query branch.

I/O is not modelled. Three things enter and leave as values instead:

- the CSV read enters as a sequence of `Records.Record`;
- the outcome of `read_sql` enters as a `Result`;
- the state of the database is `Tables.DbState`.

## Model

| member | source | states |
|---|---|---|
| Records.ReplaceViewStart | carga_dados.py:11 | every `view_start` kind becomes `view`, every other row is unchanged, and the length is kept |
| Records.Distinct | carga_dados.py:16 | `unique()`: the same set of values, each once, and no longer than the input |
| Records.FirstIndex | carga_dados.py:16 | the position of a value's first occurrence: it holds the value, and no earlier position does |
| Records.DistinctOrder | carga_dados.py:16 | `unique()` keeps the order of first appearance: of two values it lists, the one listed first occurs first in the input |
| Validation.DropMissing | utils.py:5 | every kept row has user, content and platform; each such row keeps its multiplicity, every other row is dropped; the result is a subsequence of the input |
| Validation.KeepNonNegativeDuration | utils.py:6 | every kept row has a present, non-negative duration (a missing duration compares false); the multiplicities are exact; the result is a subsequence of the input |
| Validation.Validate | utils.py:4-7 | every retained row passes both checks, every passing row is kept as often as it occurs, order is preserved, and the result is no longer than the input |
| Validation.ValidateKeepsRetained | utils.py:5-6 | input whose rows all pass both checks is returned unchanged |
| Validation.ValidateIdempotent | utils.py:4-7 | validating validated rows changes nothing |
| Validation.ValidateDecides | utils.py:5-6 | an input row survives exactly when it has the three fields and a non-negative duration |
| Tables.InsertPlatform | carga_dados.py:19-22 | one platform insert keeps the table well formed, adds exactly the name, keeps the old rows as a prefix, gives new rows ids at or above the counter, and leaves the table unchanged when the name exists |
| Tables.InsertPlatforms | carregar_dados.py:55-60 | the loop keeps the table well formed; afterwards a name is present iff it was before or is in the loop; old rows form a prefix; new ids are fresh; a loop over present names changes nothing |
| Tables.InsertPlatformsAddsNull | carregar_dados.py:55-60 | a missing platform (NULL name) always adds a row whose name is NULL |
| Tables.InsertPlatformsKeepsAndFreshens | carregar_dados.py:17-20 | an existing name keeps its id, and a new name gets an id no earlier row has |
| Tables.NameMap | carga_dados.py:34-35 | the read-back map holds exactly the non-NULL names of the table (the `None` key of a NULL-named row is listed under Left out) |
| Tables.NameMapUnique | carregar_dados.py:71-72 | with unique names, a named row's name maps to that row's id |
| Tables.NameMapInIds | carregar_dados.py:71-72 | with unique names, every id in the map is a stored platform id |
| Tables.NameMapResolves | carregar_dados.py:93-97 | in a well-formed table, joining by the mapped id finds exactly the row carrying the name |
| Tables.FindPlatform | conexao_sqlalchemy.py:84 | the join finds a row with the requested id, or there is no such id |
| Tables.FindPlatformFinds | conexao_sqlalchemy.py:84 | with increasing ids, the join by a row's id finds that row |
| Tables.UpsertContentsLastWins | carga_dados.py:39-50 | after the MySQL content loop, an id of the batch holds the name and platform of its last triple, and keeps its old `tipo_conteudo` (`Vídeo` if new); other rows are untouched; keys are old ∪ batch |
| Tables.UpsertContentsKeys | carga_dados.py:40-50 | the MySQL content loop drops no row and stores every id of its batch |
| Tables.UpsertContentsIdempotent | carga_dados.py:40-50 | re-running the MySQL content loop on its outcome changes nothing |
| Tables.InsertOrIgnoreContentsFirstWins | carregar_dados.py:75-90 | after the SQLite content loop, an existing row is never modified, and a new id holds its first triple with kind `Vídeo`; keys are old ∪ batch |
| Tables.InsertOrIgnoreContentsKeys | carregar_dados.py:76-90 | the SQLite content loop drops no row and stores every id of its batch |
| Tables.InsertOrIgnoreContentsIdempotent | carregar_dados.py:76-90 | re-running the SQLite content loop on its outcome changes nothing |
| Tables.UpsertContentsClosed | carga_dados.py:43-49 | content rows keep referring to existing platforms when every triple does |
| Tables.InsertOrIgnoreContentsClosed | carregar_dados.py:79-89 | the same closure for the INSERT OR IGNORE loop |
| Tables.ReferencesGrow | carregar_dados.py:48-50 | fact rows whose foreign keys resolve keep resolving in a state that only gained rows |
| Tables.Facts | carga_dados.py:69 | one fact row per CSV row, each the six-column projection with the mapped platform id |
| Tables.FactNamesPlatform | carregar_dados.py:97 | the platform id of a fact row belongs to the platform row named by its CSV row |
| Tables.FactDescribesRow | carregar_dados.py:97-103 | a fact row keeps its CSV row's ids, timestamp and duration, reads `view_start` as `view`, and its platform id names the CSV row's platform |
| Storage.Database.constructor | carregar_dados.py:10 | a database file without the loader tables: every table empty, and the invariant holds |
| Storage.Database.CreateTables | carregar_dados.py:14-52 | `CREATE TABLE IF NOT EXISTS`: the tables exist and no row or counter changes |
| Storage.Database.ExecutePlatformInsert | carregar_dados.py:58-60 | the platform table becomes the single-insert result |
| Storage.Database.InsertPlatformNames | carregar_dados.py:56-60 | the platform loop: the table becomes the fold of the single inserts in order |
| Storage.Database.ExecuteUserInsert | carga_dados.py:28-31 | the id is added to `usuario`, and an existing id changes nothing |
| Storage.Database.ExecuteContentUpsert | carga_dados.py:42-50 | the contents become the single ON DUPLICATE KEY UPDATE result |
| Storage.Database.ExecuteContentInsertOrIgnore | carregar_dados.py:80-90 | the contents become the single INSERT OR IGNORE result |
| Storage.Database.ExecuteReportUpsert | inserir_relatorios.py:9-19 | the row stored under the name becomes the new description and query; other names are untouched |
| Storage.Database.AppendInteractions | carga_dados.py:79 | `interacao` becomes the old rows followed by the new ones |
| MysqlLoader.Prepared | carga_dados.py:9-11 | the rows that reach the MySQL loader are as many as the validated rows, all pass validation, and none is `view_start` |
| MysqlLoader.UserIds | carga_dados.py:31 | `int(uid)` of each row, position by position |
| MysqlLoader.ContentTriples | carga_dados.py:39 | each row's content id, name and mapped platform id |
| MysqlLoader.LoadMap | carga_dados.py:34-36 | every prepared row's platform resolves in the read-back map |
| MysqlLoader.UpsertUsers | carga_dados.py:25-31 | `usuario` becomes old ∪ the ids of the loop |
| MysqlLoader.UpsertContentRows | carga_dados.py:38-50 | `conteudo` becomes the ON DUPLICATE KEY UPDATE fold of the triples |
| MysqlLoader.ReupsertReports | carga_dados.py:52-64 | upserting every row read from `relatorios_sql` with its own values leaves the table as it was |
| MysqlLoader.LoadInteractions | carga_dados.py:8-80 | `carregar_dados`: the database state becomes `Load` of the old state and the CSV, and stays valid |
| MysqlLoader.RunLoadStatements | carga_dados.py:15-79 | the statements in order produce `Load` of the old state |
| MysqlLoader.LoadContentsClosed | carga_dados.py:33-50 | after the load, every content row refers to a stored platform |
| MysqlLoader.TriplesNamePlatforms | carga_dados.py:34-39 | every triple resolved through the read-back map names a stored platform id |
| MysqlLoader.LoadFactsReference | carga_dados.py:67-79 | every appended fact row refers to a stored user, content and platform |
| MysqlLoader.LoadStoresUser | carga_dados.py:25-31 | each row's user id is stored after the user loop |
| MysqlLoader.LoadStoresContent | carga_dados.py:39-50 | each row's content id is stored after the content loop |
| MysqlLoader.LoadGrows | carga_dados.py:15-79 | the load removes no user, content or platform id, and `interacao` is the old rows followed by the new facts |
| MysqlLoader.LoadInteractionsReference | carga_dados.py:79 | every fact row, old or new, still resolves after the load |
| MysqlLoader.LoadWellFormed | carga_dados.py:15-79 | the load preserves unique keys and foreign-key closure |
| MysqlLoader.LoadFactMatchesRow | carga_dados.py:66-69 | the k-th appended fact row describes the k-th validated CSV row |
| MysqlLoader.LoadFactsDescribeRows | carga_dados.py:66-69 | the appended facts describe the validated rows, one by one |
| MysqlLoader.LoadAppendsFacts | carga_dados.py:67-79 | the old facts are a prefix, and the new suffix describes the validated rows in input order |
| MysqlLoader.LoadNamesPresent | carga_dados.py:16-22 | after the platform loop, every platform name of the validated data is present |
| MysqlLoader.LoadPlatformsIdempotent | carga_dados.py:16-36 | a second platform loop changes neither the table nor the read-back map |
| MysqlLoader.LoadTwice | carga_dados.py:16-79 | loading the same CSV twice leaves platforms, users, contents and reports as after one load; `interacao` holds the new facts twice |
| SqliteLoader.ContentRows | carregar_dados.py:75 | the `id_conteudo`, `nome_conteudo` and `plataforma` columns, row by row |
| SqliteLoader.UserBlockCharacterised | carregar_dados.py:63-68 | the user block commits iff no id is missing, then holds old ∪ present ids; otherwise it fails with `MissingUserId` |
| SqliteLoader.InsertOrIgnoreUsers | carregar_dados.py:63-68 | the user loop in its transaction: the committed table on success, the old table and the error on failure |
| SqliteLoader.Triples | carregar_dados.py:77-90 | the triple inserted for each resolvable content row |
| SqliteLoader.ContentBlockCharacterised | carregar_dados.py:75-90 | the content block commits iff every row resolves, then holds the INSERT OR IGNORE fold; a failure is the error of some row |
| SqliteLoader.InsertOrIgnoreContentRows | carregar_dados.py:76-90 | the content loop in its transaction: the committed contents on success, the old contents and the error on failure |
| SqliteLoader.BlocksResolve | carregar_dados.py:63-90 | when both blocks commit, every row's foreign keys resolve |
| SqliteLoader.RunScript | carregar_dados.py:5-109 | the script: the new state and error are `Run` of the old state, and the database stays valid with its tables created |
| SqliteLoader.RunStatements | carregar_dados.py:54-109 | the blocks in order give `Run` of the old state |
| SqliteLoader.RunContentStatements | carregar_dados.py:74-109 | after a committed user block, the content block and the append give `Run` |
| SqliteLoader.RunUserFailure | carregar_dados.py:64-68 | a failed user block leaves only the platform block committed |
| SqliteLoader.RunContentFailure | carregar_dados.py:76-90 | a failed content block leaves the platform and user blocks committed |
| SqliteLoader.RunCommit | carregar_dados.py:93-109 | when both blocks commit, the facts are appended and no error is reported |
| SqliteLoader.RunSuccess | carregar_dados.py:63-90 | a run without error had no missing user id, and every content row and fact row resolves |
| SqliteLoader.RunSuccessState | carregar_dados.py:54-109 | the tables after a successful run: the platform fold, old ∪ present users, the first-write-wins content fold, and the old facts followed by one fact per CSV row |
| SqliteLoader.RunFailureState | carregar_dados.py:56-90 | a failed run keeps the platform block, may keep the user block, and leaves contents, facts and reports unchanged |
| SqliteLoader.RunGrows | carregar_dados.py:54-109 | whatever the outcome, no user, content or platform id is removed |
| SqliteLoader.TriplesNameStoredPlatforms | carregar_dados.py:79-89 | every resolved triple names a stored platform id |
| SqliteLoader.RunContentsClosed | carregar_dados.py:79-89 | after any run, every content row refers to a stored platform |
| SqliteLoader.UserStored | carregar_dados.py:63-68 | with no missing id, each row's user is stored |
| SqliteLoader.ContentStored | carregar_dados.py:75-90 | with every content row resolving, each row's content is stored |
| SqliteLoader.RowsStored | carregar_dados.py:63-90 | both of the above, for every row |
| SqliteLoader.FactsReference | carregar_dados.py:97-109 | facts of stored users and contents, resolved through the map, refer to stored rows |
| SqliteLoader.RunNewFactsReference | carregar_dados.py:93-109 | the facts a successful run appends refer to stored rows |
| SqliteLoader.RunInteractionsReference | carregar_dados.py:109 | after any run, every fact row, old or new, refers to stored rows |
| SqliteLoader.RunWellFormed | carregar_dados.py:54-109 | whatever the outcome, keys stay unique and every stored reference resolves |
| SqliteLoader.ReplaceKeepsKeys | carregar_dados.py:8 | the rewrite keeps each row's ids and platform |
| SqliteLoader.MissingUserRow | carregar_dados.py:63-68 | the distinct user column holds a missing id iff some row lacks a user id |
| SqliteLoader.PlatformsInMap | carregar_dados.py:55-72 | after the platform block, every present platform name is in the read-back map |
| SqliteLoader.CompleteRowsResolve | carregar_dados.py:63-90 | with complete rows, no user id is missing and every content row resolves |
| SqliteLoader.RunSucceedsIff | carregar_dados.py:54-109 | the script reports no error exactly when every CSV row has user id, content id and platform |
| SqliteLoader.RunUserError | carregar_dados.py:64-68 | `MissingUserId` is reported iff the user block fails, and then only the platform block is committed |
| SqliteLoader.RunStopsAtUsers | carregar_dados.py:63-68 | the script stops with `MissingUserId` iff some row lacks a user id, and then only the platform block is committed |
| SqliteLoader.ContentErrorRow | carregar_dados.py:79-86 | a failing content block reports `UnknownPlatform` only for a row without a platform, and `MissingContentId` only for a row without a content id |
| SqliteLoader.RunContentError | carregar_dados.py:74-90 | a content-block failure means every user id was present and the user block committed; each error points at its missing cell |
| SqliteLoader.RunNullPlatformRow | carregar_dados.py:55-60 | a row without a platform makes the run fail, yet leaves a committed platform row with a NULL name |
| SqliteLoader.RunKeepsContents | carregar_dados.py:81-84 | INSERT OR IGNORE: stored contents are never modified, and a failed run adds none |
| SqliteLoader.RunNewContents | carregar_dados.py:80-90 | each content a successful run adds is a `Vídeo` carrying the name and platform of the first content row with its id |
| SqliteLoader.RunFactsDescribe | carregar_dados.py:96-103 | the facts of a resolvable CSV describe its rows, one by one |
| SqliteLoader.RunAppends | carregar_dados.py:108-109 | a successful run keeps the old facts and appends one per CSV row, in order, describing that row |
| SqliteLoader.CompletePlatformsSettled | carregar_dados.py:55-60 | with complete rows, a second platform block inserts nothing |
| SqliteLoader.RunTwice | carregar_dados.py:54-109 | a second run on the same CSV succeeds and changes nothing but `interacao`, which receives the same facts again |
| Aggregates.GroupsCoverKeys | conexao_sqlalchemy.py:77 | every joined row's key has a group |
| Aggregates.GroupsAreKeys | conexao_sqlalchemy.py:77 | every group's key comes from some row, and its total is the sum over the rows with that key |
| Aggregates.GroupPresent | conexao_sqlalchemy.py:77 | the key of every joined row has its group, and that group holds the sum over the rows with that key |
| Aggregates.GroupKeysDistinct | conexao_sqlalchemy.py:86 | no key has two groups |
| Aggregates.CountPositive | conexao_sqlalchemy.py:82 | a `COUNT(*)` over a key that occurs is at least one |
| Aggregates.GroupCountPositive | conexao_sqlalchemy.py:82-86 | every group of an inner join counts at least one row |
| Aggregates.GroupSumTotal | conexao_sqlalchemy.py:74-77 | the group totals add up to the total over all rows |
| Aggregates.SumWhereAppend | conexao_sqlalchemy.py:74 | a per-key SUM over two batches of rows is the sum of the two SUMs |
| Aggregates.SumOfOnes | conexao_sqlalchemy.py:115 | a count over all rows is the number of rows |
| Aggregates.SortDesc | conexao_sqlalchemy.py:78 | `ORDER BY … DESC` is a permutation of its input |
| Aggregates.SortDescSorted | conexao_sqlalchemy.py:78 | the sorted rows are non-increasing in the sort key |
| Aggregates.SortDescSum | conexao_sqlalchemy.py:78 | sorting keeps the total of the sort key |
| Aggregates.SortedRowsAreGroups | conexao_sqlalchemy.py:119 | the sorted rows are exactly the input rows |
| Aggregates.Limit | conexao_sqlalchemy.py:79 | `LIMIT n` is a prefix of at most n rows, and all rows when there are fewer |
| Aggregates.LimitNonIncreasing | conexao_sqlalchemy.py:87-88 | a prefix of sorted rows is sorted |
| Aggregates.LimitLargest | conexao_sqlalchemy.py:78-79 | `LIMIT n` after a descending sort keeps rows of the input, and no row it drops is larger than a row it keeps |
| Aggregates.OrderedGroups | conexao_sqlalchemy.py:118-119 | the ordered groups are non-increasing, a permutation of the groups, and have the same grand total |
| Aggregates.TopGroups | conexao_sqlalchemy.py:87-88 | exactly min(n, number of groups) groups, namely the first ones of the descending order; non-increasing; drawn from the groups (all of them when there are at most n); no group left out has a larger aggregate than a group kept |
| Reports.OfKinds | conexao_sqlalchemy.py:85 | `WHERE tipo_interacao IN (...)` keeps only facts of the listed kinds |
| Reports.OfKindsCount | conexao_sqlalchemy.py:85 | every fact of a listed kind passes the filter as often as it occurs, and no other fact does |
| Reports.JoinContents | conexao_sqlalchemy.py:108 | every joined row pairs a fact with the stored content of its id, and there are as many joined rows as facts whose content is stored |
| Reports.JoinContentsCount | conexao_sqlalchemy.py:108 | every fact whose content is stored is joined with that content, as often as the fact occurs |
| Reports.NamesWithIdCount | conexao_sqlalchemy.py:84 | every `plataforma` row carrying the id contributes its `nome` once |
| Reports.RowsWithUnique | conexao_sqlalchemy.py:84 | with increasing `plataforma` ids (part of the table invariant `PlatformsWellFormed` that both loads keep), a fact meets at most one `plataforma` row, and meets one named n exactly when that row is stored |
| Reports.JoinPlatforms | conexao_sqlalchemy.py:84 | every joined row comes from one of the facts |
| Reports.JoinPlatformsCount | conexao_sqlalchemy.py:84 | a fact occurring m times, whose id is carried by k `plataforma` rows named n, yields that joined pair exactly m·k times |
| Reports.JoinBoth | conexao_sqlalchemy.py:139-140 | every doubly joined row comes from one of the content-joined rows |
| Reports.JoinBothCount | conexao_sqlalchemy.py:139-140 | a content-joined fact occurring m times, whose platform id is carried by k `plataforma` rows named n, yields that row exactly m·k times |
| Reports.RankingConsumed | conexao_sqlalchemy.py:69-80 | `ranking_conteudos_consumidos`: min(10, number of content groups) rows, non-increasing in seconds watched, each one of the content groups; no group left out has a larger total than a row shown |
| Reports.PlatformEngagement | conexao_sqlalchemy.py:81-89 | `plataforma_maior_engajamento`: min(10, number of platform groups) rows, non-increasing in the count, each one of the platform groups; no group left out has a larger count than a row shown |
| Reports.EngagementRows | conexao_sqlalchemy.py:91-101 | one row per distinct platform name of the join, no name twice, each with its five conditional counts |
| Reports.EngagementRowOfFact | conexao_sqlalchemy.py:101 | every platform name of the join has its grouped row |
| Reports.EngagementRowFromJoin | conexao_sqlalchemy.py:101 | every grouped row is the name of some joined row |
| Reports.TotalEngagementByPlatform | conexao_sqlalchemy.py:90-104 | `total_de_engajamentos_por_plataforma`: the per-platform rows, as a permutation, non-increasing in the total |
| Reports.TotalEngagementRowOf | conexao_sqlalchemy.py:90-102 | every row of the report is the row built for its own platform name |
| Reports.MostCommented | conexao_sqlalchemy.py:105-113 | `conteudos_mais_comentados`: min(10, number of content groups) rows, non-increasing, each one of the groups; no group left out has a larger count than a row shown |
| Reports.InteractionsByContentKind | conexao_sqlalchemy.py:114-120 | `interacoes_por_tipo_conteudo`: non-increasing in the count |
| Reports.CommentsPerContent | conexao_sqlalchemy.py:128-135 | `comentarios_por_conteudo`: non-increasing in the count |
| Reports.MostWatchedPerPlatform | conexao_sqlalchemy.py:136-145 | `conteudos_mais_assistidos_por_plataforma`: min(10, number of groups) rows, non-increasing, each one of the (platform, content) groups; no group left out has a larger count than a row shown |
| Reports.RankingSum | conexao_sqlalchemy.py:74-77 | a content's SUM over the join equals the seconds watched on it in `interacao` |
| Reports.RankingRows | conexao_sqlalchemy.py:70-78 | each ranked row is a stored content with its own name and kind, and its total is the seconds watched on it |
| Reports.CommentSum | conexao_sqlalchemy.py:106-110 | a content's comment count over the join equals its comments in `interacao` |
| Reports.CommentGroups | conexao_sqlalchemy.py:106-110 | one group per commented stored content, carrying its name and its comment count, which is at least one; every such content has its group |
| Reports.MostCommentedRows | conexao_sqlalchemy.py:105-112 | each row is a stored content with its name and its number of comments, at least one |
| Reports.CommentsPerContentRows | conexao_sqlalchemy.py:128-134 | the rows are exactly the commented stored contents, each with its number of comments |
| Reports.OfKindsIgnores | conexao_sqlalchemy.py:85 | a fact of an unlisted kind does not pass the filter |
| Reports.EngagementIgnoresOtherKinds | conexao_sqlalchemy.py:85 | recording a view (or any kind other than like, share, comment) leaves `plataforma_maior_engajamento` unchanged |
| Reports.EngagementRowsPositive | conexao_sqlalchemy.py:82-86 | every engagement count is at least one |
| Reports.KindSplit | conexao_sqlalchemy.py:93-100 | over rows of the four kinds, the count equals likes + comments + shares + views |
| Reports.CountedJoinKinds | conexao_sqlalchemy.py:100 | every grouped row is a like, comment, share or view |
| Reports.EngagementRowSplits | conexao_sqlalchemy.py:93-97 | each per-platform row's total is the sum of its four counts, and at least one |
| Reports.TotalEngagementRows | conexao_sqlalchemy.py:91-100 | in the report, `total_engajamento` = `total_like` + `total_comment` + `total_share` + `total_view` ≥ 1 |
| Reports.TotalEngagementIgnoresOtherKinds | conexao_sqlalchemy.py:100 | a fact of any other kind leaves the report unchanged |
| Reports.JoinContentsAll | conexao_sqlalchemy.py:117 | when every fact's content is stored, the join keeps every fact |
| Reports.ContentKindTotals | conexao_sqlalchemy.py:114-119 | the counts add up to the number of facts whose content is stored, counted straight from `interacao` (all facts when every content is stored), and each count is at least one |
| Reports.KindFactsSum | conexao_sqlalchemy.py:115-118 | a kind's COUNT over the content join equals the interactions on stored contents of that kind, counted straight from `interacao` |
| Reports.ContentKindRows | conexao_sqlalchemy.py:114-120 | each row of `interacoes_por_tipo_conteudo` counts the interactions on stored contents of its kind, at least one, and every kind with such an interaction has its row with that count |
| Reports.MostWatchedRowsPositive | conexao_sqlalchemy.py:137-142 | every watch count is at least one |
| Reports.JoinedKindSum | conexao_sqlalchemy.py:84-86 | per platform name, the count (or a `CASE` indicator of some kinds) over the filtered platform join equals the number of joined `plataforma` rows of the facts of those kinds, counted straight from the tables |
| Reports.PlatformEngagementRows | conexao_sqlalchemy.py:81-89 | each platform shown counts the likes, shares and comments joined to its name, at least one, and a platform left out has no larger count than any platform shown |
| Reports.EngagementRowForCounts | conexao_sqlalchemy.py:93-97 | the row built for a platform name holds the joined facts of the four kinds and of each kind, counted straight from the tables |
| Reports.EngagementRowCounts | conexao_sqlalchemy.py:90-101 | every row of `total_de_engajamentos_por_plataforma` holds, for its platform name, the joined likes, comments, shares and views, and their total, counted straight from the tables |
| Reports.EngagementRowsCover | conexao_sqlalchemy.py:98-101 | every platform name that a like, comment, share or view is joined to has a row |
| Reports.WatchSum | conexao_sqlalchemy.py:137-142 | the count of a (platform, content) name pair over the double join equals the views on stored contents of that name joined to `plataforma` rows of that name, counted straight from the tables |
| Reports.MostWatchedRows | conexao_sqlalchemy.py:136-145 | each pair shown counts its joined views, at least one, and a pair left out has no larger count than any pair shown |
| Reports.RankingGroupOf | conexao_sqlalchemy.py:74-77 | every interaction on a stored content puts that content's group, with its seconds watched, among the groups the ranking chooses from |
| Reports.RankingTop | conexao_sqlalchemy.py:69-80 | a content with an interaction that the ranking leaves out was watched no longer than any content shown |
| Reports.RankingLeftOut | conexao_sqlalchemy.py:76-79 | one content with an interaction that no row shown refers to was watched no longer than any content shown |
| Reports.MostCommentedTop | conexao_sqlalchemy.py:105-113 | a commented content the report leaves out has no more comments than any content shown |
| ReportRegistry.TrimLeft | inserir_relatorios.py:18 | drops exactly a leading run of whitespace |
| ReportRegistry.TrimRight | inserir_relatorios.py:18 | drops exactly a trailing run of whitespace |
| ReportRegistry.Strip | inserir_relatorios.py:18 | `strip()`: no longer than the text, and neither end is whitespace |
| ReportRegistry.StripSlice | inserir_relatorios.py:18 | the stripped text is a slice of the text, with only whitespace cut from either side |
| ReportRegistry.StripIdempotent | inserir_relatorios.py:18 | stripping twice is stripping once |
| ReportRegistry.StripBlank | inserir_relatorios.py:18 | a text of whitespace only strips to the empty text |
| ReportRegistry.ReplaceUnderscores | inserir_relatorios.py:17 | `replace('_', ' ')`, position by position |
| ReportRegistry.Capitalize | inserir_relatorios.py:17 | `capitalize()`: same length and letters up to case; the first character is not lower case and no later one is upper case |
| ReportRegistry.CapitalizeIdempotent | inserir_relatorios.py:17 | capitalising twice is capitalising once |
| ReportRegistry.Describe | inserir_relatorios.py:17 | the description has the name's length, no `_`, a space wherever the name had `_`, and every other character's letter up to case |
| ReportRegistry.Registered | inserir_relatorios.py:8-18 | each dictionary item becomes a row under its name, with the derived description and the stripped query |
| ReportRegistry.UpsertEntries | inserir_relatorios.py:7-19 | the loop in its transaction: the table becomes the upsert fold of the rows |
| ReportRegistry.InsertReports | inserir_relatorios.py:6-19 | `inserir_relatorios`: the table becomes the upsert fold of the dictionary's rows |
| ReportRegistry.RegistryKeys | inserir_relatorios.py:8-19 | afterwards the names are the old names plus the dictionary's names |
| ReportRegistry.RegistryValues | inserir_relatorios.py:12-14 | with distinct names, each name holds its own row, whether it was new or not |
| ReportRegistry.RegistryOthers | inserir_relatorios.py:9-14 | rows with other names are untouched |
| ReportRegistry.UpsertPresent | inserir_relatorios.py:12-14 | rows already stored with the same values change nothing |
| ReportRegistry.RegistryIdempotent | inserir_relatorios.py:9-19 | running the upserts twice leaves the table as after once |
| ReportRegistry.RegistryCount | inserir_relatorios.py:9-19 | the row count grows by exactly the names that were not present |
| ReportRegistry.ReportNamesUnique | conexao_sqlalchemy.py:68-146 | the eight report names are pairwise distinct |
| ReportRegistry.ConsultasUnique | conexao_sqlalchemy.py:68-146 | the dictionary has no name twice |
| ReportRegistry.RegistryResult | inserir_relatorios.py:8-19 | with distinct names: each item is stored with its description and stripped query, other rows are untouched, and a second run changes nothing |
| ReportRegistry.InsertReportsResult | inserir_relatorios.py:6-19 | the same for the actual dictionary: all eight reports registered, other rows untouched, and re-running is a no-op |
| Export.CsvName | relatorios.py:31-32 | the file name ends with `.csv`; a name already ending with it is unchanged, and otherwise exactly `.csv` is appended |
| Export.CsvNameIdempotent | relatorios.py:31-32 | normalising twice is normalising once |
| Export.JoinPath | relatorios.py:35 | POSIX `os.path.join`: an absolute part replaces the first; otherwise they are concatenated when the first is empty or ends with `/`, and else joined by one `/`; the result ends with the second part |
| Export.ExportPath | relatorios.py:30-35 | there is an export path iff a non-empty name is given, and it ends with the normalised name and `.csv` |
| Export.ExportPathInData | relatorios.py:35 | a relative name is exported to `data/` + the normalised name |
| Export.PreviewCount | relatorios.py:27 | `min(exibir_linhas, len(df))`: at most each bound, and equal to one of them |
| Export.Head | relatorios.py:28 | `head(n)` is a prefix: of `min(n, len)` rows for n ≥ 0, all but the last −n rows for n < 0 |
| Export.RunReport | relatorios.py:18-45 | a failing query gives an empty table and no export; otherwise the table is returned with its export path (also when empty), and a non-empty table previews a prefix of the announced size |
| Export.DefaultPreview | relatorios.py:5 | with the default of 10, the preview never shows more than ten rows |

## Left out

- **Connections:** creating engines and sessions, reading environment variables, and
  `dotenv` (conexao_sqlalchemy.py:16-32, inserir_relatorios.py:22-31). These are I/O; the
  database is a value or a `Database` object instead.
- **Arity defect:** `criar_engine_mysql()` is called with no arguments at carga_dados.py:13
  and main.py:25, although it takes a user and a password. As written, `carregar_dados`
  raises a `TypeError` before touching the database. The model describes the load the
  rest of the function performs, as if the call succeeded.
- **File and query I/O:** `read_csv`, `read_sql`, `to_sql`, `to_csv` and `os.makedirs`.
  The CSV comes in as a sequence of records; a query outcome comes in as a `Result`; the
  table goes out as a value.
- **Timestamps:** `pd.to_datetime` parsing is left out; timestamps are opaque text.
- **Always-present columns:** `tipo_interacao` and the timestamp are taken to be present in
  every row. Only the id, name, platform and duration cells can be missing.
- **Diagnostics:** every `print` (for example carga_dados.py:71-76 and relatorios.py:21-28, and the
  success messages).
- `carregar_csv_para_mysql` (conexao_sqlalchemy.py:39-42) is a wrapper with no logic.
- The `__main__` blocks and the interactive menu of main.py are user interface.
- **No SQL engine:**
  - Key uniqueness and foreign-key closure are invariants proved of the loads, not checks
    an engine performs.
  - SQLite does not enforce foreign keys by default; this changes nothing here, because
    the model proves the references resolve.
- `tempo_medio_por_plataforma` (conexao_sqlalchemy.py:121-127) is not modelled: `AVG`
  yields a decimal, and `SEC_TO_TIME` formats a time.
- `SEC_TO_TIME` on `total_consumo` (conexao_sqlalchemy.py:74) is left out as well;
  ranking is by the integer `SUM` alone.
- Reports.SecondsOf: a NULL `watch_duration_seconds` adds 0 to the sum. A group whose
  durations are all NULL therefore totals 0 where SQL yields NULL; that would only change
  where such a group sorts.
- Aggregates.SortDesc: ties in `ORDER BY … DESC` keep the order of first appearance. SQL
  leaves their order unspecified, so this is one of the orders the database may return.
- Reports.MostWatchedPerPlatform: `COUNT(i.id_interacao)` is counted as `COUNT(*)`, since
  the primary key is never NULL. `id_interacao` itself is not stored.
- Tables.InsertPlatform: the auto-increment counter advances only when a row is inserted.
  InnoDB may also burn values on `ON DUPLICATE KEY UPDATE`, so real ids can have gaps.
- ReportRegistry.Capitalize: case mapping covers ASCII letters only. Python's
  `capitalize()` maps every Unicode letter, and its title-case rules for the first
  character are not modelled.
- ReportRegistry.IsSpace: the whitespace set is the fixed list of code points Python's
  `str.isspace` accepts. It is not derived from the Unicode database.
- Tables.NameMap: the `None` → id entry that a NULL-named row gives the read-back
  dictionary is omitted, because no lookup key the loaders use (a CSV name or NaN) can
  equal `None`. A name lookup therefore gets the same answer as in the source.
- Export.JoinPath: only POSIX path rules are modelled; there are no drive letters or
  backslashes.
- **Output frames:** the DataFrame `relatorios.py` returns is modelled as the row
  sequence. Its columns are not modelled.

Two behaviours of the SQLite script are worth noting; the model follows the code in both:

- The SQLite script applies no validation at all.
- A missing platform in that script is inserted as a NULL-named platform row. The later
  lookup `mapa_plataformas[row["plataforma"]]` then fails (`UnknownPlatform`): the NULL
  row reads back under the key `None`, and the CSV's missing cell is NaN, which is not
  `None`.
