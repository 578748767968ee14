/** carregar_dados.py: the SQLite loading script. It rewrites `view_start`,
    creates the schema if needed, inserts platforms, users and contents with
    `INSERT OR IGNORE`, resolves platform names through the read-back map and
    appends one fact row per CSV row. There is no validation step: a missing
    id or platform makes a block fail, and since every `engine.begin()` block
    is one transaction, the failing block is rolled back while the blocks
    before it stay committed. */
module SqliteLoader {
  import opened Records
  import opened Tables
  import opened Validation
  import opened Storage

  /** Why the script stops: `int(NaN)` on a user id (line 68), the map lookup
      of line 79 on a platform that is not in the map, or `int(NaN)` on a
      content id (line 86). */
  datatype LoadError = MissingUserId | UnknownPlatform | MissingContentId

  /** The database after the script, and the error it stopped with, if any. */
  datatype Outcome = Outcome(state: DbState, error: Option<LoadError>)

  /** A row of `df[["id_conteudo", "nome_conteudo", "plataforma"]]`. */
  datatype ContentRow = ContentRow(id: Option<int>, name: Option<string>, platform: Option<string>)

  function ContentRows(rows: seq<Record>): (c: seq<ContentRow>)
    ensures |c| == |rows|
    ensures forall i :: 0 <= i < |rows| ==>
      c[i] == ContentRow(rows[i].content, rows[i].contentName, rows[i].platform)
  {
    seq(|rows|, i requires 0 <= i < |rows| => ContentRow(rows[i].content, rows[i].contentName, rows[i].platform))
  }

  // ------------------------------------------------------------------ usuario

  /** The user block: `INSERT OR IGNORE` of `int(id)` for each distinct id,
      failing on the first missing one. The result is the committed table. */
  function UserBlock(users: set<int>, ids: seq<Option<int>>): Result<set<int>, LoadError>
    decreases |ids|
  {
    if ids == [] then Ok(users)
    else if ids[0].None? then Err(MissingUserId)
    else UserBlock(users + {ids[0].value}, ids[1..])
  }

  /** The ids present in a column. */
  function PresentIds(ids: seq<Option<int>>): set<int> {
    set x | x in ids && x.Some? :: x.value
  }

  /** The block commits exactly when no id is missing, and then adds each
      distinct id to the table. */
  lemma {:induction false} UserBlockCharacterised(users: set<int>, ids: seq<Option<int>>)
    ensures UserBlock(users, ids).Ok? <==> None !in ids
    ensures UserBlock(users, ids).Ok? ==> UserBlock(users, ids).value == users + PresentIds(ids)
    ensures UserBlock(users, ids).Err? ==> UserBlock(users, ids).error == MissingUserId
    decreases |ids|
  {
    if ids != [] {
      assert ids == [ids[0]] + ids[1..];
      if ids[0].Some? {
        UserBlockCharacterised(users + {ids[0].value}, ids[1..]);
        assert PresentIds(ids) == {ids[0].value} + PresentIds(ids[1..]);
      }
    }
  }

  /** The user loop inside its transaction. */
  method InsertOrIgnoreUsers(db: Database, ids: seq<Option<int>>) returns (err: Option<LoadError>)
    modifies db`users
    ensures UserBlock(old(db.users), ids).Ok? ==> err == None && db.users == UserBlock(old(db.users), ids).value
    ensures UserBlock(old(db.users), ids).Err? ==>
      err == Some(UserBlock(old(db.users), ids).error) && db.users == old(db.users)
  {
    var saved := db.users;
    for i := 0 to |ids|
      invariant UserBlock(db.users, ids[i..]) == UserBlock(saved, ids)
    {
      assert ids[i..][0] == ids[i] && ids[i..][1..] == ids[i + 1..];
      if ids[i].None? {
        db.users := saved; // ROLLBACK
        return Some(MissingUserId);
      }
      db.ExecuteUserInsert(ids[i].value);
    }
    err := None;
  }

  // ------------------------------------------------------------------ conteudo

  /** Line 79 looks the platform up, line 86 converts the content id. */
  function ResolveContentRow(c: ContentRow, m: map<string, int>): Result<ContentTriple, LoadError> {
    if c.platform.None? || c.platform.value !in m then Err(UnknownPlatform)
    else if c.id.None? then Err(MissingContentId)
    else Ok(ContentTriple(c.id.value, c.name, m[c.platform.value]))
  }

  /** The content block: one `INSERT OR IGNORE` per distinct content row,
      failing on the first row that does not resolve. */
  function ContentBlock(c: map<int, Content>, cs: seq<ContentRow>, m: map<string, int>): Result<map<int, Content>, LoadError>
    decreases |cs|
  {
    if cs == [] then Ok(c)
    else match ResolveContentRow(cs[0], m)
      case Err(e) => Err(e)
      case Ok(t) => ContentBlock(InsertOrIgnoreContent(c, t), cs[1..], m)
  }

  predicate AllResolve(cs: seq<ContentRow>, m: map<string, int>) {
    forall i :: 0 <= i < |cs| ==> ResolveContentRow(cs[i], m).Ok?
  }

  /** The triples a fully resolvable content block inserts. */
  function Triples(cs: seq<ContentRow>, m: map<string, int>): (ts: seq<ContentTriple>)
    requires AllResolve(cs, m)
    ensures |ts| == |cs| && forall i :: 0 <= i < |cs| ==> ts[i] == ResolveContentRow(cs[i], m).value
  {
    seq(|cs|, i requires 0 <= i < |cs| && AllResolve(cs, m) => ResolveContentRow(cs[i], m).value)
  }

  /** The block commits exactly when every row resolves, and then holds the
      INSERT OR IGNORE fold of the resolved triples; a failure reports the
      error of some row. */
  lemma {:induction false} ContentBlockCharacterised(c: map<int, Content>, cs: seq<ContentRow>, m: map<string, int>)
    ensures ContentBlock(c, cs, m).Ok? <==> AllResolve(cs, m)
    ensures ContentBlock(c, cs, m).Ok? ==> ContentBlock(c, cs, m).value == InsertOrIgnoreContents(c, Triples(cs, m))
    ensures ContentBlock(c, cs, m).Err? ==>
      exists i :: 0 <= i < |cs| && ResolveContentRow(cs[i], m) == Err(ContentBlock(c, cs, m).error)
    decreases |cs|
  {
    if cs != [] {
      match ResolveContentRow(cs[0], m)
      case Err(e) =>
      case Ok(t) =>
        ContentBlockCharacterised(InsertOrIgnoreContent(c, t), cs[1..], m);
        assert forall i :: 1 <= i < |cs| ==> cs[1..][i - 1] == cs[i];
        if ContentBlock(c, cs, m).Ok? {
          assert Triples(cs, m)[1..] == Triples(cs[1..], m);
        } else {
          var i :| 0 <= i < |cs[1..]| && ResolveContentRow(cs[1..][i], m) == Err(ContentBlock(c, cs, m).error);
          assert cs[1..][i] == cs[i + 1];
        }
    }
  }

  /** The content loop inside its transaction. */
  method InsertOrIgnoreContentRows(db: Database, cs: seq<ContentRow>, m: map<string, int>) returns (err: Option<LoadError>)
    modifies db`contents
    ensures ContentBlock(old(db.contents), cs, m).Ok? ==>
      err == None && db.contents == ContentBlock(old(db.contents), cs, m).value
    ensures ContentBlock(old(db.contents), cs, m).Err? ==>
      err == Some(ContentBlock(old(db.contents), cs, m).error) && db.contents == old(db.contents)
  {
    var saved := db.contents;
    for i := 0 to |cs|
      invariant ContentBlock(db.contents, cs[i..], m) == ContentBlock(saved, cs, m)
    {
      assert cs[i..][0] == cs[i] && cs[i..][1..] == cs[i + 1..];
      var t := ResolveContentRow(cs[i], m);
      if t.Err? {
        db.contents := saved; // ROLLBACK
        return Some(t.error);
      }
      db.ExecuteContentInsertOrIgnore(t.value);
    }
    err := None;
  }

  // ------------------------------------------------------------------ script

  /** The platform names, user ids and content rows the script loops over. */
  function Names(input: seq<Record>): seq<Option<string>> {
    Distinct(PlatformColumn(ReplaceViewStart(input)))
  }

  function UserIdsOf(input: seq<Record>): seq<Option<int>> {
    Distinct(UserColumn(ReplaceViewStart(input)))
  }

  function ContentRowsOf(input: seq<Record>): seq<ContentRow> {
    Distinct(ContentRows(ReplaceViewStart(input)))
  }

  /** The platform block and the `{nome: id}` map read back after it. */
  function RunPlatforms(s: DbState, input: seq<Record>): PlatformTable {
    InsertPlatforms(s.platforms, Names(input))
  }

  function RunMap(s: DbState, input: seq<Record>): map<string, int> {
    NameMap(RunPlatforms(s, input).rows)
  }

  /** When both blocks commit, every row's foreign keys resolve. */
  lemma BlocksResolve(s: DbState, input: seq<Record>)
    requires UserBlock(s.users, UserIdsOf(input)).Ok?
    requires ContentBlock(s.contents, ContentRowsOf(input), RunMap(s, input)).Ok?
    ensures Resolvable(ReplaceViewStart(input), RunMap(s, input))
  {
    var rows := ReplaceViewStart(input);
    var m := RunMap(s, input);
    var cs := ContentRowsOf(input);
    UserBlockCharacterised(s.users, UserIdsOf(input));
    ContentBlockCharacterised(s.contents, cs, m);
    forall i | 0 <= i < |rows| ensures ResolvableRow(rows[i], m) {
      assert UserColumn(rows)[i] == rows[i].user;
      assert rows[i].user in UserIdsOf(input);
      assert ContentRows(rows)[i] in cs;
      var j :| 0 <= j < |cs| && cs[j] == ContentRows(rows)[i];
    }
  }

  /** The state the script leaves behind and the error it stops with. */
  function Run(s: DbState, input: seq<Record>): Outcome
  {
    var p := RunPlatforms(s, input);
    match UserBlock(s.users, UserIdsOf(input))
    case Err(e) => Outcome(s.(platforms := p), Some(e))
    case Ok(users) =>
      match ContentBlock(s.contents, ContentRowsOf(input), RunMap(s, input))
      case Err(e) => Outcome(s.(platforms := p, users := users), Some(e))
      case Ok(contents) =>
        BlocksResolve(s, input);
        var facts := Facts(ReplaceViewStart(input), RunMap(s, input));
        Outcome(DbState(p, users, contents, s.interactions + facts, s.reports), None)
  }

  /** The script, statement by statement. */
  method RunScript(db: Database, input: seq<Record>) returns (err: Option<LoadError>)
    requires db.Valid()
    modifies db
    ensures db.Valid() && db.tablesCreated
    ensures Outcome(db.State(), err) == Run(old(db.State()), input)
  {
    ghost var s := db.State();
    assert WellFormed(s);
    db.CreateTables();
    err := RunStatements(db, input);
    RunWellFormed(s, input);
  }

  method RunStatements(db: Database, input: seq<Record>) returns (err: Option<LoadError>)
    modifies db`platformRows, db`nextPlatformId, db`users, db`contents, db`interactions
    ensures Outcome(db.State(), err) == Run(old(db.State()), input)
  {
    ghost var s := db.State();
    db.InsertPlatformNames(Names(input));
    err := InsertOrIgnoreUsers(db, UserIdsOf(input));
    if err.Some? {
      RunUserFailure(s, input);
      return;
    }
    err := RunContentStatements(db, input, s);
  }

  /** The statements after a committed user block: the content block, then
      the fact rows. */
  method RunContentStatements(db: Database, input: seq<Record>, ghost s: DbState) returns (err: Option<LoadError>)
    requires UserBlock(s.users, UserIdsOf(input)).Ok?
    requires db.Platforms() == RunPlatforms(s, input)
    requires db.users == UserBlock(s.users, UserIdsOf(input)).value
    requires db.contents == s.contents && db.interactions == s.interactions && db.reports == s.reports
    modifies db`contents, db`interactions
    ensures Outcome(db.State(), err) == Run(s, input)
  {
    var m := NameMap(db.platformRows);
    err := InsertOrIgnoreContentRows(db, ContentRowsOf(input), m);
    if err.Some? {
      RunContentFailure(s, input);
      return;
    }
    RunCommit(s, input);
    db.AppendInteractions(Facts(ReplaceViewStart(input), m));
  }

  lemma RunUserFailure(s: DbState, input: seq<Record>)
    requires UserBlock(s.users, UserIdsOf(input)).Err?
    ensures Run(s, input) ==
      Outcome(s.(platforms := RunPlatforms(s, input)), Some(UserBlock(s.users, UserIdsOf(input)).error))
  {
  }

  lemma RunContentFailure(s: DbState, input: seq<Record>)
    requires UserBlock(s.users, UserIdsOf(input)).Ok?
    requires ContentBlock(s.contents, ContentRowsOf(input), RunMap(s, input)).Err?
    ensures Run(s, input) ==
      Outcome(s.(platforms := RunPlatforms(s, input), users := UserBlock(s.users, UserIdsOf(input)).value),
              Some(ContentBlock(s.contents, ContentRowsOf(input), RunMap(s, input)).error))
  {
  }

  lemma RunCommit(s: DbState, input: seq<Record>)
    requires UserBlock(s.users, UserIdsOf(input)).Ok?
    requires ContentBlock(s.contents, ContentRowsOf(input), RunMap(s, input)).Ok?
    ensures Resolvable(ReplaceViewStart(input), RunMap(s, input))
    ensures Run(s, input) ==
      Outcome(DbState(RunPlatforms(s, input),
                      UserBlock(s.users, UserIdsOf(input)).value,
                      ContentBlock(s.contents, ContentRowsOf(input), RunMap(s, input)).value,
                      s.interactions + Facts(ReplaceViewStart(input), RunMap(s, input)),
                      s.reports),
              None)
  {
    BlocksResolve(s, input);
  }

  // ------------------------------------------------------------------ properties

  /** A run that reports no error got through both blocks. */
  lemma RunSuccess(s: DbState, input: seq<Record>)
    requires Run(s, input).error.None?
    ensures None !in UserIdsOf(input)
    ensures AllResolve(ContentRowsOf(input), RunMap(s, input))
    ensures Resolvable(ReplaceViewStart(input), RunMap(s, input))
  {
    UserBlockCharacterised(s.users, UserIdsOf(input));
    ContentBlockCharacterised(s.contents, ContentRowsOf(input), RunMap(s, input));
    BlocksResolve(s, input);
  }

  /** The tables after a successful run: the platform fold, the old users
      and every id of the CSV, the INSERT OR IGNORE fold of the content rows,
      and the old facts followed by one fact per CSV row. */
  lemma RunSuccessState(s: DbState, input: seq<Record>)
    requires Run(s, input).error.None?
    ensures AllResolve(ContentRowsOf(input), RunMap(s, input))
    ensures Resolvable(ReplaceViewStart(input), RunMap(s, input))
    ensures Run(s, input).state == DbState(
      RunPlatforms(s, input),
      s.users + PresentIds(UserIdsOf(input)),
      InsertOrIgnoreContents(s.contents, Triples(ContentRowsOf(input), RunMap(s, input))),
      s.interactions + Facts(ReplaceViewStart(input), RunMap(s, input)),
      s.reports)
  {
    RunSuccess(s, input);
    UserBlockCharacterised(s.users, UserIdsOf(input));
    ContentBlockCharacterised(s.contents, ContentRowsOf(input), RunMap(s, input));
  }

  /** A failed run keeps the committed platform block, may keep the user
      block, and leaves conteudo and interacao as they were. */
  lemma RunFailureState(s: DbState, input: seq<Record>)
    requires Run(s, input).error.Some?
    ensures var r := Run(s, input).state;
      && r.platforms == RunPlatforms(s, input)
      && (r.users == s.users || r.users == s.users + PresentIds(UserIdsOf(input)))
      && r.contents == s.contents
      && r.interactions == s.interactions
      && r.reports == s.reports
  {
    UserBlockCharacterised(s.users, UserIdsOf(input));
  }

  /** Nothing is ever removed from a table. */
  lemma RunGrows(s: DbState, input: seq<Record>)
    ensures var r := Run(s, input).state;
      && r.platforms == RunPlatforms(s, input)
      && s.users <= r.users
      && s.contents.Keys <= r.contents.Keys
      && PlatformIds(s.platforms.rows) <= PlatformIds(r.platforms.rows)
  {
    PlatformIdsGrow(s.platforms, RunPlatforms(s, input));
    if Run(s, input).error.None? {
      RunSuccessState(s, input);
      InsertOrIgnoreContentsKeys(s.contents, Triples(ContentRowsOf(input), RunMap(s, input)));
    } else {
      RunFailureState(s, input);
    }
  }

  /** Every triple of a content block resolved through the read-back map of
      a table with unique names names a stored platform. */
  lemma TriplesNameStoredPlatforms(cs: seq<ContentRow>, p: seq<PlatformRow>)
    requires UniqueNames(p)
    requires AllResolve(cs, NameMap(p))
    ensures forall t :: t in Triples(cs, NameMap(p)) ==> t.platform in PlatformIds(p)
  {
    var ts := Triples(cs, NameMap(p));
    forall t | t in ts ensures t.platform in PlatformIds(p) {
      var i :| 0 <= i < |ts| && ts[i] == t;
      assert ResolveContentRow(cs[i], NameMap(p)).Ok?;
      NameMapInIds(p, cs[i].platform.value);
    }
  }

  lemma RunContentsClosed(s: DbState, input: seq<Record>)
    requires WellFormed(s)
    ensures var r := Run(s, input).state;
      ContentsReferToPlatforms(r.contents, PlatformIds(r.platforms.rows))
  {
    RunGrows(s, input);
    if Run(s, input).error.None? {
      RunSuccessState(s, input);
      TriplesNameStoredPlatforms(ContentRowsOf(input), RunPlatforms(s, input).rows);
      InsertOrIgnoreContentsClosed(s.contents, Triples(ContentRowsOf(input), RunMap(s, input)),
                                   PlatformIds(RunPlatforms(s, input).rows));
    } else {
      RunFailureState(s, input);
    }
  }

  lemma UserStored(users: set<int>, rows: seq<Record>, k: nat)
    requires None !in Distinct(UserColumn(rows))
    requires k < |rows|
    ensures rows[k].user.Some?
    ensures rows[k].user.value in users + PresentIds(Distinct(UserColumn(rows)))
  {
    assert UserColumn(rows)[k] == rows[k].user;
    assert rows[k].user in Distinct(UserColumn(rows));
  }

  lemma ContentStored(c: map<int, Content>, rows: seq<Record>, m: map<string, int>, k: nat)
    requires AllResolve(Distinct(ContentRows(rows)), m)
    requires k < |rows|
    ensures rows[k].content.Some?
    ensures rows[k].content.value in InsertOrIgnoreContents(c, Triples(Distinct(ContentRows(rows)), m))
  {
    var cs := Distinct(ContentRows(rows));
    var ts := Triples(cs, m);
    assert ContentRows(rows)[k] in cs;
    var j :| 0 <= j < |cs| && cs[j] == ContentRows(rows)[k];
    assert ts[j] in ts;
    InsertOrIgnoreContentsKeys(c, ts);
  }

  /** When no user id is missing and every content row resolves, each row's
      user and content are among the ones the two blocks store. */
  lemma RowsStored(users: set<int>, c: map<int, Content>, rows: seq<Record>, m: map<string, int>)
    requires None !in Distinct(UserColumn(rows))
    requires AllResolve(Distinct(ContentRows(rows)), m)
    ensures forall k :: 0 <= k < |rows| ==>
      && rows[k].user.Some? && rows[k].user.value in users + PresentIds(Distinct(UserColumn(rows)))
      && rows[k].content.Some?
      && rows[k].content.value in InsertOrIgnoreContents(c, Triples(Distinct(ContentRows(rows)), m))
  {
    forall k | 0 <= k < |rows|
      ensures && rows[k].user.Some? && rows[k].user.value in users + PresentIds(Distinct(UserColumn(rows)))
              && rows[k].content.Some?
              && rows[k].content.value in InsertOrIgnoreContents(c, Triples(Distinct(ContentRows(rows)), m))
    {
      UserStored(users, rows, k);
      ContentStored(c, rows, m, k);
    }
  }

  /** Fact rows whose users and contents are stored, resolved through the
      read-back map of a table with unique names, refer to stored rows. */
  lemma FactsReference(r: DbState, rows: seq<Record>, m: map<string, int>)
    requires UniqueNames(r.platforms.rows) && m == NameMap(r.platforms.rows)
    requires Resolvable(rows, m)
    requires forall k :: 0 <= k < |rows| ==> rows[k].user.value in r.users && rows[k].content.value in r.contents
    ensures AllReference(r, Facts(rows, m))
  {
    var f := Facts(rows, m);
    forall k | 0 <= k < |f| ensures References(r, f[k]) {
      NameMapInIds(r.platforms.rows, rows[k].platform.value);
    }
  }

  /** The fact rows a successful run appends refer to stored rows. */
  lemma RunNewFactsReference(s: DbState, input: seq<Record>)
    requires PlatformsWellFormed(s.platforms)
    requires Run(s, input).error.None?
    ensures Resolvable(ReplaceViewStart(input), RunMap(s, input))
    ensures AllReference(Run(s, input).state, Facts(ReplaceViewStart(input), RunMap(s, input)))
  {
    RunSuccess(s, input);
    RunSuccessState(s, input);
    RowsStored(s.users, s.contents, ReplaceViewStart(input), RunMap(s, input));
    assert PlatformsWellFormed(RunPlatforms(s, input));
    FactsReference(Run(s, input).state, ReplaceViewStart(input), RunMap(s, input));
  }

  lemma RunInteractionsReference(s: DbState, input: seq<Record>)
    requires PlatformsWellFormed(s.platforms)
    requires AllReference(s, s.interactions)
    ensures AllReference(Run(s, input).state, Run(s, input).state.interactions)
  {
    var r := Run(s, input).state;
    RunGrows(s, input);
    ReferencesGrow(s, r, s.interactions);
    if Run(s, input).error.None? {
      RunSuccessState(s, input);
      RunNewFactsReference(s, input);
      AllReferenceAppend(r, s.interactions, Facts(ReplaceViewStart(input), RunMap(s, input)));
    } else {
      RunFailureState(s, input);
    }
  }

  /** Whatever the outcome, keys stay unique and every stored reference resolves. */
  lemma RunWellFormed(s: DbState, input: seq<Record>)
    requires WellFormed(s)
    ensures WellFormed(Run(s, input).state)
  {
    RunGrows(s, input);
    RunContentsClosed(s, input);
    RunInteractionsReference(s, input);
  }

  // ------------------------------------------------------------------ outcomes

  /** A CSV row the script can load: both ids and the platform are present. */
  predicate Complete(r: Record) {
    r.user.Some? && r.content.Some? && r.platform.Some?
  }

  predicate AllComplete(input: seq<Record>) {
    forall i :: 0 <= i < |input| ==> Complete(input[i])
  }

  /** The view_start rewrite keeps the ids and the platform of every row. */
  lemma ReplaceKeepsKeys(input: seq<Record>)
    ensures forall i :: 0 <= i < |input| ==>
      var r := ReplaceViewStart(input)[i];
      r.user == input[i].user && r.content == input[i].content && r.platform == input[i].platform
  {
  }

  /** A missing id in the user column is a row without a user id. */
  lemma MissingUserRow(rows: seq<Record>)
    ensures None in Distinct(UserColumn(rows)) <==> exists i :: 0 <= i < |rows| && rows[i].user.None?
  {
    if exists i :: 0 <= i < |rows| && rows[i].user.None? {
      var i :| 0 <= i < |rows| && rows[i].user.None?;
      assert UserColumn(rows)[i] in UserColumn(rows);
    }
    if None in Distinct(UserColumn(rows)) {
      var i :| 0 <= i < |rows| && UserColumn(rows)[i] == None;
    }
  }

  /** After the platform block every platform name of the CSV is in the
      read-back map. */
  lemma PlatformsInMap(t: PlatformTable, rows: seq<Record>)
    ensures var m := NameMap(InsertPlatforms(t, Distinct(PlatformColumn(rows))).rows);
      forall i :: 0 <= i < |rows| && rows[i].platform.Some? ==> rows[i].platform.value in m
  {
    forall i | 0 <= i < |rows| && rows[i].platform.Some?
      ensures rows[i].platform.value in NameMap(InsertPlatforms(t, Distinct(PlatformColumn(rows))).rows)
    {
      assert PlatformColumn(rows)[i] in Distinct(PlatformColumn(rows));
    }
  }

  /** In a CSV of complete rows no user id is missing and every content row
      resolves through a map that knows every platform name. */
  lemma CompleteRowsResolve(rows: seq<Record>, m: map<string, int>)
    requires forall i :: 0 <= i < |rows| ==> Complete(rows[i])
    requires forall i :: 0 <= i < |rows| && rows[i].platform.Some? ==> rows[i].platform.value in m
    ensures None !in Distinct(UserColumn(rows))
    ensures AllResolve(Distinct(ContentRows(rows)), m)
  {
    MissingUserRow(rows);
    var cs := Distinct(ContentRows(rows));
    forall j | 0 <= j < |cs| ensures ResolveContentRow(cs[j], m).Ok? {
      assert cs[j] in ContentRows(rows);
      var i :| 0 <= i < |rows| && ContentRows(rows)[i] == cs[j];
    }
  }

  /** The script reports no error exactly when every CSV row is complete. */
  lemma RunSucceedsIff(s: DbState, input: seq<Record>)
    ensures Run(s, input).error.None? <==> AllComplete(input)
  {
    var rows := ReplaceViewStart(input);
    if Run(s, input).error.None? {
      RunSuccess(s, input);
      forall i | 0 <= i < |input| ensures Complete(input[i]) {
        assert ResolvableRow(rows[i], RunMap(s, input));
      }
    }
    if AllComplete(input) {
      assert forall i :: 0 <= i < |rows| ==> Complete(rows[i]);
      PlatformsInMap(s.platforms, rows);
      CompleteRowsResolve(rows, RunMap(s, input));
      UserBlockCharacterised(s.users, UserIdsOf(input));
      ContentBlockCharacterised(s.contents, ContentRowsOf(input), RunMap(s, input));
    }
  }

  /** `MissingUserId` comes from the user block and from nowhere else. */
  lemma RunUserError(s: DbState, input: seq<Record>)
    ensures Run(s, input).error == Some(MissingUserId) <==> UserBlock(s.users, UserIdsOf(input)).Err?
    ensures UserBlock(s.users, UserIdsOf(input)).Err? ==> Run(s, input).state == s.(platforms := RunPlatforms(s, input))
  {
    UserBlockCharacterised(s.users, UserIdsOf(input));
    if UserBlock(s.users, UserIdsOf(input)).Err? {
      RunUserFailure(s, input);
    } else if ContentBlock(s.contents, ContentRowsOf(input), RunMap(s, input)).Err? {
      RunContentFailure(s, input);
      var cs := ContentRowsOf(input);
      var m := RunMap(s, input);
      ContentBlockCharacterised(s.contents, cs, m);
      var j :| 0 <= j < |cs| && ResolveContentRow(cs[j], m) == Err(ContentBlock(s.contents, cs, m).error);
    } else {
      RunCommit(s, input);
    }
  }

  /** The script stops in the user block exactly when some row has no user
      id; then only the platform block before it is committed. */
  lemma RunStopsAtUsers(s: DbState, input: seq<Record>)
    ensures Run(s, input).error == Some(MissingUserId) <==> exists i :: 0 <= i < |input| && input[i].user.None?
    ensures Run(s, input).error == Some(MissingUserId) ==>
      Run(s, input).state == s.(platforms := RunPlatforms(s, input))
  {
    var rows := ReplaceViewStart(input);
    RunUserError(s, input);
    UserBlockCharacterised(s.users, UserIdsOf(input));
    MissingUserRow(rows);
    ReplaceKeepsKeys(input);
    assert (exists i :: 0 <= i < |input| && input[i].user.None?) <==>
           (exists i :: 0 <= i < |rows| && rows[i].user.None?) by {
      if exists i :: 0 <= i < |rows| && rows[i].user.None? {
        var i :| 0 <= i < |rows| && rows[i].user.None?;
        assert input[i].user.None?;
      }
    }
  }

  /** The row of a failing content block points back at a CSV row without
      a platform or without a content id, when the map knows every platform
      name. */
  lemma ContentErrorRow(c: map<int, Content>, rows: seq<Record>, m: map<string, int>)
    requires forall i :: 0 <= i < |rows| && rows[i].platform.Some? ==> rows[i].platform.value in m
    requires ContentBlock(c, Distinct(ContentRows(rows)), m).Err?
    ensures var e := ContentBlock(c, Distinct(ContentRows(rows)), m).error;
      && e != MissingUserId
      && (e == UnknownPlatform ==> exists i :: 0 <= i < |rows| && rows[i].platform.None?)
      && (e == MissingContentId ==> exists i :: 0 <= i < |rows| && rows[i].content.None?)
  {
    var cs := Distinct(ContentRows(rows));
    ContentBlockCharacterised(c, cs, m);
    var j :| 0 <= j < |cs| && ResolveContentRow(cs[j], m) == Err(ContentBlock(c, cs, m).error);
    assert cs[j] in ContentRows(rows);
    var i :| 0 <= i < |rows| && ContentRows(rows)[i] == cs[j];
  }

  /** A failure in the content block: every user id was present and the user
      block is committed; `UnknownPlatform` points at a row without a platform
      and `MissingContentId` at a row without a content id. */
  lemma RunContentError(s: DbState, input: seq<Record>)
    requires Run(s, input).error.Some? && Run(s, input).error != Some(MissingUserId)
    ensures forall i :: 0 <= i < |input| ==> input[i].user.Some?
    ensures Run(s, input).error == Some(UnknownPlatform) ==>
      exists i :: 0 <= i < |input| && input[i].platform.None?
    ensures Run(s, input).error == Some(MissingContentId) ==>
      exists i :: 0 <= i < |input| && input[i].content.None?
    ensures Run(s, input).state ==
      s.(platforms := RunPlatforms(s, input), users := s.users + PresentIds(UserIdsOf(input)))
  {
    var rows := ReplaceViewStart(input);
    RunUserError(s, input);
    UserBlockCharacterised(s.users, UserIdsOf(input));
    MissingUserRow(rows);
    ReplaceKeepsKeys(input);
    assert ContentBlock(s.contents, ContentRowsOf(input), RunMap(s, input)).Err?;
    RunContentFailure(s, input);
    PlatformsInMap(s.platforms, rows);
    ContentErrorRow(s.contents, rows, RunMap(s, input));
    var e := Run(s, input).error.value;
    if e == UnknownPlatform {
      var i :| 0 <= i < |rows| && rows[i].platform.None?;
      assert input[i].platform.None?;
    } else if e == MissingContentId {
      var i :| 0 <= i < |rows| && rows[i].content.None?;
      assert input[i].content.None?;
    }
  }

  /** A row without a platform makes the platform block insert a row with a
      NULL name; that block stays committed although the script then fails. */
  lemma RunNullPlatformRow(s: DbState, input: seq<Record>)
    requires exists i :: 0 <= i < |input| && input[i].platform.None?
    ensures Run(s, input).error.Some?
    ensures var r := Run(s, input).state.platforms.rows;
      exists j :: |s.platforms.rows| <= j < |r| && r[j].name.None?
  {
    var i :| 0 <= i < |input| && input[i].platform.None?;
    var rows := ReplaceViewStart(input);
    assert PlatformColumn(rows)[i] in Names(input);
    InsertPlatformsAddsNull(s.platforms, Names(input));
    RunGrows(s, input);
    RunSucceedsIff(s, input);
  }

  /** INSERT OR IGNORE: a stored content keeps its row whatever the outcome,
      and a failed run adds none. */
  lemma RunKeepsContents(s: DbState, input: seq<Record>)
    ensures var r := Run(s, input).state;
      forall id :: id in s.contents ==> id in r.contents && r.contents[id] == s.contents[id]
    ensures Run(s, input).error.Some? ==> Run(s, input).state.contents == s.contents
  {
    if Run(s, input).error.None? {
      RunSuccessState(s, input);
      InsertOrIgnoreContentsFirstWins(s.contents, Triples(ContentRowsOf(input), RunMap(s, input)));
    } else {
      RunFailureState(s, input);
    }
  }

  /** A content a successful run adds is a video described by the first
      content row with its id. */
  lemma RunNewContents(s: DbState, input: seq<Record>)
    requires Run(s, input).error.None?
    requires AllResolve(ContentRowsOf(input), RunMap(s, input))
    ensures var r := Run(s, input).state;
      var ts := Triples(ContentRowsOf(input), RunMap(s, input));
      forall id :: id in r.contents && id !in s.contents ==>
        id in TripleIds(ts) && r.contents[id] == Content(FirstWith(ts, id).name, VideoKind, FirstWith(ts, id).platform)
  {
    RunSuccessState(s, input);
    InsertOrIgnoreContentsFirstWins(s.contents, Triples(ContentRowsOf(input), RunMap(s, input)));
  }

  /** The facts of a resolvable CSV describe its rows, one by one. */
  lemma RunFactsDescribe(s: DbState, input: seq<Record>)
    requires PlatformsWellFormed(s.platforms)
    requires Resolvable(ReplaceViewStart(input), RunMap(s, input))
    ensures DescribesAll(Facts(ReplaceViewStart(input), RunMap(s, input)), input, RunPlatforms(s, input).rows)
  {
    var rows := ReplaceViewStart(input);
    var p := RunPlatforms(s, input);
    forall k | 0 <= k < |input| ensures Describes(Facts(rows, NameMap(p.rows))[k], input[k], p.rows) {
      FactDescribesRow(input[k], rows[k], p);
    }
  }

  /** A successful run keeps the old facts and appends one per CSV row, in
      input order, describing that row. */
  lemma RunAppends(s: DbState, input: seq<Record>)
    requires PlatformsWellFormed(s.platforms)
    requires Run(s, input).error.None?
    ensures var r := Run(s, input).state;
      && r.interactions[..|s.interactions|] == s.interactions
      && DescribesAll(r.interactions[|s.interactions|..], input, r.platforms.rows)
  {
    var r := Run(s, input).state;
    RunSuccessState(s, input);
    RunFactsDescribe(s, input);
    assert r.interactions[|s.interactions|..] == Facts(ReplaceViewStart(input), RunMap(s, input));
  }

  /** After the platform block of a complete CSV every name is present, so a
      second platform block inserts nothing. */
  lemma CompletePlatformsSettled(t: PlatformTable, input: seq<Record>)
    requires AllComplete(input)
    ensures InsertPlatforms(InsertPlatforms(t, Names(input)), Names(input)) == InsertPlatforms(t, Names(input))
  {
    var rows := ReplaceViewStart(input);
    var p := InsertPlatforms(t, Names(input));
    forall x | x in Names(input) ensures x.Some? && HasName(p.rows, x.value) {
      var i :| 0 <= i < |rows| && PlatformColumn(rows)[i] == x;
    }
  }

  /** Running the script twice on the same CSV changes nothing but interacao,
      which receives the same facts a second time. */
  lemma RunTwice(s: DbState, input: seq<Record>)
    requires Run(s, input).error.None?
    ensures var r1 := Run(s, input); var r2 := Run(r1.state, input);
      && r2.error.None?
      && r2.state.platforms == r1.state.platforms
      && r2.state.users == r1.state.users
      && r2.state.contents == r1.state.contents
      && r2.state.reports == r1.state.reports
      && r2.state.interactions == r1.state.interactions + r1.state.interactions[|s.interactions|..]
  {
    var r1 := Run(s, input).state;
    RunSucceedsIff(s, input);
    RunSucceedsIff(r1, input);
    RunSuccessState(s, input);
    CompletePlatformsSettled(s.platforms, input);
    assert RunPlatforms(r1, input) == RunPlatforms(s, input);
    assert RunMap(r1, input) == RunMap(s, input);
    RunSuccessState(r1, input);
    InsertOrIgnoreContentsIdempotent(s.contents, Triples(ContentRowsOf(input), RunMap(s, input)));
    assert r1.users + PresentIds(UserIdsOf(input)) == r1.users;
  }
}
