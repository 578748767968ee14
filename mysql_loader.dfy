/** `carregar_dados` in carga_dados.py: the MySQL loader. It validates the
    rows, rewrites `view_start`, upserts platforms, users and contents with
    `ON DUPLICATE KEY UPDATE`, resolves platform names through the read-back
    map, re-upserts the report registry and appends the projected facts. */
module MysqlLoader {
  import opened Records
  import opened Validation
  import opened Tables
  import opened Storage

  /** The DataFrame after `validar_dataframe` and the `view_start` rewrite. */
  function Prepared(input: seq<Record>): (rows: seq<Record>)
    ensures |rows| == |Validate(input)|
    ensures forall i :: 0 <= i < |rows| ==> Retained(rows[i]) && rows[i].kind != LegacyViewKind
  {
    ReplaceViewStart(Validate(input))
  }

  /** `int(uid)` over the id_usuario column; validated rows have it. */
  function UserIds(rows: seq<Record>): (ids: seq<int>)
    requires forall i :: 0 <= i < |rows| ==> rows[i].user.Some?
    ensures |ids| == |rows| && forall i :: 0 <= i < |rows| ==> ids[i] == rows[i].user.value
  {
    seq(|rows|, i requires 0 <= i < |rows| && rows[i].user.Some? => rows[i].user.value)
  }

  /** `df[["id_conteudo", "nome_conteudo", "id_plataforma"]]`. */
  function ContentTriples(rows: seq<Record>, m: map<string, int>): (ts: seq<ContentTriple>)
    requires Resolvable(rows, m)
    ensures |ts| == |rows|
    ensures forall i :: 0 <= i < |rows| ==>
      ts[i] == ContentTriple(rows[i].content.value, rows[i].contentName, m[rows[i].platform.value])
  {
    seq(|rows|, i requires 0 <= i < |rows| && Resolvable(rows, m) =>
      ContentTriple(rows[i].content.value, rows[i].contentName, m[rows[i].platform.value]))
  }

  /** The platform loop runs over `df["plataforma"].unique()`. */
  function LoadPlatforms(t: PlatformTable, input: seq<Record>): PlatformTable
  {
    InsertPlatforms(t, Distinct(PlatformColumn(Prepared(input))))
  }

  /** The `{nome: id}` map read back after the platform loop. Every validated
      row's platform name is in it, so `df["plataforma"].map(...)` is defined
      on every row. */
  function LoadMap(t: PlatformTable, input: seq<Record>): (m: map<string, int>)
    ensures Resolvable(Prepared(input), m)
  {
    var rows := Prepared(input);
    var names := Distinct(PlatformColumn(rows));
    var p := InsertPlatforms(t, names);
    var m := NameMap(p.rows);
    assert forall i :: 0 <= i < |rows| ==> ResolvableRow(rows[i], m) by {
      forall i | 0 <= i < |rows| ensures ResolvableRow(rows[i], m) {
        assert PlatformColumn(rows)[i] == rows[i].platform;
        assert rows[i].platform in names;
        assert HasName(p.rows, rows[i].platform.value);
      }
    }
    m
  }

  /** The state `carregar_dados` leaves behind, as a function of the state it
      starts from and the CSV rows. */
  function Load(s: DbState, input: seq<Record>): DbState
  {
    var rows := Prepared(input);
    var m := LoadMap(s.platforms, input);
    DbState(
      LoadPlatforms(s.platforms, input),
      s.users + (set u | u in Distinct(UserIds(rows))),
      UpsertContents(s.contents, Distinct(ContentTriples(rows, m))),
      s.interactions + Facts(rows, m),
      s.reports)
  }

  /** The user loop. */
  method UpsertUsers(db: Database, ids: seq<int>)
    modifies db`users
    ensures db.users == old(db.users) + (set u | u in ids)
  {
    for i := 0 to |ids|
      invariant db.users == old(db.users) + (set u | u in ids[..i])
    {
      assert ids[..i + 1] == ids[..i] + [ids[i]];
      db.ExecuteUserInsert(ids[i]);
    }
    assert ids[..|ids|] == ids;
  }

  /** The content loop. */
  method UpsertContentRows(db: Database, ts: seq<ContentTriple>)
    modifies db`contents
    ensures db.contents == UpsertContents(old(db.contents), ts)
  {
    for i := 0 to |ts|
      invariant UpsertContents(db.contents, ts[i..]) == UpsertContents(old(db.contents), ts)
    {
      assert ts[i..][0] == ts[i] && ts[i..][1..] == ts[i + 1..];
      db.ExecuteContentUpsert(ts[i]);
    }
  }

  /** The relatorios_sql block: every row read back is upserted with its own
      descricao and query_sql, so the table ends as it began. */
  method ReupsertReports(db: Database)
    modifies db`reports
    ensures db.reports == old(db.reports)
  {
    var snapshot := db.reports;
    var pending := snapshot.Keys;
    while pending != {}
      invariant pending <= snapshot.Keys
      invariant db.reports == snapshot
      decreases pending
    {
      var name :| name in pending;
      db.ExecuteReportUpsert(name, snapshot[name]);
      assert db.reports == snapshot;
      pending := pending - {name};
    }
  }

  /** `carregar_dados` on the rows of the CSV. */
  method LoadInteractions(db: Database, input: seq<Record>)
    requires db.Valid() && db.tablesCreated
    modifies db
    ensures db.Valid() && db.tablesCreated
    ensures db.State() == Load(old(db.State()), input)
  {
    ghost var s := db.State();
    assert WellFormed(s);
    RunLoadStatements(db, input);
    LoadWellFormed(s, input);
  }

  /** The statements of `carregar_dados`, in order. */
  method RunLoadStatements(db: Database, input: seq<Record>)
    modifies db`platformRows, db`nextPlatformId, db`users, db`contents, db`reports, db`interactions
    ensures db.State() == Load(old(db.State()), input)
  {
    ghost var s := db.State();
    var rows := Prepared(input);
    db.InsertPlatformNames(Distinct(PlatformColumn(rows)));
    assert db.Platforms() == LoadPlatforms(s.platforms, input);
    UpsertUsers(db, Distinct(UserIds(rows)));
    var m := NameMap(db.platformRows);
    assert m == LoadMap(s.platforms, input);
    UpsertContentRows(db, Distinct(ContentTriples(rows, m)));
    ReupsertReports(db);
    db.AppendInteractions(Facts(rows, m));
  }

  /** Every content triple the load writes names a platform row the load
      leaves behind. */
  lemma LoadContentsClosed(s: DbState, input: seq<Record>)
    requires WellFormed(s)
    ensures ContentsReferToPlatforms(Load(s, input).contents, PlatformIds(Load(s, input).platforms.rows))
  {
    var p := LoadPlatforms(s.platforms, input);
    var ts := Distinct(ContentTriples(Prepared(input), LoadMap(s.platforms, input)));
    PlatformIdsGrow(s.platforms, p);
    TriplesNamePlatforms(Prepared(input), p);
    UpsertContentsClosed(s.contents, ts, PlatformIds(p.rows));
  }

  /** The triples resolved through the read-back map name stored platforms. */
  lemma TriplesNamePlatforms(rows: seq<Record>, p: PlatformTable)
    requires UniqueNames(p.rows)
    requires Resolvable(rows, NameMap(p.rows))
    ensures forall t :: t in Distinct(ContentTriples(rows, NameMap(p.rows))) ==> t.platform in PlatformIds(p.rows)
  {
    var ts := ContentTriples(rows, NameMap(p.rows));
    forall t | t in Distinct(ts) ensures t.platform in PlatformIds(p.rows) {
      var i :| 0 <= i < |rows| && ts[i] == t;
      NameMapInIds(p.rows, rows[i].platform.value);
    }
  }

  /** Every fact row the load appends refers to a stored user, content and
      platform. */
  lemma LoadFactsReference(s: DbState, input: seq<Record>, k: nat)
    requires PlatformsWellFormed(s.platforms)
    requires k < |Prepared(input)|
    ensures References(Load(s, input), Facts(Prepared(input), LoadMap(s.platforms, input))[k])
  {
    var rows := Prepared(input);
    var m := LoadMap(s.platforms, input);
    assert Facts(rows, m)[k] == Fact(rows[k], m);
    LoadStoresUser(s.users, rows, k);
    LoadStoresContent(s.contents, rows, m, k);
    NameMapInIds(LoadPlatforms(s.platforms, input).rows, rows[k].platform.value);
  }

  lemma LoadStoresUser(users: set<int>, rows: seq<Record>, k: nat)
    requires forall i :: 0 <= i < |rows| ==> rows[i].user.Some?
    requires k < |rows|
    ensures rows[k].user.value in users + (set u | u in Distinct(UserIds(rows)))
  {
    assert UserIds(rows)[k] == rows[k].user.value;
    assert rows[k].user.value in Distinct(UserIds(rows));
  }

  lemma LoadStoresContent(c: map<int, Content>, rows: seq<Record>, m: map<string, int>, k: nat)
    requires Resolvable(rows, m)
    requires k < |rows|
    ensures rows[k].content.value in UpsertContents(c, Distinct(ContentTriples(rows, m)))
  {
    var ts := Distinct(ContentTriples(rows, m));
    assert ContentTriples(rows, m)[k] in ts;
    UpsertContentsKeys(c, ts);
  }

  /** The load only adds: no user, content or platform id disappears, and the
      fact rows of the CSV follow the old ones. */
  lemma LoadGrows(s: DbState, input: seq<Record>)
    ensures var r := Load(s, input);
      && s.users <= r.users
      && s.contents.Keys <= r.contents.Keys
      && PlatformIds(s.platforms.rows) <= PlatformIds(r.platforms.rows)
      && r.interactions == s.interactions + Facts(Prepared(input), LoadMap(s.platforms, input))
  {
    var r := Load(s, input);
    var m := LoadMap(s.platforms, input);
    assert r.interactions == s.interactions + Facts(Prepared(input), m);
    assert s.users <= r.users;
    PlatformIdsGrow(s.platforms, r.platforms);
    UpsertContentsKeys(s.contents, Distinct(ContentTriples(Prepared(input), m)));
  }

  /** Every fact row, old or new, still resolves after the load. */
  lemma LoadInteractionsReference(s: DbState, input: seq<Record>)
    requires PlatformsWellFormed(s.platforms)
    requires forall i :: 0 <= i < |s.interactions| ==> References(s, s.interactions[i])
    ensures var r := Load(s, input);
      forall i :: 0 <= i < |r.interactions| ==> References(r, r.interactions[i])
  {
    var r := Load(s, input);
    var f := Facts(Prepared(input), LoadMap(s.platforms, input));
    LoadGrows(s, input);
    forall i | 0 <= i < |r.interactions| ensures References(r, r.interactions[i]) {
      if i < |s.interactions| {
        assert r.interactions[i] == s.interactions[i];
        assert References(s, s.interactions[i]);
      } else {
        assert r.interactions[i] == f[i - |s.interactions|];
        LoadFactsReference(s, input, i - |s.interactions|);
      }
    }
  }

  /** The load keeps keys unique and every stored reference resolvable:
      content rows refer to existing platforms, fact rows to existing users,
      contents and platforms. */
  lemma LoadWellFormed(s: DbState, input: seq<Record>)
    requires WellFormed(s)
    ensures WellFormed(Load(s, input))
  {
    assert PlatformsWellFormed(Load(s, input).platforms);
    LoadContentsClosed(s, input);
    LoadInteractionsReference(s, input);
  }

  /** The fact row the load derives from the k-th validated CSV row. */
  lemma LoadFactMatchesRow(s: DbState, input: seq<Record>, k: nat)
    requires PlatformsWellFormed(s.platforms)
    requires k < |Validate(input)|
    ensures Describes(Facts(Prepared(input), LoadMap(s.platforms, input))[k],
                      Validate(input)[k], LoadPlatforms(s.platforms, input).rows)
  {
    var prepared := Prepared(input);
    var m := LoadMap(s.platforms, input);
    var p := LoadPlatforms(s.platforms, input);
    assert m == NameMap(p.rows);
    assert Facts(prepared, m)[k] == Fact(prepared[k], m);
    FactDescribesRow(Validate(input)[k], prepared[k], p);
  }

  /** Each appended row describes its CSV row. */
  lemma LoadFactsDescribeRows(s: DbState, input: seq<Record>)
    requires PlatformsWellFormed(s.platforms)
    ensures DescribesAll(Facts(Prepared(input), LoadMap(s.platforms, input)), Validate(input),
                         LoadPlatforms(s.platforms, input).rows)
  {
    forall k | 0 <= k < |Validate(input)| {
      LoadFactMatchesRow(s, input, k);
    }
  }

  /** Appending is the only change to interacao: old rows stay, and one row
      per validated CSV row follows, in input order, describing that row. */
  lemma LoadAppendsFacts(s: DbState, input: seq<Record>)
    requires WellFormed(s)
    ensures var r := Load(s, input);
      && r.interactions[..|s.interactions|] == s.interactions
      && DescribesAll(r.interactions[|s.interactions|..], Validate(input), r.platforms.rows)
  {
    var r := Load(s, input);
    LoadGrows(s, input);
    LoadFactsDescribeRows(s, input);
    assert r.platforms == LoadPlatforms(s.platforms, input);
    assert r.interactions[|s.interactions|..] == Facts(Prepared(input), LoadMap(s.platforms, input));
  }

  /** After the platform loop every name of the CSV is present. */
  lemma LoadNamesPresent(t: PlatformTable, input: seq<Record>)
    ensures var names := Distinct(PlatformColumn(Prepared(input)));
      forall x :: x in names ==> x.Some? && HasName(LoadPlatforms(t, input).rows, x.value)
  {
    var rows := Prepared(input);
    var names := Distinct(PlatformColumn(rows));
    forall x | x in names ensures x.Some? && HasName(LoadPlatforms(t, input).rows, x.value) {
      var i :| 0 <= i < |rows| && PlatformColumn(rows)[i] == x;
    }
  }

  /** A second platform loop over the same CSV finds every name present. */
  lemma LoadPlatformsIdempotent(t: PlatformTable, input: seq<Record>)
    ensures var p := LoadPlatforms(t, input);
      LoadPlatforms(p, input) == p && LoadMap(p, input) == LoadMap(t, input)
  {
    LoadNamesPresent(t, input);
  }

  /** Loading the same CSV twice leaves plataforma, usuario, conteudo and
      relatorios_sql as after one load, while interacao holds the facts twice. */
  lemma LoadTwice(s: DbState, input: seq<Record>)
    ensures var s1 := Load(s, input); var s2 := Load(s1, input);
      && s2.platforms == s1.platforms
      && s2.users == s1.users
      && s2.contents == s1.contents
      && s2.reports == s1.reports
      && s2.interactions == s1.interactions + s1.interactions[|s.interactions|..]
  {
    var s1 := Load(s, input);
    LoadPlatformsIdempotent(s.platforms, input);
    assert s1.platforms == LoadPlatforms(s.platforms, input);
    var m := LoadMap(s.platforms, input);
    UpsertContentsIdempotent(s.contents, Distinct(ContentTriples(Prepared(input), m)));
    LoadGrows(s, input);
  }
}
