/** The storage schema shared by both loaders (plataforma, usuario, conteudo,
    interacao, relatorios_sql) and the meaning, on table values, of each SQL
    statement the loaders issue. Uniqueness and foreign keys are stated as
    invariants of these values rather than enforced by an engine. */
module Tables {
  import opened Records

  /** A row of `plataforma(id_plataforma, nome UNIQUE)`; `nome` may be NULL. */
  datatype PlatformRow = PlatformRow(id: int, name: Option<string>)

  /** The plataforma table: its rows in id order and its auto-increment counter. */
  datatype PlatformTable = PlatformTable(rows: seq<PlatformRow>, nextId: int)

  /** A row of `conteudo`, keyed by id_conteudo. */
  datatype Content = Content(name: Option<string>, kind: string, platform: int)

  /** A row of `interacao`: the six projected fact columns. */
  datatype Interaction = Interaction(
    user: int, content: int, platform: int, kind: string, time: string, duration: Option<int>)

  /** A row of `relatorios_sql`, keyed by nome. */
  datatype Report = Report(description: string, query: string)

  /** The parameters of one conteudo insert: id, name and resolved platform id. */
  datatype ContentTriple = ContentTriple(id: int, name: Option<string>, platform: int)

  datatype DbState = DbState(
    platforms: PlatformTable,
    users: set<int>,
    contents: map<int, Content>,
    interactions: seq<Interaction>,
    reports: map<string, Report>)

  /** The fixed tipo_conteudo label of every inserted content row. */
  const VideoKind := "Vídeo"

  // ---------------------------------------------------------------- plataforma

  predicate HasName(rows: seq<PlatformRow>, n: string) {
    exists i :: 0 <= i < |rows| && rows[i].name == Some(n)
  }

  function PlatformIds(rows: seq<PlatformRow>): set<int> {
    set i | 0 <= i < |rows| :: rows[i].id
  }

  predicate UniqueNames(rows: seq<PlatformRow>) {
    forall i, j :: 0 <= i < j < |rows| && rows[i].name.Some? ==> rows[i].name != rows[j].name
  }

  /** Ids are positive, below the counter, increasing (hence unique), and
      non-NULL names are unique. */
  predicate PlatformsWellFormed(t: PlatformTable) {
    && 1 <= t.nextId
    && (forall i :: 0 <= i < |t.rows| ==> 1 <= t.rows[i].id < t.nextId)
    && (forall i, j :: 0 <= i < j < |t.rows| ==> t.rows[i].id < t.rows[j].id)
    && UniqueNames(t.rows)
  }

  /** `INSERT INTO plataforma (nome) VALUES (:nome)` with either
      `ON DUPLICATE KEY UPDATE nome = VALUES(nome)` or `OR IGNORE`: both leave
      an existing name's row as it is. A NULL name never conflicts. */
  function InsertPlatform(t: PlatformTable, name: Option<string>): (r: PlatformTable)
    ensures PlatformsWellFormed(t) ==> PlatformsWellFormed(r)
    ensures forall n :: HasName(r.rows, n) <==> HasName(t.rows, n) || name == Some(n)
    ensures |t.rows| <= |r.rows| && r.rows[..|t.rows|] == t.rows
    ensures t.nextId <= r.nextId
    ensures forall i :: |t.rows| <= i < |r.rows| ==> t.nextId <= r.rows[i].id
    ensures name.Some? && HasName(t.rows, name.value) ==> r == t
  {
    if name.Some? && HasName(t.rows, name.value) then t
    else
      var row := PlatformRow(t.nextId, name);
      HasNameAppend(t.rows, row);
      AppendKeepsWellFormed(t, name);
      assert (t.rows + [row])[..|t.rows|] == t.rows;
      PlatformTable(t.rows + [row], t.nextId + 1)
  }

  lemma HasNameAppend(rows: seq<PlatformRow>, row: PlatformRow)
    ensures forall n :: HasName(rows + [row], n) <==> HasName(rows, n) || row.name == Some(n)
  {
    var r := rows + [row];
    forall n | HasName(r, n) ensures HasName(rows, n) || row.name == Some(n) {
      var i :| 0 <= i < |r| && r[i].name == Some(n);
      if i < |rows| { assert rows[i] == r[i]; }
    }
    forall n | HasName(rows, n) ensures HasName(r, n) {
      var i :| 0 <= i < |rows| && rows[i].name == Some(n);
      assert r[i] == rows[i];
    }
    forall n | row.name == Some(n) ensures HasName(r, n) {
      assert r[|rows|] == row;
    }
  }

  lemma PlatformIdsAppend(rows: seq<PlatformRow>, row: PlatformRow)
    ensures PlatformIds(rows + [row]) == PlatformIds(rows) + {row.id}
  {
    var r := rows + [row];
    forall x | x in PlatformIds(r) ensures x in PlatformIds(rows) + {row.id} {
      var i :| 0 <= i < |r| && r[i].id == x;
      if i < |rows| { assert rows[i] == r[i]; }
    }
    forall x | x in PlatformIds(rows) ensures x in PlatformIds(r) {
      var i :| 0 <= i < |rows| && rows[i].id == x;
      assert r[i] == rows[i];
    }
    assert r[|rows|] == row;
  }

  /** A fresh row with the counter as id and an absent (or NULL) name keeps
      the table well formed. */
  lemma AppendKeepsWellFormed(t: PlatformTable, name: Option<string>)
    requires !(name.Some? && HasName(t.rows, name.value))
    ensures PlatformsWellFormed(t) ==>
      PlatformsWellFormed(PlatformTable(t.rows + [PlatformRow(t.nextId, name)], t.nextId + 1))
  {
    var r := t.rows + [PlatformRow(t.nextId, name)];
    forall i, j | PlatformsWellFormed(t) && 0 <= i < j < |r| && r[i].name.Some? ensures r[i].name != r[j].name {
      if j == |t.rows| {
        assert r[i] == t.rows[i];
      }
    }
  }

  /** The platform loop: one insert per distinct name, in order. */
  function InsertPlatforms(t: PlatformTable, names: seq<Option<string>>): (r: PlatformTable)
    ensures PlatformsWellFormed(t) ==> PlatformsWellFormed(r)
    ensures forall n :: HasName(r.rows, n) <==> HasName(t.rows, n) || Some(n) in names
    ensures |t.rows| <= |r.rows| && r.rows[..|t.rows|] == t.rows
    ensures t.nextId <= r.nextId
    ensures forall i :: |t.rows| <= i < |r.rows| ==> t.nextId <= r.rows[i].id
    ensures (forall x :: x in names ==> x.Some? && HasName(t.rows, x.value)) ==> r == t
    decreases |names|
  {
    if names == [] then t
    else
      var mid := InsertPlatform(t, names[0]);
      var r := InsertPlatforms(mid, names[1..]);
      assert forall x :: x in names <==> x == names[0] || x in names[1..] by {
        assert names == [names[0]] + names[1..];
      }
      assert r.rows[..|t.rows|] == t.rows by {
        assert r.rows[..|t.rows|] == r.rows[..|mid.rows|][..|t.rows|];
      }
      assert forall i :: |t.rows| <= i < |mid.rows| ==> r.rows[i] == mid.rows[i] by {
        forall i | |t.rows| <= i < |mid.rows| ensures r.rows[i] == mid.rows[i] {
          assert r.rows[..|mid.rows|][i] == r.rows[i];
        }
      }
      r
  }

  /** A NULL name in the loop always adds a row with a NULL name. */
  lemma {:induction false} InsertPlatformsAddsNull(t: PlatformTable, names: seq<Option<string>>)
    requires None in names
    ensures var r := InsertPlatforms(t, names);
      exists j :: |t.rows| <= j < |r.rows| && r.rows[j].name.None?
    decreases |names|
  {
    var mid := InsertPlatform(t, names[0]);
    var r := InsertPlatforms(mid, names[1..]);
    assert InsertPlatforms(t, names) == r;
    if names[0].None? {
      assert mid.rows == t.rows + [PlatformRow(t.nextId, None)];
      assert r.rows[..|mid.rows|][|t.rows|] == r.rows[|t.rows|];
      assert r.rows[|t.rows|].name.None?;
    } else {
      assert None in names[1..] by { assert names == [names[0]] + names[1..]; }
      InsertPlatformsAddsNull(mid, names[1..]);
    }
  }

  /** The read-back `dict(zip(df["nome"], df["id_plataforma"]))`: every named
      row contributes name -> id, a later row overriding an earlier one. */
  function NameMap(rows: seq<PlatformRow>): (m: map<string, int>)
    ensures forall n :: n in m <==> HasName(rows, n)
    ensures forall i :: 0 <= i < |rows| && rows[i].name.Some? ==> rows[i].name.value in m
  {
    if rows == [] then map[]
    else
      var front := rows[..|rows| - 1];
      var last := rows[|rows| - 1];
      var m0 := NameMap(front);
      assert rows == front + [last];
      assert forall i :: 0 <= i < |front| ==> front[i] == rows[i];
      HasNameAppend(front, last);
      if last.name.Some? then m0[last.name.value := last.id] else m0
  }

  /** With unique names, a named row's name maps to that row's id. */
  lemma {:induction false} NameMapUnique(rows: seq<PlatformRow>, i: nat)
    requires UniqueNames(rows) && i < |rows| && rows[i].name.Some?
    ensures NameMap(rows)[rows[i].name.value] == rows[i].id
    decreases |rows|
  {
    var front := rows[..|rows| - 1];
    if i < |rows| - 1 {
      assert front[i] == rows[i];
      assert UniqueNames(front) by {
        forall a, b | 0 <= a < b < |front| && front[a].name.Some? ensures front[a].name != front[b].name {
          assert front[a] == rows[a] && front[b] == rows[b];
        }
      }
      NameMapUnique(front, i);
    }
  }

  /** With unique names, the id a name maps to is a stored id. */
  lemma NameMapInIds(rows: seq<PlatformRow>, n: string)
    requires UniqueNames(rows) && n in NameMap(rows)
    ensures NameMap(rows)[n] in PlatformIds(rows)
  {
    var i :| 0 <= i < |rows| && rows[i].name == Some(n);
    NameMapUnique(rows, i);
  }

  /** The join `JOIN plataforma p ON i.id_plataforma = p.id_plataforma`: the
      row with the given id, if any. */
  function FindPlatform(rows: seq<PlatformRow>, id: int): (r: Option<PlatformRow>)
    ensures r.Some? ==> r.value in rows && r.value.id == id
    ensures r.None? ==> id !in PlatformIds(rows)
  {
    if rows == [] then None
    else if rows[0].id == id then Some(rows[0])
    else
      var r := FindPlatform(rows[1..], id);
      assert PlatformIds(rows) == {rows[0].id} + PlatformIds(rows[1..]) by {
        forall x | x in PlatformIds(rows) ensures x in {rows[0].id} + PlatformIds(rows[1..]) {
          var i :| 0 <= i < |rows| && rows[i].id == x;
          if i > 0 { assert rows[1..][i - 1].id == x; }
        }
        forall x | x in PlatformIds(rows[1..]) ensures x in PlatformIds(rows) {
          var i :| 0 <= i < |rows[1..]| && rows[1..][i].id == x;
          assert rows[i + 1].id == x;
        }
      }
      r
  }

  // ------------------------------------------------------------------ conteudo

  function TripleIds(ts: seq<ContentTriple>): set<int> {
    set t | t in ts :: t.id
  }

  /** `INSERT INTO conteudo ... VALUES (..., 'Vídeo', ...) ON DUPLICATE KEY
      UPDATE nome_conteudo = VALUES(nome_conteudo), id_plataforma = VALUES(id_plataforma)`. */
  function UpsertContent(c: map<int, Content>, t: ContentTriple): map<int, Content> {
    if t.id in c then c[t.id := c[t.id].(name := t.name, platform := t.platform)]
    else c[t.id := Content(t.name, VideoKind, t.platform)]
  }

  /** `INSERT OR IGNORE INTO conteudo ... VALUES (..., 'Vídeo', ...)`. */
  function InsertOrIgnoreContent(c: map<int, Content>, t: ContentTriple): map<int, Content> {
    if t.id in c then c else c[t.id := Content(t.name, VideoKind, t.platform)]
  }

  /** The MySQL content loop. */
  function UpsertContents(c: map<int, Content>, ts: seq<ContentTriple>): map<int, Content>
    decreases |ts|
  {
    if ts == [] then c else UpsertContents(UpsertContent(c, ts[0]), ts[1..])
  }

  /** The SQLite content loop. */
  function InsertOrIgnoreContents(c: map<int, Content>, ts: seq<ContentTriple>): map<int, Content>
    decreases |ts|
  {
    if ts == [] then c else InsertOrIgnoreContents(InsertOrIgnoreContent(c, ts[0]), ts[1..])
  }

  /** The last triple of `ts` carrying `id`. */
  function LastWith(ts: seq<ContentTriple>, id: int): (t: ContentTriple)
    requires id in TripleIds(ts)
    ensures t in ts && t.id == id
  {
    assert ts != [];
    if id in TripleIds(ts[1..]) then LastWith(ts[1..], id) else ts[0]
  }

  /** The first triple of `ts` carrying `id`. */
  function FirstWith(ts: seq<ContentTriple>, id: int): (t: ContentTriple)
    requires id in TripleIds(ts)
    ensures t in ts && t.id == id
  {
    assert ts != [];
    if ts[0].id == id then ts[0]
    else
      assert id in TripleIds(ts[1..]) by {
        var t :| t in ts && t.id == id;
        assert t in ts[1..] by { assert ts == [ts[0]] + ts[1..]; }
      }
      FirstWith(ts[1..], id)
  }

  lemma TripleIdsSplit(ts: seq<ContentTriple>)
    requires ts != []
    ensures TripleIds(ts) == {ts[0].id} + TripleIds(ts[1..])
  {
    assert ts == [ts[0]] + ts[1..];
    assert forall t :: t in ts <==> t == ts[0] || t in ts[1..];
  }

  /** Last write wins: after the MySQL loop, an id seen in the batch holds the
      name and platform of its last triple and keeps the tipo_conteudo it
      had ('Vídeo' if it is new); other rows are untouched. */
  lemma {:induction false} UpsertContentsLastWins(c: map<int, Content>, ts: seq<ContentTriple>)
    ensures forall id :: id in UpsertContents(c, ts) <==> id in c || id in TripleIds(ts)
    ensures forall id :: id in TripleIds(ts) ==>
      UpsertContents(c, ts)[id] ==
        Content(LastWith(ts, id).name, if id in c then c[id].kind else VideoKind, LastWith(ts, id).platform)
    ensures forall id :: id in c && id !in TripleIds(ts) ==> UpsertContents(c, ts)[id] == c[id]
    decreases |ts|
  {
    if ts != [] {
      var c' := UpsertContent(c, ts[0]);
      UpsertContentsLastWins(c', ts[1..]);
      TripleIdsSplit(ts);
    }
  }

  /** The MySQL content loop never drops a row and stores every id of its batch. */
  lemma UpsertContentsKeys(c: map<int, Content>, ts: seq<ContentTriple>)
    ensures c.Keys <= UpsertContents(c, ts).Keys
    ensures forall t :: t in ts ==> t.id in UpsertContents(c, ts)
  {
    UpsertContentsLastWins(c, ts);
    forall id | id in c ensures id in UpsertContents(c, ts) {
    }
    forall t | t in ts ensures t.id in UpsertContents(c, ts) {
      assert t.id in TripleIds(ts);
    }
  }

  /** The triple at position k wins when no later triple has its id. */
  lemma {:induction false} LastWithIsLast(ts: seq<ContentTriple>, k: nat)
    requires k < |ts|
    requires forall j :: k < j < |ts| ==> ts[j].id != ts[k].id
    ensures ts[k].id in TripleIds(ts) && LastWith(ts, ts[k].id) == ts[k]
  {
    assert ts[k] in ts;
    if k > 0 {
      assert ts[1..][k - 1] == ts[k];
      assert ts[k] in ts[1..];
      LastWithIsLast(ts[1..], k - 1);
    }
  }

  /** Re-running the MySQL content loop on its own outcome changes nothing. */
  lemma UpsertContentsIdempotent(c: map<int, Content>, ts: seq<ContentTriple>)
    ensures UpsertContents(UpsertContents(c, ts), ts) == UpsertContents(c, ts)
  {
    var r1 := UpsertContents(c, ts);
    var r2 := UpsertContents(r1, ts);
    UpsertContentsLastWins(c, ts);
    UpsertContentsLastWins(r1, ts);
    forall id ensures id in r2 <==> id in r1 {
      if id in r1 { assert id in c || id in TripleIds(ts); }
    }
    assert r2.Keys == r1.Keys;
    forall id | id in r2 ensures r2[id] == r1[id] {
      if id in TripleIds(ts) {
        assert r1[id].kind == if id in c then c[id].kind else VideoKind;
      }
    }
  }

  /** First write wins: after the SQLite loop, a row that existed is never
      modified and each new id holds its first triple with kind 'Vídeo'. */
  lemma {:induction false} InsertOrIgnoreContentsFirstWins(c: map<int, Content>, ts: seq<ContentTriple>)
    ensures forall id :: id in InsertOrIgnoreContents(c, ts) <==> id in c || id in TripleIds(ts)
    ensures forall id :: id in c ==> InsertOrIgnoreContents(c, ts)[id] == c[id]
    ensures forall id :: id !in c && id in TripleIds(ts) ==>
      InsertOrIgnoreContents(c, ts)[id] == Content(FirstWith(ts, id).name, VideoKind, FirstWith(ts, id).platform)
    decreases |ts|
  {
    if ts != [] {
      var c' := InsertOrIgnoreContent(c, ts[0]);
      InsertOrIgnoreContentsFirstWins(c', ts[1..]);
      TripleIdsSplit(ts);
    }
  }

  /** The SQLite content loop never drops a row and stores every id of its batch. */
  lemma InsertOrIgnoreContentsKeys(c: map<int, Content>, ts: seq<ContentTriple>)
    ensures c.Keys <= InsertOrIgnoreContents(c, ts).Keys
    ensures forall t :: t in ts ==> t.id in InsertOrIgnoreContents(c, ts)
  {
    InsertOrIgnoreContentsFirstWins(c, ts);
    forall id | id in c ensures id in InsertOrIgnoreContents(c, ts) {
    }
    forall t | t in ts ensures t.id in InsertOrIgnoreContents(c, ts) {
      assert t.id in TripleIds(ts);
    }
  }

  /** Re-running the SQLite content loop on its own outcome changes nothing. */
  lemma InsertOrIgnoreContentsIdempotent(c: map<int, Content>, ts: seq<ContentTriple>)
    ensures InsertOrIgnoreContents(InsertOrIgnoreContents(c, ts), ts) == InsertOrIgnoreContents(c, ts)
  {
    var r1 := InsertOrIgnoreContents(c, ts);
    var r2 := InsertOrIgnoreContents(r1, ts);
    InsertOrIgnoreContentsFirstWins(c, ts);
    InsertOrIgnoreContentsFirstWins(r1, ts);
    forall id ensures id in r2 <==> id in r1 {
      if id in r1 { assert id in c || id in TripleIds(ts); }
    }
    assert r2.Keys == r1.Keys;
    forall id | id in r2 ensures r2[id] == r1[id] {
      assert id in r1;
    }
  }

  // ------------------------------------------------------------------- whole store

  predicate ContentsReferToPlatforms(contents: map<int, Content>, ids: set<int>) {
    forall id :: id in contents ==> contents[id].platform in ids
  }

  /** Every foreign key of the fact row resolves. */
  predicate References(s: DbState, x: Interaction) {
    x.user in s.users && x.content in s.contents && x.platform in PlatformIds(s.platforms.rows)
  }

  predicate AllReference(s: DbState, xs: seq<Interaction>) {
    forall i :: 0 <= i < |xs| ==> References(s, xs[i])
  }

  /** References stay valid in a state that keeps every user, content and platform id. */
  lemma ReferencesGrow(s: DbState, r: DbState, xs: seq<Interaction>)
    requires s.users <= r.users && s.contents.Keys <= r.contents.Keys
    requires PlatformIds(s.platforms.rows) <= PlatformIds(r.platforms.rows)
    requires AllReference(s, xs)
    ensures AllReference(r, xs)
  {
    forall i | 0 <= i < |xs| ensures References(r, xs[i]) {
      assert References(s, xs[i]);
    }
  }

  lemma AllReferenceAppend(r: DbState, a: seq<Interaction>, b: seq<Interaction>)
    requires AllReference(r, a) && AllReference(r, b)
    ensures AllReference(r, a + b)
  {
    forall i | 0 <= i < |a + b| ensures References(r, (a + b)[i]) {
      if i < |a| { assert (a + b)[i] == a[i]; } else { assert (a + b)[i] == b[i - |a|]; }
    }
  }

  /** Unique platform ids and names, and every stored reference exists. */
  predicate WellFormed(s: DbState) {
    && PlatformsWellFormed(s.platforms)
    && ContentsReferToPlatforms(s.contents, PlatformIds(s.platforms.rows))
    && AllReference(s, s.interactions)
  }

  /** Tables never lose rows, so a reference that resolved keeps resolving. */
  lemma PlatformIdsGrow(t: PlatformTable, r: PlatformTable)
    requires |t.rows| <= |r.rows| && r.rows[..|t.rows|] == t.rows
    ensures PlatformIds(t.rows) <= PlatformIds(r.rows)
  {
    forall x | x in PlatformIds(t.rows) ensures x in PlatformIds(r.rows) {
      var i :| 0 <= i < |t.rows| && t.rows[i].id == x;
      assert r.rows[..|t.rows|][i] == r.rows[i];
    }
  }

  /** Content rows of a loop whose triples all name existing platforms refer to
      existing platforms. */
  lemma UpsertContentsClosed(c: map<int, Content>, ts: seq<ContentTriple>, ids: set<int>)
    requires ContentsReferToPlatforms(c, ids)
    requires forall t :: t in ts ==> t.platform in ids
    ensures ContentsReferToPlatforms(UpsertContents(c, ts), ids)
  {
    UpsertContentsLastWins(c, ts);
  }

  lemma InsertOrIgnoreContentsClosed(c: map<int, Content>, ts: seq<ContentTriple>, ids: set<int>)
    requires ContentsReferToPlatforms(c, ids)
    requires forall t :: t in ts ==> t.platform in ids
    ensures ContentsReferToPlatforms(InsertOrIgnoreContents(c, ts), ids)
  {
    InsertOrIgnoreContentsFirstWins(c, ts);
  }

  /** An existing name keeps its id, and a name that was not there gets an id
      no earlier row has. */
  lemma InsertPlatformsKeepsAndFreshens(t: PlatformTable, names: seq<Option<string>>)
    requires PlatformsWellFormed(t)
    ensures var r := InsertPlatforms(t, names);
      && (forall n :: HasName(t.rows, n) ==> NameMap(r.rows)[n] == NameMap(t.rows)[n])
      && (forall n :: !HasName(t.rows, n) && Some(n) in names ==> NameMap(r.rows)[n] !in PlatformIds(t.rows))
  {
    forall n | HasName(t.rows, n) ensures NameMap(InsertPlatforms(t, names).rows)[n] == NameMap(t.rows)[n] {
      InsertPlatformsKeepsId(t, names, n);
    }
    forall n | !HasName(t.rows, n) && Some(n) in names
      ensures NameMap(InsertPlatforms(t, names).rows)[n] !in PlatformIds(t.rows)
    {
      InsertPlatformsFreshId(t, names, n);
    }
  }

  lemma InsertPlatformsKeepsId(t: PlatformTable, names: seq<Option<string>>, n: string)
    requires PlatformsWellFormed(t) && HasName(t.rows, n)
    ensures NameMap(InsertPlatforms(t, names).rows)[n] == NameMap(t.rows)[n]
  {
    var r := InsertPlatforms(t, names);
    var j :| 0 <= j < |t.rows| && t.rows[j].name == Some(n);
    assert r.rows[..|t.rows|][j] == r.rows[j];
    assert PlatformsWellFormed(r);
    NameMapUnique(t.rows, j);
    NameMapUnique(r.rows, j);
  }

  lemma InsertPlatformsFreshId(t: PlatformTable, names: seq<Option<string>>, n: string)
    requires PlatformsWellFormed(t) && !HasName(t.rows, n) && Some(n) in names
    ensures NameMap(InsertPlatforms(t, names).rows)[n] !in PlatformIds(t.rows)
  {
    var r := InsertPlatforms(t, names);
    assert HasName(r.rows, n);
    var j :| 0 <= j < |r.rows| && r.rows[j].name == Some(n);
    forall i | 0 <= i < |t.rows| ensures r.rows[i] == t.rows[i] {
      assert r.rows[..|t.rows|][i] == r.rows[i];
    }
    assert |t.rows| <= j;
    assert t.nextId <= r.rows[j].id;
    assert PlatformsWellFormed(r);
    NameMapUnique(r.rows, j);
    forall x | x in PlatformIds(t.rows) ensures x < t.nextId {
      var i :| 0 <= i < |t.rows| && t.rows[i].id == x;
    }
  }

  /** Valid foreign keys of a fact row. */
  predicate ResolvableRow(r: Record, m: map<string, int>) {
    r.user.Some? && r.content.Some? && r.platform.Some? && r.platform.value in m
  }

  predicate Resolvable(rows: seq<Record>, m: map<string, int>) {
    forall i :: 0 <= i < |rows| ==> ResolvableRow(rows[i], m)
  }

  /** The projection onto the six interacao columns, after
      `df["id_plataforma"] = df["plataforma"].map(mapa_plataformas)`. */
  function Fact(r: Record, m: map<string, int>): Interaction
    requires ResolvableRow(r, m)
  {
    Interaction(r.user.value, r.content.value, m[r.platform.value], r.kind, r.timestamp, r.duration)
  }

  function Facts(rows: seq<Record>, m: map<string, int>): (f: seq<Interaction>)
    requires Resolvable(rows, m)
    ensures |f| == |rows| && forall i :: 0 <= i < |rows| ==> f[i] == Fact(rows[i], m)
  {
    seq(|rows|, i requires 0 <= i < |rows| && Resolvable(rows, m) => Fact(rows[i], m))
  }

  /** The interacao row `x` records the CSV row `row`: the same user and
      content ids, the kind with `view_start` read as `view`, the same
      timestamp and duration, and the id of the platform row named `row.platform`. */
  predicate Describes(x: Interaction, row: Record, platforms: seq<PlatformRow>) {
    && Some(x.user) == row.user
    && Some(x.content) == row.content
    && x.kind == (if row.kind == LegacyViewKind then ViewKind else row.kind)
    && x.time == row.timestamp
    && x.duration == row.duration
    && FindPlatform(platforms, x.platform) == Some(PlatformRow(x.platform, row.platform))
  }

  /** Row by row, `xs` records `rows`. */
  predicate DescribesAll(xs: seq<Interaction>, rows: seq<Record>, platforms: seq<PlatformRow>) {
    |xs| == |rows| && forall k :: 0 <= k < |rows| ==> Describes(xs[k], rows[k], platforms)
  }

  /** The platform id of a fact row names the platform row of its CSV row. */
  lemma FactNamesPlatform(row: Record, p: PlatformTable)
    requires PlatformsWellFormed(p)
    requires ResolvableRow(row, NameMap(p.rows))
    ensures var x := Fact(row, NameMap(p.rows));
      FindPlatform(p.rows, x.platform) == Some(PlatformRow(x.platform, row.platform))
  {
    NameMapResolves(p, row.platform.value);
  }

  /** The fact derived from a CSV row, after the view_start rewrite, describes that row. */
  lemma FactDescribesRow(row: Record, prepared: Record, p: PlatformTable)
    requires PlatformsWellFormed(p)
    requires prepared == if row.kind == LegacyViewKind then row.(kind := ViewKind) else row
    requires ResolvableRow(prepared, NameMap(p.rows))
    ensures Describes(Fact(prepared, NameMap(p.rows)), row, p.rows)
  {
    FactNamesPlatform(prepared, p);
  }

  /** With increasing ids the join by id finds exactly the row with that id. */
  lemma {:induction false} FindPlatformFinds(rows: seq<PlatformRow>, j: nat)
    requires j < |rows|
    requires forall a, b :: 0 <= a < b < |rows| ==> rows[a].id < rows[b].id
    ensures FindPlatform(rows, rows[j].id) == Some(rows[j])
  {
    if j > 0 {
      assert rows[0].id < rows[j].id;
      assert rows[1..][j - 1] == rows[j];
      FindPlatformFinds(rows[1..], j - 1);
    }
  }

  /** The key resolver is exact: the id a name maps to belongs to the row
      carrying that name. */
  lemma NameMapResolves(t: PlatformTable, n: string)
    requires PlatformsWellFormed(t) && HasName(t.rows, n)
    ensures FindPlatform(t.rows, NameMap(t.rows)[n]) == Some(PlatformRow(NameMap(t.rows)[n], Some(n)))
  {
    var j :| 0 <= j < |t.rows| && t.rows[j].name == Some(n);
    NameMapUnique(t.rows, j);
    FindPlatformFinds(t.rows, j);
  }
}
