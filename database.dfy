/** The database both loaders write to: one field per table, and one method
    per kind of SQL statement the loaders execute. */
module Storage {
  import opened Records
  import opened Tables

  class Database {
    var tablesCreated: bool
    var platformRows: seq<PlatformRow>
    var nextPlatformId: int
    var users: set<int>
    var contents: map<int, Content>
    var interactions: seq<Interaction>
    var reports: map<string, Report>

    function Platforms(): PlatformTable
      reads this
    {
      PlatformTable(platformRows, nextPlatformId)
    }

    function State(): DbState
      reads this
    {
      DbState(Platforms(), users, contents, interactions, reports)
    }

    /** Keys are unique, references resolve, and before the schema exists the
        four loader tables are empty with a fresh counter. */
    ghost predicate Valid()
      reads this
    {
      && WellFormed(State())
      && (!tablesCreated ==>
            platformRows == [] && nextPlatformId == 1 && users == {} && contents == map[] && interactions == [])
    }

    /** A database file without the loader's tables. */
    constructor ()
      ensures Valid() && !tablesCreated
      ensures platformRows == [] && users == {} && contents == map[] && interactions == [] && reports == map[]
    {
      tablesCreated := false;
      platformRows := [];
      nextPlatformId := 1;
      users := {};
      contents := map[];
      interactions := [];
      reports := map[];
    }

    /** The four `CREATE TABLE IF NOT EXISTS` statements: the tables exist
        afterwards and no row or counter changes. */
    method CreateTables()
      requires Valid()
      modifies this`tablesCreated
      ensures Valid() && tablesCreated
      ensures State() == old(State())
    {
      tablesCreated := true;
    }

    /** `INSERT INTO plataforma (nome) VALUES (:nome)`, in either dialect. */
    method ExecutePlatformInsert(name: Option<string>)
      modifies this`platformRows, this`nextPlatformId
      ensures Platforms() == InsertPlatform(old(Platforms()), name)
    {
      var t := InsertPlatform(Platforms(), name);
      platformRows, nextPlatformId := t.rows, t.nextId;
    }

    /** The platform loop shared by both loaders: one insert per name, in order. */
    method InsertPlatformNames(names: seq<Option<string>>)
      modifies this`platformRows, this`nextPlatformId
      ensures Platforms() == InsertPlatforms(old(Platforms()), names)
    {
      for i := 0 to |names|
        invariant InsertPlatforms(Platforms(), names[i..]) == InsertPlatforms(old(Platforms()), names)
      {
        assert names[i..][0] == names[i] && names[i..][1..] == names[i + 1..];
        ExecutePlatformInsert(names[i]);
      }
    }

    /** `INSERT INTO usuario (id_usuario) VALUES (:id_usuario)` with either
        `ON DUPLICATE KEY UPDATE id_usuario = VALUES(id_usuario)` or `OR IGNORE`. */
    method ExecuteUserInsert(id: int)
      modifies this`users
      ensures users == old(users) + {id}
    {
      users := users + {id};
    }

    /** The MySQL content statement (ON DUPLICATE KEY UPDATE). */
    method ExecuteContentUpsert(t: ContentTriple)
      modifies this`contents
      ensures contents == UpsertContent(old(contents), t)
    {
      contents := UpsertContent(contents, t);
    }

    /** The SQLite content statement (INSERT OR IGNORE). */
    method ExecuteContentInsertOrIgnore(t: ContentTriple)
      modifies this`contents
      ensures contents == InsertOrIgnoreContent(old(contents), t)
    {
      contents := InsertOrIgnoreContent(contents, t);
    }

    /** `INSERT INTO relatorios_sql (nome, descricao, query_sql) ... ON DUPLICATE
        KEY UPDATE descricao = VALUES(descricao), query_sql = VALUES(query_sql)`. */
    method ExecuteReportUpsert(name: string, r: Report)
      modifies this`reports
      ensures reports == old(reports)[name := r]
    {
      reports := reports[name := r];
    }

    /** `df_final.to_sql(name="interacao", if_exists="append")`. */
    method AppendInteractions(facts: seq<Interaction>)
      modifies this`interactions
      ensures interactions == old(interactions) + facts
    {
      interactions := interactions + facts;
    }
  }
}
