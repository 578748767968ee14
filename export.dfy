/** relatorios.py: running one report query, previewing its first rows and
    exporting the result under `data/` with a `.csv` file name. The query
    itself, the printing and the file writing are not modelled here: the
    query's outcome comes in as a value. */
module Export {
  import opened Records

  const CsvSuffix := ".csv"
  const DataDir := "data"

  predicate EndsWith(s: string, suffix: string) {
    |suffix| <= |s| && s[|s| - |suffix|..] == suffix
  }

  predicate StartsWith(s: string, prefix: string) {
    |prefix| <= |s| && s[..|prefix|] == prefix
  }

  /** The file name normalisation: `.csv` is appended unless the name already
      ends with it. */
  function CsvName(name: string): (r: string)
    ensures EndsWith(r, CsvSuffix)
    ensures EndsWith(name, CsvSuffix) <==> r == name
    ensures !EndsWith(name, CsvSuffix) <==> r == name + CsvSuffix
  {
    if EndsWith(name, CsvSuffix) then name else name + CsvSuffix
  }

  /** Normalising a normalised name changes nothing. */
  lemma CsvNameIdempotent(name: string)
    ensures CsvName(CsvName(name)) == CsvName(name)
  {
  }

  /** POSIX `os.path.join` of two parts: an absolute second part replaces the
      first; otherwise a `/` separates them unless the first is empty or
      already ends with one. */
  function JoinPath(a: string, b: string): (r: string)
    ensures StartsWith(b, "/") ==> r == b
    ensures !StartsWith(b, "/") && a != [] && !EndsWith(a, "/") ==> r == a + "/" + b
    ensures !StartsWith(b, "/") && (a == [] || EndsWith(a, "/")) ==> r == a + b
    ensures EndsWith(r, b)
  {
    if StartsWith(b, "/") then b
    else if a == [] || EndsWith(a, "/") then a + b
    else a + "/" + b
  }

  /** The export target: none when `nome_csv` is missing or empty (the name's
      truth value), otherwise `data` joined with the normalised name. */
  function ExportPath(name: Option<string>): (r: Option<string>)
    ensures r.Some? <==> name.Some? && name.value != []
    ensures r.Some? ==> EndsWith(r.value, CsvSuffix) && EndsWith(r.value, CsvName(name.value))
  {
    match name
    case None => None
    case Some(n) => if n == [] then None else Some(JoinPath(DataDir, CsvName(n)))
  }

  /** A relative name lands inside `data/`; an absolute one is kept as it is. */
  lemma ExportPathInData(n: string)
    requires n != []
    ensures !StartsWith(n, "/") ==> ExportPath(Some(n)) == Some(DataDir + "/" + CsvName(n))
    ensures StartsWith(n, "/") ==> ExportPath(Some(n)) == Some(CsvName(n))
  {
    var c := CsvName(n);
    if StartsWith(n, "/") {
      assert c[..1] == n[..1];
    } else {
      assert c[..1] == n[..1];
      assert !StartsWith(c, "/");
    }
  }

  /** The row count announced in the success message,
      `min(exibir_linhas, len(df))`. */
  function PreviewCount(show: int, count: nat): (r: int)
    ensures r <= show && r <= count
    ensures r == show || r == count
  {
    if show < count then show else count
  }

  /** pandas `head(n)`: the first `n` rows, or for a negative `n` every row
      but the last `-n`. */
  function Head<R>(rows: seq<R>, n: int): (r: seq<R>)
    ensures |r| <= |rows| && r == rows[..|r|]
    ensures n >= 0 ==> |r| == PreviewCount(n, |rows|)
    ensures n < 0 ==> |r| == if |rows| + n < 0 then 0 else |rows| + n
  {
    if n >= 0 then (if n < |rows| then rows[..n] else rows)
    else if |rows| + n < 0 then []
    else rows[..|rows| + n]
  }

  /** What one call yields: the result table, the rows it previews and the
      file it exports to. */
  datatype ReportRun<R> = ReportRun(rows: seq<R>, preview: seq<R>, exported: Option<string>)

  /** `executar_relatorio_sql` over the query's outcome: a failing query gives
      an empty table and no export; otherwise the table is returned, its head
      is previewed when it has rows, and it is exported when a name is given,
      even when it is empty. */
  function RunReport<R, E>(outcome: Result<seq<R>, E>, name: Option<string>, show: int): (r: ReportRun<R>)
    ensures outcome.Err? ==> r.rows == [] && r.preview == [] && r.exported.None?
    ensures outcome.Ok? ==> r.rows == outcome.value && r.exported == ExportPath(name)
    ensures r.rows == [] ==> r.preview == []
    ensures |r.preview| <= |r.rows| && r.preview == r.rows[..|r.preview|]
    ensures r.rows != [] && show >= 0 ==> |r.preview| == PreviewCount(show, |r.rows|)
  {
    match outcome
    case Err(_) => ReportRun([], [], None)
    case Ok(rows) =>
      var preview := if rows == [] then [] else Head(rows, show);
      ReportRun(rows, preview, ExportPath(name))
  }

  /** The default preview of ten rows never shows more than ten. */
  lemma DefaultPreview<R, E>(outcome: Result<seq<R>, E>, name: Option<string>)
    ensures |RunReport(outcome, name, 10).preview| <= 10
  {
  }
}
