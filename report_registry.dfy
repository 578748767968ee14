/** inserir_relatorios.py: one transaction that upserts every entry of the
    report dictionary into relatorios_sql, keyed by nome, with a description
    derived from the name and the query text trimmed. */
module ReportRegistry {
  import opened Records
  import opened Tables
  import opened Storage
  import opened Reports

  // ---------------------------------------------------------------- strings

  /** Python's `str.isspace` for one character. */
  predicate IsSpace(c: char) {
    var n := c as int;
    || 9 <= n <= 13 || 0x1c <= n <= 0x20 || n == 0x85 || n == 0xa0 || n == 0x1680
    || 0x2000 <= n <= 0x200a || n == 0x2028 || n == 0x2029 || n == 0x202f || n == 0x205f || n == 0x3000
  }

  /** Drops the leading whitespace. */
  function TrimLeft(s: string): (r: string)
    ensures |r| <= |s| && r == s[|s| - |r|..]
    ensures forall k :: 0 <= k < |s| - |r| ==> IsSpace(s[k])
    ensures r != [] ==> !IsSpace(r[0])
    decreases |s|
  {
    if s != [] && IsSpace(s[0]) then TrimLeft(s[1..]) else s
  }

  /** Drops the trailing whitespace. */
  function TrimRight(s: string): (r: string)
    ensures |r| <= |s| && r == s[..|r|]
    ensures forall k :: |r| <= k < |s| ==> IsSpace(s[k])
    ensures r != [] ==> !IsSpace(r[|r| - 1])
    decreases |s|
  {
    if s != [] && IsSpace(s[|s| - 1]) then TrimRight(s[..|s| - 1]) else s
  }

  /** `str.strip()`: neither end of the result is whitespace. */
  function Strip(s: string): (r: string)
    ensures |r| <= |s|
    ensures r != [] ==> !IsSpace(r[0]) && !IsSpace(r[|r| - 1])
  {
    TrimRight(TrimLeft(s))
  }

  /** The stripped text is a slice of the text, and everything cut off on
      either side is whitespace. */
  lemma StripSlice(s: string)
    ensures exists i, j ::
      && 0 <= i <= j <= |s| && Strip(s) == s[i..j]
      && (forall k :: 0 <= k < i ==> IsSpace(s[k]))
      && (forall k :: j <= k < |s| ==> IsSpace(s[k]))
  {
    var l := TrimLeft(s);
    var r := TrimRight(l);
    var i := |s| - |l|;
    var j := i + |r|;
    assert r == s[i..j];
    forall k | j <= k < |s| ensures IsSpace(s[k]) {
      assert s[k] == l[k - i];
    }
  }

  /** Stripping a stripped text changes nothing. */
  lemma StripIdempotent(s: string)
    ensures Strip(Strip(s)) == Strip(s)
  {
    var r := Strip(s);
    assert TrimLeft(r) == r;
    assert TrimRight(r) == r;
  }

  /** A text of whitespace only strips to the empty text. */
  lemma StripBlank(s: string)
    requires forall k :: 0 <= k < |s| ==> IsSpace(s[k])
    ensures Strip(s) == []
  {
  }

  /** `replace('_', ' ')`. */
  function ReplaceUnderscores(s: string): (r: string)
    ensures |r| == |s|
    ensures forall k :: 0 <= k < |s| ==> r[k] == (if s[k] == '_' then ' ' else s[k])
  {
    seq(|s|, k requires 0 <= k < |s| => if s[k] == '_' then ' ' else s[k])
  }

  function Upper(c: char): char {
    if 'a' <= c <= 'z' then (c as int - 32) as char else c
  }

  function Lower(c: char): char {
    if 'A' <= c <= 'Z' then (c as int + 32) as char else c
  }

  /** `str.capitalize()` on ASCII letters: the first character upper case,
      every other one lower case. */
  function Capitalize(s: string): (r: string)
    ensures |r| == |s|
    ensures forall k :: 0 <= k < |s| ==> Lower(r[k]) == Lower(s[k])
    ensures r != [] ==> !('a' <= r[0] <= 'z')
    ensures forall k :: 0 < k < |r| ==> !('A' <= r[k] <= 'Z')
  {
    if s == [] then [] else [Upper(s[0])] + seq(|s| - 1, k requires 0 <= k < |s| - 1 => Lower(s[k + 1]))
  }

  /** Capitalising twice is capitalising once. */
  lemma CapitalizeIdempotent(s: string)
    ensures Capitalize(Capitalize(s)) == Capitalize(s)
  {
  }

  /** The descricao of a report. */
  function Describe(name: string): (d: string)
    ensures |d| == |name|
    ensures forall k :: 0 <= k < |name| ==> d[k] != '_'
    ensures forall k :: 0 <= k < |name| && name[k] == '_' ==> d[k] == ' '
    ensures forall k :: 0 <= k < |name| && name[k] != '_' ==> Lower(d[k]) == Lower(name[k])
  {
    Capitalize(ReplaceUnderscores(name))
  }

  // ---------------------------------------------------------------- registry

  /** The row stored for one dictionary entry. */
  function Entry(name: string, query: string): Report {
    Report(Describe(name), Strip(query))
  }

  /** The rows the dictionary's items turn into, keyed by their names. */
  function Registered(es: seq<(string, string)>): (rs: seq<(string, Report)>)
    ensures |rs| == |es|
    ensures forall i :: 0 <= i < |es| ==> rs[i].0 == es[i].0 && rs[i].1 == Report(Describe(es[i].0), Strip(es[i].1))
  {
    seq(|es|, i requires 0 <= i < |es| => (es[i].0, Entry(es[i].0, es[i].1)))
  }

  function NamesOf<V>(rs: seq<(string, V)>): set<string> {
    set i | 0 <= i < |rs| :: rs[i].0
  }

  predicate UniqueNames<V>(rs: seq<(string, V)>) {
    forall i, j :: 0 <= i < j < |rs| ==> rs[i].0 != rs[j].0
  }

  /** The table after the upserts of the rows, in order: each row replaces
      whatever was stored under its name. */
  function UpsertAll<V>(m: map<string, V>, rs: seq<(string, V)>): map<string, V>
    decreases |rs|
  {
    if rs == [] then m
    else
      var (name, v) := rs[|rs| - 1];
      UpsertAll(m, rs[..|rs| - 1])[name := v]
  }

  /** The insert loop inside its transaction, over the dictionary's items. */
  method UpsertEntries(db: Database, es: seq<(string, string)>)
    modifies db`reports
    ensures db.reports == UpsertAll(old(db.reports), Registered(es))
  {
    ghost var rs := Registered(es);
    for i := 0 to |es|
      invariant db.reports == UpsertAll(old(db.reports), rs[..i])
    {
      var (name, query) := es[i];
      assert rs[..i + 1][..i] == rs[..i];
      db.ExecuteReportUpsert(name, Entry(name, query));
    }
    assert rs[..|es|] == rs;
  }

  /** `inserir_relatorios`. */
  method InsertReports(db: Database)
    modifies db`reports
    ensures db.reports == UpsertAll(old(db.reports), Registered(Consultas))
  {
    UpsertEntries(db, Consultas);
  }

  lemma NamesOfSnoc<V>(rs: seq<(string, V)>)
    requires rs != []
    ensures NamesOf(rs) == NamesOf(rs[..|rs| - 1]) + {rs[|rs| - 1].0}
  {
    var front := rs[..|rs| - 1];
    forall n | n in NamesOf(rs) ensures n in NamesOf(front) + {rs[|rs| - 1].0} {
      var i :| 0 <= i < |rs| && rs[i].0 == n;
      if i < |rs| - 1 {
        assert front[i] == rs[i];
      }
    }
    forall n | n in NamesOf(front) ensures n in NamesOf(rs) {
      var i :| 0 <= i < |front| && front[i].0 == n;
      assert rs[i] == front[i];
    }
  }

  /** The names afterwards are the old names and the names of the rows. */
  lemma {:induction false} RegistryKeys<V>(m: map<string, V>, rs: seq<(string, V)>)
    ensures UpsertAll(m, rs).Keys == m.Keys + NamesOf(rs)
    decreases |rs|
  {
    if rs != [] {
      RegistryKeys(m, rs[..|rs| - 1]);
      NamesOfSnoc(rs);
    }
  }

  /** With distinct names, each row is stored under its name, whether the
      name was new or not. */
  lemma {:induction false} RegistryValues<V>(m: map<string, V>, rs: seq<(string, V)>)
    requires UniqueNames(rs)
    ensures forall i :: 0 <= i < |rs| ==> rs[i].0 in UpsertAll(m, rs) && UpsertAll(m, rs)[rs[i].0] == rs[i].1
    decreases |rs|
  {
    if rs != [] {
      var front := rs[..|rs| - 1];
      assert UniqueNames(front) by {
        forall i, j | 0 <= i < j < |front| ensures front[i].0 != front[j].0 {
          assert front[i] == rs[i] && front[j] == rs[j];
        }
      }
      RegistryValues(m, front);
      forall i | 0 <= i < |rs| - 1
        ensures rs[i].0 in UpsertAll(m, rs) && UpsertAll(m, rs)[rs[i].0] == rs[i].1
      {
        assert front[i] == rs[i];
      }
    }
  }

  /** Rows with other names are untouched. */
  lemma {:induction false} RegistryOthers<V>(m: map<string, V>, rs: seq<(string, V)>, n: string)
    requires n in m && n !in NamesOf(rs)
    ensures n in UpsertAll(m, rs) && UpsertAll(m, rs)[n] == m[n]
    decreases |rs|
  {
    if rs != [] {
      var front := rs[..|rs| - 1];
      assert n != rs[|rs| - 1].0;
      assert n !in NamesOf(front) by {
        forall i | 0 <= i < |front| ensures front[i].0 != n {
          assert front[i] == rs[i];
        }
      }
      RegistryOthers(m, front, n);
    }
  }

  /** Rows that are already stored change nothing. */
  lemma {:induction false} UpsertPresent<V>(m: map<string, V>, rs: seq<(string, V)>)
    requires forall i :: 0 <= i < |rs| ==> rs[i].0 in m && m[rs[i].0] == rs[i].1
    ensures UpsertAll(m, rs) == m
    decreases |rs|
  {
    if rs != [] {
      var front := rs[..|rs| - 1];
      forall i | 0 <= i < |front| ensures front[i].0 in m && m[front[i].0] == front[i].1 {
        assert front[i] == rs[i];
      }
      UpsertPresent(m, front);
    }
  }

  /** Upserting the same rows again leaves the table as it is. */
  lemma RegistryIdempotent<V>(m: map<string, V>, rs: seq<(string, V)>)
    requires UniqueNames(rs)
    ensures UpsertAll(UpsertAll(m, rs), rs) == UpsertAll(m, rs)
  {
    RegistryValues(m, rs);
    UpsertPresent(UpsertAll(m, rs), rs);
  }

  /** The table grows by exactly the names that were not there before. */
  lemma RegistryCount<V>(m: map<string, V>, rs: seq<(string, V)>)
    ensures |UpsertAll(m, rs).Keys| == |m.Keys| + |NamesOf(rs) - m.Keys|
  {
    RegistryKeys(m, rs);
    assert m.Keys + NamesOf(rs) == m.Keys + (NamesOf(rs) - m.Keys);
    assert m.Keys * (NamesOf(rs) - m.Keys) == {};
  }

  /** The report names are pairwise distinct. */
  lemma ReportNamesUnique()
    ensures forall i, j :: 0 <= i < j < |ReportNames| ==> ReportNames[i] != ReportNames[j]
  {
    var n := ReportNames;
    assert |n[0]| == 28 && |n[1]| == 28 && |n[2]| == 36 && |n[3]| == 25;
    assert |n[4]| == 28 && |n[5]| == 26 && |n[6]| == 24 && |n[7]| == 40;
    assert n[0][0] == 'r' && n[1][0] == 'p' && n[4][0] == 'i';
  }

  /** Items with distinct names give rows with distinct names. */
  lemma RegisteredUnique(es: seq<(string, string)>)
    requires UniqueNames(es)
    ensures UniqueNames(Registered(es)) && NamesOf(Registered(es)) == NamesOf(es)
  {
    var rs := Registered(es);
    forall n | n in NamesOf(es) ensures n in NamesOf(rs) {
      var i :| 0 <= i < |es| && es[i].0 == n;
      assert rs[i].0 == n;
    }
  }

  /** Pairing distinct names with anything keeps them distinct. */
  lemma ZipUnique<V>(names: seq<string>, vs: seq<V>)
    requires |names| == |vs|
    requires forall i, j :: 0 <= i < j < |names| ==> names[i] != names[j]
    ensures UniqueNames(Zip(names, vs))
  {
  }

  /** The dictionary has no name twice. */
  lemma ConsultasUnique()
    ensures UniqueNames(Consultas)
  {
    ReportNamesUnique();
    ZipUnique(ReportNames, ReportQueries);
  }

  /** With distinct names, after the upserts every item is registered with
      its description and trimmed query, rows with other names are untouched,
      and a second run changes nothing. */
  lemma RegistryResult(m: map<string, Report>, es: seq<(string, string)>)
    requires UniqueNames(es)
    ensures var r := UpsertAll(m, Registered(es));
      && (forall i :: 0 <= i < |es| ==>
            es[i].0 in r && r[es[i].0] == Report(Describe(es[i].0), Strip(es[i].1)))
      && (forall n :: n in m && n !in NamesOf(es) ==> n in r && r[n] == m[n])
      && UpsertAll(r, Registered(es)) == r
  {
    var rs := Registered(es);
    RegisteredUnique(es);
    RegistryValues(m, rs);
    forall i | 0 <= i < |es|
      ensures es[i].0 in UpsertAll(m, rs) && UpsertAll(m, rs)[es[i].0] == Report(Describe(es[i].0), Strip(es[i].1))
    {
      assert rs[i].0 == es[i].0;
    }
    forall n | n in m && n !in NamesOf(es)
      ensures n in UpsertAll(m, rs) && UpsertAll(m, rs)[n] == m[n]
    {
      RegistryOthers(m, rs, n);
    }
    RegistryIdempotent(m, rs);
  }

  /** `inserir_relatorios` registers every report of the dictionary with its
      description and trimmed query, leaves rows with other names untouched,
      and changes nothing when run a second time. */
  lemma InsertReportsResult(m: map<string, Report>)
    ensures var r := UpsertAll(m, Registered(Consultas));
      && (forall i :: 0 <= i < |Consultas| ==>
            Consultas[i].0 in r && r[Consultas[i].0] == Report(Describe(Consultas[i].0), Strip(Consultas[i].1)))
      && (forall n :: n in m && n !in NamesOf(Consultas) ==> n in r && r[n] == m[n])
      && UpsertAll(r, Registered(Consultas)) == r
  {
    ConsultasUnique();
    RegistryResult(m, Consultas);
  }
}
