/** Rows of the interaction CSV (interacoes_globo.csv) and the column-level
    operations both loaders apply to them before touching storage. */
module Records {

  datatype Option<T> = None | Some(value: T)

  datatype Result<T, E> = Ok(value: T) | Err(error: E)

  /** One CSV row. A cell pandas may read as missing (NaN) is an Option;
      the interaction kind and the timestamp are taken as present, and the
      timestamp is kept as opaque text. */
  datatype Record = Record(
    user: Option<int>,           // id_usuario
    content: Option<int>,        // id_conteudo
    contentName: Option<string>, // nome_conteudo
    platform: Option<string>,    // plataforma
    kind: string,                // tipo_interacao
    timestamp: string,           // timestamp_interacao
    duration: Option<int>)       // watch_duration_seconds

  const LegacyViewKind := "view_start"
  const ViewKind := "view"

  /** The `replace({"view_start": "view"})` on the tipo_interacao column. */
  function ReplaceViewStart(rows: seq<Record>): (r: seq<Record>)
    ensures |r| == |rows|
    ensures forall i :: 0 <= i < |r| ==> r[i].kind != LegacyViewKind
    ensures forall i :: 0 <= i < |r| && rows[i].kind == LegacyViewKind ==> r[i] == rows[i].(kind := ViewKind)
    ensures forall i :: 0 <= i < |r| && rows[i].kind != LegacyViewKind ==> r[i] == rows[i]
  {
    if rows == [] then []
    else
      var head := if rows[0].kind == LegacyViewKind then rows[0].(kind := ViewKind) else rows[0];
      [head] + ReplaceViewStart(rows[1..])
  }

  predicate NoDuplicates<T(==)>(s: seq<T>) {
    forall i, j :: 0 <= i < j < |s| ==> s[i] != s[j]
  }

  /** pandas `unique()` / `drop_duplicates()`: each distinct value once, in
      the order of its first occurrence. */
  function Distinct<T(==,!new)>(s: seq<T>): (d: seq<T>)
    ensures forall x :: x in d <==> x in s
    ensures NoDuplicates(d)
    ensures |d| <= |s|
  {
    if s == [] then []
    else
      var front := Distinct(s[..|s| - 1]);
      var last := s[|s| - 1];
      assert forall x :: x in s <==> x in s[..|s| - 1] || x == last;
      if last in front then front else front + [last]
  }

  /** How often x occurs, split at the last element. */
  lemma MultisetLast<T>(s: seq<T>, x: T)
    requires s != []
    ensures multiset(s)[x] == multiset(s[..|s| - 1])[x] + (if s[|s| - 1] == x then 1 else 0)
  {
    assert s == s[..|s| - 1] + [s[|s| - 1]];
  }

  /** The position of the first occurrence of x in s. */
  function FirstIndex<T(==)>(s: seq<T>, x: T): (i: nat)
    requires x in s
    ensures i < |s| && s[i] == x
    ensures forall k :: 0 <= k < i ==> s[k] != x
  {
    if s[0] == x then 0 else 1 + FirstIndex(s[1..], x)
  }

  /** Appending never moves a first occurrence. */
  lemma {:induction false} FirstIndexAppend<T>(a: seq<T>, b: seq<T>, x: T)
    requires x in a
    ensures FirstIndex(a + b, x) == FirstIndex(a, x)
  {
    if a[0] != x {
      assert (a + b)[1..] == a[1..] + b;
      FirstIndexAppend(a[1..], b, x);
    }
  }

  /** Distinct lists the values in the order in which they first occur. */
  lemma {:induction false} DistinctOrder<T(!new)>(s: seq<T>)
    ensures forall i, j :: 0 <= i < j < |Distinct(s)| ==>
      FirstIndex(s, Distinct(s)[i]) < FirstIndex(s, Distinct(s)[j])
    decreases |s|
  {
    if s != [] {
      var front := s[..|s| - 1];
      var last := s[|s| - 1];
      var d' := Distinct(front);
      var d := Distinct(s);
      DistinctOrder(front);
      assert s == front + [last];
      forall y | y in d' ensures FirstIndex(s, y) == FirstIndex(front, y) {
        FirstIndexAppend(front, [last], y);
      }
      if last !in d' {
        assert FirstIndex(s, last) == |s| - 1;
        forall i, j | 0 <= i < j < |d| ensures FirstIndex(s, d[i]) < FirstIndex(s, d[j]) {
          assert d[i] == d'[i];
          if j < |d'| {
            assert d[j] == d'[j];
          }
        }
      }
    }
  }

  /** The plataforma column. */
  function PlatformColumn(rows: seq<Record>): (c: seq<Option<string>>)
    ensures |c| == |rows|
    ensures forall i :: 0 <= i < |rows| ==> c[i] == rows[i].platform
  {
    seq(|rows|, i requires 0 <= i < |rows| => rows[i].platform)
  }

  /** The id_usuario column. */
  function UserColumn(rows: seq<Record>): (c: seq<Option<int>>)
    ensures |c| == |rows|
    ensures forall i :: 0 <= i < |rows| ==> c[i] == rows[i].user
  {
    seq(|rows|, i requires 0 <= i < |rows| => rows[i].user)
  }
}
