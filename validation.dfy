/** The row filter of `validar_dataframe`: a `dropna` on the three required
    columns followed by a boolean mask on the watch duration. */
module Validation {
  import opened Records

  predicate HasRequiredFields(r: Record) {
    r.user.Some? && r.content.Some? && r.platform.Some?
  }

  /** `watch_duration_seconds >= 0`; a missing duration compares false. */
  predicate HasNonNegativeDuration(r: Record) {
    r.duration.Some? && r.duration.value >= 0
  }

  predicate Retained(r: Record) {
    HasRequiredFields(r) && HasNonNegativeDuration(r)
  }

  /** `a` can be obtained from `b` by deleting elements. */
  predicate IsSubsequence<T(==)>(a: seq<T>, b: seq<T>)
    decreases |b|
  {
    if a == [] then true
    else if b == [] then false
    else (a[0] == b[0] && IsSubsequence(a[1..], b[1..])) || IsSubsequence(a, b[1..])
  }

  lemma {:induction false} SubsequenceTransitive<T>(a: seq<T>, b: seq<T>, c: seq<T>)
    requires IsSubsequence(a, b) && IsSubsequence(b, c)
    ensures IsSubsequence(a, c)
    decreases |c|
  {
    if a == [] {
    } else if b == [] {
    } else if c == [] {
    } else if b[0] == c[0] && IsSubsequence(b[1..], c[1..]) {
      if a[0] == b[0] && IsSubsequence(a[1..], b[1..]) {
        SubsequenceTransitive(a[1..], b[1..], c[1..]);
      } else {
        SubsequenceTransitive(a, b[1..], c[1..]);
      }
    } else {
      SubsequenceTransitive(a, b, c[1..]);
    }
  }

  lemma {:induction false} SubsequenceLength<T>(a: seq<T>, b: seq<T>)
    requires IsSubsequence(a, b)
    ensures |a| <= |b|
    decreases |b|
  {
    if a != [] {
      if a[0] == b[0] && IsSubsequence(a[1..], b[1..]) {
        SubsequenceLength(a[1..], b[1..]);
      } else {
        SubsequenceLength(a, b[1..]);
      }
    }
  }

  /** `df.dropna(subset=["id_usuario", "id_conteudo", "plataforma"])`. */
  function DropMissing(rows: seq<Record>): (r: seq<Record>)
    ensures forall x :: x in r ==> HasRequiredFields(x)
    ensures forall x :: multiset(r)[x] == if HasRequiredFields(x) then multiset(rows)[x] else 0
    ensures IsSubsequence(r, rows)
  {
    if rows == [] then []
    else
      var rest := DropMissing(rows[1..]);
      assert rows == [rows[0]] + rows[1..];
      if HasRequiredFields(rows[0]) then
        assert ([rows[0]] + rest)[1..] == rest;
        [rows[0]] + rest
      else
        assert rest == [] || rest[0] != rows[0] by {
          if rest != [] { assert rest[0] in rest; }
        }
        rest
  }

  /** `df[df["watch_duration_seconds"] >= 0]`. */
  function KeepNonNegativeDuration(rows: seq<Record>): (r: seq<Record>)
    ensures forall x :: x in r ==> HasNonNegativeDuration(x)
    ensures forall x :: multiset(r)[x] == if HasNonNegativeDuration(x) then multiset(rows)[x] else 0
    ensures IsSubsequence(r, rows)
  {
    if rows == [] then []
    else
      var rest := KeepNonNegativeDuration(rows[1..]);
      assert rows == [rows[0]] + rows[1..];
      if HasNonNegativeDuration(rows[0]) then
        assert ([rows[0]] + rest)[1..] == rest;
        [rows[0]] + rest
      else
        assert rest == [] || rest[0] != rows[0] by {
          if rest != [] { assert rest[0] in rest; }
        }
        rest
  }

  /** `validar_dataframe`. Every retained row passes both checks, every row
      that passes them is kept as often as it occurs, unchanged, and the
      input order is preserved. */
  function Validate(rows: seq<Record>): (r: seq<Record>)
    ensures forall x :: x in r ==> Retained(x)
    ensures forall i :: 0 <= i < |r| ==> Retained(r[i])
    ensures forall x :: multiset(r)[x] == if Retained(x) then multiset(rows)[x] else 0
    ensures IsSubsequence(r, rows)
    ensures |r| <= |rows|
  {
    var dropped := DropMissing(rows);
    var kept := KeepNonNegativeDuration(dropped);
    SubsequenceTransitive(kept, dropped, rows);
    SubsequenceLength(kept, rows);
    kept
  }

  /** A filter keeps a sequence whose every element passes it. */
  lemma ValidateKeepsRetained(rows: seq<Record>)
    requires forall x :: x in rows ==> Retained(x)
    ensures Validate(rows) == rows
  {
    DropMissingKeeps(rows);
    KeepNonNegativeDurationKeeps(rows);
  }

  lemma {:induction false} DropMissingKeeps(rows: seq<Record>)
    requires forall x :: x in rows ==> HasRequiredFields(x)
    ensures DropMissing(rows) == rows
  {
    if rows != [] {
      DropMissingKeeps(rows[1..]);
    }
  }

  lemma {:induction false} KeepNonNegativeDurationKeeps(rows: seq<Record>)
    requires forall x :: x in rows ==> HasNonNegativeDuration(x)
    ensures KeepNonNegativeDuration(rows) == rows
  {
    if rows != [] {
      KeepNonNegativeDurationKeeps(rows[1..]);
    }
  }

  /** Validation is idempotent. */
  lemma ValidateIdempotent(rows: seq<Record>)
    ensures Validate(Validate(rows)) == Validate(rows)
  {
    ValidateKeepsRetained(Validate(rows));
  }

  /** A row with a missing required field or a negative or missing duration
      never reaches the loader, and a row passing both checks always does. */
  lemma ValidateDecides(rows: seq<Record>, x: Record)
    requires x in rows
    ensures x in Validate(rows) <==> Retained(x)
  {
    assert multiset(rows)[x] > 0;
    if Retained(x) {
      assert multiset(Validate(rows))[x] > 0;
    }
  }
}
