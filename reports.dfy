/** The report queries of the `consultas` dictionary (conexao_sqlalchemy.py),
    each as a function of the tables it reads. Joins are inner joins, every
    GROUP BY keeps its groups in order of first appearance, and ORDER BY is
    stable, so ties keep that order. */
module Reports {
  import opened Records
  import opened Tables
  import opened Aggregates

  /** The keys of the `consultas` dictionary, in insertion order. */
  const ReportNames: seq<string> := [
    "ranking_conteudos_consumidos",
    "plataforma_maior_engajamento",
    "total_de_engajamentos_por_plataforma",
    "conteudos_mais_comentados",
    "interacoes_por_tipo_conteudo",
    "tempo_medio_por_plataforma",
    "comentarios_por_conteudo",
    "conteudos_mais_assistidos_por_plataforma"
  ]

  /** The SQL text under each key, in the same order. */
  const ReportQueries: seq<string> := [
    @"
      SELECT 
         c.id_conteudo, 
         c.nome_conteudo, 
         c.tipo_conteudo, 
         SEC_TO_TIME(SUM(i.watch_duration_seconds)) AS total_consumo
      FROM conteudo c
      JOIN interacao i ON c.id_conteudo = i.id_conteudo
      GROUP BY c.id_conteudo, c.nome_conteudo, c.tipo_conteudo
      ORDER BY SUM(i.watch_duration_seconds) DESC
      LIMIT 10;
   ",
    @"
      SELECT p.nome, COUNT(*) AS total_engajamento
      FROM interacao i
      JOIN plataforma p ON i.id_plataforma = p.id_plataforma
      WHERE i.tipo_interacao IN ('like', 'share', 'comment')
      GROUP BY p.nome
      ORDER BY total_engajamento DESC
      LIMIT 10;
   ",
    @"
      SELECT
         p.nome AS nome_plataforma,
         COUNT(*) AS total_engajamento,
         SUM(CASE WHEN i.tipo_interacao = 'like' THEN 1 ELSE 0 END) AS total_like,
         SUM(CASE WHEN i.tipo_interacao = 'comment' THEN 1 ELSE 0 END) AS total_comment,
         SUM(CASE WHEN i.tipo_interacao = 'share' THEN 1 ELSE 0 END) AS total_share,
         SUM(CASE WHEN i.tipo_interacao = 'view' THEN 1 ELSE 0 END) AS total_view
      FROM interacao i
      JOIN plataforma p ON i.id_plataforma = p.id_plataforma
      WHERE i.tipo_interacao IN ('like', 'comment', 'share', 'view')
      GROUP BY p.nome
      ORDER BY total_engajamento DESC;

   ",
    @"
      SELECT c.id_conteudo, c.nome_conteudo, COUNT(*) AS total_comentarios
      FROM interacao i
      JOIN conteudo c ON i.id_conteudo = c.id_conteudo
      WHERE i.tipo_interacao = 'comment'
      GROUP BY c.id_conteudo, c.nome_conteudo
      ORDER BY total_comentarios DESC
      LIMIT 10;
   ",
    @"
      SELECT c.tipo_conteudo, COUNT(*) AS total_interacoes
      FROM conteudo c
      JOIN interacao i ON c.id_conteudo = i.id_conteudo
      GROUP BY c.tipo_conteudo
      ORDER BY total_interacoes DESC;
   ",
    @"
      SELECT p.nome, SEC_TO_TIME(AVG(i.watch_duration_seconds)) AS tempo_medio
      FROM interacao i
      JOIN plataforma p ON i.id_plataforma = p.id_plataforma
      GROUP BY p.nome
      ORDER BY tempo_medio DESC;
   ",
    @"
      SELECT c.id_conteudo, c.nome_conteudo, COUNT(*) AS quantidade_comentarios
      FROM conteudo c
      JOIN interacao i ON c.id_conteudo = i.id_conteudo
      WHERE i.tipo_interacao = 'comment'
      GROUP BY c.id_conteudo, c.nome_conteudo
      ORDER BY quantidade_comentarios DESC;
   ",
    @"
      SELECT p.nome AS plataforma, c.nome_conteudo, COUNT(i.id_interacao) AS total_assistidos
      FROM interacao i
      JOIN conteudo c ON i.id_conteudo = c.id_conteudo
      JOIN plataforma p ON i.id_plataforma = p.id_plataforma
      WHERE i.tipo_interacao = 'view'
      GROUP BY p.nome, c.nome_conteudo
      ORDER BY total_assistidos DESC
      LIMIT 10;
   "
  ]

  function Zip<A, B>(a: seq<A>, b: seq<B>): (r: seq<(A, B)>)
    requires |a| == |b|
    ensures |r| == |a| && forall i :: 0 <= i < |a| ==> r[i] == (a[i], b[i])
  {
    seq(|a|, i requires 0 <= i < |a| => (a[i], b[i]))
  }

  /** The `consultas` dictionary as its list of items. */
  const Consultas: seq<(string, string)> := Zip(ReportNames, ReportQueries)

  /** The bound of every `LIMIT 10`. */
  const TopN := 10

  const LikeKind := "like"
  const ShareKind := "share"
  const CommentKind := "comment"

  /** `IN ('like', 'share', 'comment')`. */
  const EngagementKinds: set<string> := {LikeKind, ShareKind, CommentKind}

  /** `IN ('like', 'comment', 'share', 'view')`. */
  const CountedKinds: set<string> := {LikeKind, CommentKind, ShareKind, ViewKind}

  // ---------------------------------------------------------------- joins

  /** `WHERE i.tipo_interacao IN kinds`: only facts of those kinds, in order;
      OfKindsCount states that each such fact is kept as often as it occurs. */
  function OfKinds(xs: seq<Interaction>, kinds: set<string>): (r: seq<Interaction>)
    ensures forall i :: 0 <= i < |r| ==> r[i].kind in kinds && r[i] in xs
    decreases |xs|
  {
    if xs == [] then []
    else
      var x := xs[|xs| - 1];
      var front := OfKinds(xs[..|xs| - 1], kinds);
      if x.kind in kinds then front + [x] else front
  }

  /** The number of facts whose content is stored in conteudo. */
  function StoredCount(xs: seq<Interaction>, c: map<int, Content>): nat
    decreases |xs|
  {
    if xs == [] then 0
    else StoredCount(xs[..|xs| - 1], c) + (if xs[|xs| - 1].content in c then 1 else 0)
  }

  /** A fact row joined with its conteudo row. */
  datatype ContentFact = ContentFact(fact: Interaction, content: Content)

  /** `JOIN conteudo c ON i.id_conteudo = c.id_conteudo`: every fact whose
      content is stored, paired with that content, as often as it occurs;
      no other row. */
  function JoinContents(xs: seq<Interaction>, c: map<int, Content>): (r: seq<ContentFact>)
    ensures forall i :: 0 <= i < |r| ==>
      r[i].fact in xs && r[i].fact.content in c && r[i].content == c[r[i].fact.content]
    ensures |r| == StoredCount(xs, c)
    decreases |xs|
  {
    if xs == [] then []
    else
      var x := xs[|xs| - 1];
      var front := JoinContents(xs[..|xs| - 1], c);
      if x.content in c then front + [ContentFact(x, c[x.content])] else front
  }

  /** The number of plataforma rows with the given id and nome. */
  function RowsWith(rows: seq<PlatformRow>, id: int, n: Option<string>): nat
    decreases |rows|
  {
    if rows == [] then 0
    else RowsWith(rows[..|rows| - 1], id, n) + (if rows[|rows| - 1] == PlatformRow(id, n) then 1 else 0)
  }

  /** The nome of every plataforma row with the given id, in table order. */
  function NamesWithId(rows: seq<PlatformRow>, id: int): (r: seq<Option<string>>)
    decreases |rows|
  {
    if rows == [] then []
    else
      var front := NamesWithId(rows[..|rows| - 1], id);
      if rows[|rows| - 1].id == id then front + [rows[|rows| - 1].name] else front
  }

  /** With increasing ids (a well-formed plataforma), a fact meets at most one
      plataforma row, and meets one named n exactly when that row is stored. */
  lemma {:induction false} RowsWithUnique(rows: seq<PlatformRow>, id: int, n: Option<string>)
    requires forall a, b :: 0 <= a < b < |rows| ==> rows[a].id < rows[b].id
    ensures RowsWith(rows, id, n) <= 1
    ensures RowsWith(rows, id, n) == 1 <==> PlatformRow(id, n) in rows
    decreases |rows|
  {
    if rows != [] {
      var front := rows[..|rows| - 1];
      RowsWithUnique(front, id, n);
      assert rows == front + [rows[|rows| - 1]];
    }
  }

  /** A fact row joined with the nome of its plataforma row. */
  datatype PlatformFact = PlatformFact(fact: Interaction, platform: Option<string>)

  /** One fact paired with each of the given names. */
  function WithNames(x: Interaction, names: seq<Option<string>>): (r: seq<PlatformFact>)
    ensures |r| == |names| && forall i :: 0 <= i < |r| ==> r[i] == PlatformFact(x, names[i])
    decreases |names|
  {
    if names == [] then []
    else
      WithNames(x, names[..|names| - 1]) + [PlatformFact(x, names[|names| - 1])]
  }

  /** `JOIN plataforma p ON i.id_plataforma = p.id_plataforma`: each fact is
      paired with the nome of every plataforma row carrying its id, once per
      such row; JoinPlatformsCount states these multiplicities. */
  function JoinPlatforms(xs: seq<Interaction>, rows: seq<PlatformRow>): (r: seq<PlatformFact>)
    ensures forall i :: 0 <= i < |r| ==> r[i].fact in xs
    decreases |xs|
  {
    if xs == [] then []
    else
      var x := xs[|xs| - 1];
      JoinPlatforms(xs[..|xs| - 1], rows) + WithNames(x, NamesWithId(rows, x.platform))
  }

  /** A fact row joined with its conteudo row and the nome of its plataforma row. */
  datatype WatchFact = WatchFact(fact: Interaction, content: Content, platform: Option<string>)

  /** One content-joined fact paired with each of the given names. */
  function WithContentAndNames(cf: ContentFact, names: seq<Option<string>>): (r: seq<WatchFact>)
    ensures |r| == |names| && forall i :: 0 <= i < |r| ==> r[i] == WatchFact(cf.fact, cf.content, names[i])
    decreases |names|
  {
    if names == [] then []
    else
      WithContentAndNames(cf, names[..|names| - 1]) + [WatchFact(cf.fact, cf.content, names[|names| - 1])]
  }

  /** `JOIN conteudo c ... JOIN plataforma p ...`: each content-joined fact is
      paired with the nome of every plataforma row carrying its id, once per
      such row; JoinBothCount states these multiplicities. */
  function JoinBoth(xs: seq<ContentFact>, rows: seq<PlatformRow>): (r: seq<WatchFact>)
    ensures forall i :: 0 <= i < |r| ==> exists j :: 0 <= j < |xs| && r[i].fact == xs[j].fact && r[i].content == xs[j].content
    decreases |xs|
  {
    if xs == [] then []
    else
      var front := JoinBoth(xs[..|xs| - 1], rows);
      var last := WithContentAndNames(xs[|xs| - 1], NamesWithId(rows, xs[|xs| - 1].fact.platform));
      assert forall i :: 0 <= i < |front| ==> (front + last)[i] == front[i];
      assert forall i :: |front| <= i < |front + last| ==> (front + last)[i] == last[i - |front|];
      front + last
  }

  /** The filter keeps every fact of the given kinds as often as it occurs,
      and no fact of another kind. */
  lemma {:induction false} OfKindsCount(xs: seq<Interaction>, kinds: set<string>, x: Interaction)
    ensures multiset(OfKinds(xs, kinds))[x] == if x.kind in kinds then multiset(xs)[x] else 0
    decreases |xs|
  {
    if xs != [] {
      var front := xs[..|xs| - 1];
      assert xs == front + [xs[|xs| - 1]];
      OfKindsCount(front, kinds, x);
    }
  }

  /** The content join keeps every fact whose content is stored, as often as
      it occurs. */
  lemma {:induction false} JoinContentsCount(xs: seq<Interaction>, c: map<int, Content>, x: Interaction)
    requires x.content in c
    ensures multiset(JoinContents(xs, c))[ContentFact(x, c[x.content])] == multiset(xs)[x]
    decreases |xs|
  {
    if xs != [] {
      var front := xs[..|xs| - 1];
      assert xs == front + [xs[|xs| - 1]];
      JoinContentsCount(front, c, x);
    }
  }

  /** Every plataforma row with the id contributes its nome once. */
  lemma {:induction false} NamesWithIdCount(rows: seq<PlatformRow>, id: int, n: Option<string>)
    ensures multiset(NamesWithId(rows, id))[n] == RowsWith(rows, id, n)
    decreases |rows|
  {
    if rows != [] {
      NamesWithIdCount(rows[..|rows| - 1], id, n);
    }
  }

  lemma {:induction false} WithNamesCount(x: Interaction, names: seq<Option<string>>, y: Interaction, n: Option<string>)
    ensures multiset(WithNames(x, names))[PlatformFact(y, n)] == if y == x then multiset(names)[n] else 0
    decreases |names|
  {
    if names != [] {
      assert names == names[..|names| - 1] + [names[|names| - 1]];
      WithNamesCount(x, names[..|names| - 1], y, n);
    }
  }

  lemma {:induction false} WithContentAndNamesCount(cf: ContentFact, names: seq<Option<string>>, f: Interaction, k: Content, n: Option<string>)
    ensures multiset(WithContentAndNames(cf, names))[WatchFact(f, k, n)] == if ContentFact(f, k) == cf then multiset(names)[n] else 0
    decreases |names|
  {
    if names != [] {
      assert names == names[..|names| - 1] + [names[|names| - 1]];
      WithContentAndNamesCount(cf, names[..|names| - 1], f, k, n);
    }
  }

  /** The platform join keeps every fact: a fact occurring m times, whose id
      k plataforma rows named n carry, yields that pair m * k times. */
  lemma JoinPlatformsLast(xs: seq<Interaction>, rows: seq<PlatformRow>, p: PlatformFact)
    requires xs != []
    ensures multiset(JoinPlatforms(xs, rows))[p] == multiset(JoinPlatforms(xs[..|xs| - 1], rows))[p]
      + multiset(WithNames(xs[|xs| - 1], NamesWithId(rows, xs[|xs| - 1].platform)))[p]
  {
  }

  lemma {:induction false} JoinPlatformsCount(xs: seq<Interaction>, rows: seq<PlatformRow>, x: Interaction, n: Option<string>)
    ensures multiset(JoinPlatforms(xs, rows))[PlatformFact(x, n)] == multiset(xs)[x] * RowsWith(rows, x.platform, n)
    decreases |xs|
  {
    if xs != [] {
      var front := xs[..|xs| - 1];
      var last := xs[|xs| - 1];
      var p := PlatformFact(x, n);
      var m := multiset(front)[x];
      var k := RowsWith(rows, x.platform, n);
      var w := multiset(WithNames(last, NamesWithId(rows, last.platform)))[p];
      assert multiset(JoinPlatforms(xs, rows))[p] == multiset(JoinPlatforms(front, rows))[p] + w by {
        JoinPlatformsLast(xs, rows, p);
      }
      assert multiset(JoinPlatforms(front, rows))[p] == m * k by {
        JoinPlatformsCount(front, rows, x, n);
      }
      assert w == if last == x then k else 0 by {
        WithNamesCount(last, NamesWithId(rows, last.platform), x, n);
        NamesWithIdCount(rows, x.platform, n);
      }
      assert multiset(xs)[x] == m + (if last == x then 1 else 0) by {
        MultisetLast(xs, x);
      }
      CountStep(multiset(JoinPlatforms(xs, rows))[p], multiset(JoinPlatforms(front, rows))[p], w,
                multiset(xs)[x], m, k, last == x);
    }
  }

  lemma JoinBothLast(xs: seq<ContentFact>, rows: seq<PlatformRow>, p: WatchFact)
    requires xs != []
    ensures multiset(JoinBoth(xs, rows))[p] == multiset(JoinBoth(xs[..|xs| - 1], rows))[p]
      + multiset(WithContentAndNames(xs[|xs| - 1], NamesWithId(rows, xs[|xs| - 1].fact.platform)))[p]
  {
  }

  /** The second platform join keeps every content-joined fact in the same way. */
  lemma {:induction false} JoinBothCount(xs: seq<ContentFact>, rows: seq<PlatformRow>, f: Interaction, c: Content, n: Option<string>)
    ensures multiset(JoinBoth(xs, rows))[WatchFact(f, c, n)] == multiset(xs)[ContentFact(f, c)] * RowsWith(rows, f.platform, n)
    decreases |xs|
  {
    if xs != [] {
      var front := xs[..|xs| - 1];
      var last := xs[|xs| - 1];
      var p := WatchFact(f, c, n);
      var m := multiset(front)[ContentFact(f, c)];
      var k := RowsWith(rows, f.platform, n);
      var w := multiset(WithContentAndNames(last, NamesWithId(rows, last.fact.platform)))[p];
      assert multiset(JoinBoth(xs, rows))[p] == multiset(JoinBoth(front, rows))[p] + w by {
        JoinBothLast(xs, rows, p);
      }
      assert multiset(JoinBoth(front, rows))[p] == m * k by {
        JoinBothCount(front, rows, f, c, n);
      }
      assert w == if last == ContentFact(f, c) then k else 0 by {
        WithContentAndNamesCount(last, NamesWithId(rows, last.fact.platform), f, c, n);
        NamesWithIdCount(rows, f.platform, n);
      }
      assert multiset(xs)[ContentFact(f, c)] == m + (if last == ContentFact(f, c) then 1 else 0) by {
        MultisetLast(xs, ContentFact(f, c));
      }
      CountStep(multiset(JoinBoth(xs, rows))[p], multiset(JoinBoth(front, rows))[p], w,
                multiset(xs)[ContentFact(f, c)], m, k, last == ContentFact(f, c));
    }
  }

  /** One more occurrence of a fact adds its k joined rows. */
  lemma CountStep(a: int, b: int, w: int, count: int, m: nat, k: nat, hit: bool)
    requires a == b + w && b == m * k
    requires w == (if hit then k else 0) && count == m + (if hit then 1 else 0)
    ensures a == count * k
  {
    if hit {
      assert (m + 1) * k == m * k + k;
    }
  }

  // ---------------------------------------------------------------- keys

  /** `GROUP BY c.id_conteudo, c.nome_conteudo, c.tipo_conteudo`. */
  datatype ContentKey = ContentKey(id: int, name: Option<string>, kind: string)

  /** `GROUP BY c.id_conteudo, c.nome_conteudo`. */
  datatype CommentedKey = CommentedKey(id: int, name: Option<string>)

  /** `GROUP BY p.nome, c.nome_conteudo`. */
  datatype WatchedKey = WatchedKey(platform: Option<string>, content: Option<string>)

  function RankingKey(cf: ContentFact): ContentKey {
    ContentKey(cf.fact.content, cf.content.name, cf.content.kind)
  }

  function CommentedKeyOf(cf: ContentFact): CommentedKey {
    CommentedKey(cf.fact.content, cf.content.name)
  }

  function ContentKindOf(cf: ContentFact): string {
    cf.content.kind
  }

  function PlatformOf(pf: PlatformFact): Option<string> {
    pf.platform
  }

  function WatchedKeyOf(wf: WatchFact): WatchedKey {
    WatchedKey(wf.platform, wf.content.name)
  }

  /** `watch_duration_seconds` as SUM adds it: a NULL adds nothing. */
  function SecondsOf(cf: ContentFact): int {
    if cf.fact.duration.Some? then cf.fact.duration.value else 0
  }

  // ---------------------------------------------------------------- reports

  /** ranking_conteudos_consumidos (ordered by the integer SUM). */
  function RankingConsumed(s: DbState): (r: seq<Group<ContentKey>>)
    ensures |r| <= TopN
    ensures NonIncreasing(r, TotalOf)
    ensures var gs := GroupSum(JoinContents(s.interactions, s.contents), RankingKey, SecondsOf);
      && |r| == (if |gs| <= TopN then |gs| else TopN)
      && (forall g :: g in r ==> g in gs)
      && (forall g, h :: g in r && h in gs && h !in r ==> h.total <= g.total)
  {
    TopGroups(GroupSum(JoinContents(s.interactions, s.contents), RankingKey, SecondsOf), TopN)
  }

  /** plataforma_maior_engajamento. */
  function PlatformEngagement(s: DbState): (r: seq<Group<Option<string>>>)
    ensures |r| <= TopN
    ensures NonIncreasing(r, TotalOf)
    ensures var gs := GroupCount(JoinPlatforms(OfKinds(s.interactions, EngagementKinds), s.platforms.rows), PlatformOf);
      && |r| == (if |gs| <= TopN then |gs| else TopN)
      && (forall g :: g in r ==> g in gs)
      && (forall g, h :: g in r && h in gs && h !in r ==> h.total <= g.total)
  {
    TopGroups(GroupCount(JoinPlatforms(OfKinds(s.interactions, EngagementKinds), s.platforms.rows), PlatformOf), TopN)
  }

  /** A row of total_de_engajamentos_por_plataforma. */
  datatype EngagementRow = EngagementRow(
    platform: Option<string>, total: int, likes: int, comments: int, shares: int, views: int)

  function EngagementTotal(r: EngagementRow): int {
    r.total
  }

  /** `SUM(CASE WHEN i.tipo_interacao = k THEN 1 ELSE 0 END)` for each k. */
  function IsLike(pf: PlatformFact): int {
    if pf.fact.kind == LikeKind then 1 else 0
  }

  function IsComment(pf: PlatformFact): int {
    if pf.fact.kind == CommentKind then 1 else 0
  }

  function IsShare(pf: PlatformFact): int {
    if pf.fact.kind == ShareKind then 1 else 0
  }

  function IsView(pf: PlatformFact): int {
    if pf.fact.kind == ViewKind then 1 else 0
  }

  function EngagementRowFor(j: seq<PlatformFact>, name: Option<string>): EngagementRow {
    EngagementRow(name,
                  SumWhere(j, PlatformOf, One, name),
                  SumWhere(j, PlatformOf, IsLike, name),
                  SumWhere(j, PlatformOf, IsComment, name),
                  SumWhere(j, PlatformOf, IsShare, name),
                  SumWhere(j, PlatformOf, IsView, name))
  }

  /** The joined rows total_de_engajamentos_por_plataforma groups. */
  function CountedJoin(s: DbState): seq<PlatformFact> {
    JoinPlatforms(OfKinds(s.interactions, CountedKinds), s.platforms.rows)
  }

  /** `GROUP BY p.nome`: one row per platform name of the join, no name twice. */
  function EngagementRows(j: seq<PlatformFact>): (r: seq<EngagementRow>)
    ensures var names := Distinct(KeysOf(j, PlatformOf));
      |r| == |names| && forall i :: 0 <= i < |r| ==> r[i] == EngagementRowFor(j, names[i])
    ensures forall i, k :: 0 <= i < k < |r| ==> r[i].platform != r[k].platform
  {
    var names := Distinct(KeysOf(j, PlatformOf));
    seq(|names|, i requires 0 <= i < |names| => EngagementRowFor(j, names[i]))
  }

  /** Every platform name of the join has its grouped row. */
  lemma EngagementRowOfFact(j: seq<PlatformFact>, i: nat)
    requires i < |j|
    ensures exists k :: 0 <= k < |EngagementRows(j)| && EngagementRows(j)[k].platform == j[i].platform
  {
    var names := Distinct(KeysOf(j, PlatformOf));
    assert KeysOf(j, PlatformOf)[i] in names;
    var k :| 0 <= k < |names| && names[k] == j[i].platform;
    assert EngagementRows(j)[k].platform == names[k];
  }

  /** Every grouped row is the platform name of some joined row. */
  lemma EngagementRowFromJoin(j: seq<PlatformFact>, k: nat)
    requires k < |EngagementRows(j)|
    ensures exists i :: 0 <= i < |j| && j[i].platform == EngagementRows(j)[k].platform
  {
    var names := Distinct(KeysOf(j, PlatformOf));
    assert names[k] in KeysOf(j, PlatformOf);
    var i :| 0 <= i < |j| && KeysOf(j, PlatformOf)[i] == names[k];
  }

  /** total_de_engajamentos_por_plataforma (no LIMIT). */
  function TotalEngagementByPlatform(s: DbState): (r: seq<EngagementRow>)
    ensures NonIncreasing(r, EngagementTotal)
    ensures multiset(r) == multiset(EngagementRows(CountedJoin(s)))
  {
    SortDescSorted(EngagementRows(CountedJoin(s)), EngagementTotal);
    SortDesc(EngagementRows(CountedJoin(s)), EngagementTotal)
  }

  /** The joined rows conteudos_mais_comentados and comentarios_por_conteudo group. */
  function CommentJoin(s: DbState): seq<ContentFact> {
    JoinContents(OfKinds(s.interactions, {CommentKind}), s.contents)
  }

  /** conteudos_mais_comentados. */
  function MostCommented(s: DbState): (r: seq<Group<CommentedKey>>)
    ensures |r| <= TopN
    ensures NonIncreasing(r, TotalOf)
    ensures var gs := GroupCount(CommentJoin(s), CommentedKeyOf);
      && |r| == (if |gs| <= TopN then |gs| else TopN)
      && (forall g :: g in r ==> g in gs)
      && (forall g, h :: g in r && h in gs && h !in r ==> h.total <= g.total)
  {
    TopGroups(GroupCount(CommentJoin(s), CommentedKeyOf), TopN)
  }

  /** interacoes_por_tipo_conteudo (no LIMIT). */
  function InteractionsByContentKind(s: DbState): (r: seq<Group<string>>)
    ensures NonIncreasing(r, TotalOf)
  {
    OrderedGroups(GroupCount(JoinContents(s.interactions, s.contents), ContentKindOf))
  }

  /** comentarios_por_conteudo (no LIMIT). */
  function CommentsPerContent(s: DbState): (r: seq<Group<CommentedKey>>)
    ensures NonIncreasing(r, TotalOf)
  {
    OrderedGroups(GroupCount(CommentJoin(s), CommentedKeyOf))
  }

  /** The joined rows conteudos_mais_assistidos_por_plataforma groups. */
  function WatchJoin(s: DbState): seq<WatchFact> {
    JoinBoth(JoinContents(OfKinds(s.interactions, {ViewKind}), s.contents), s.platforms.rows)
  }

  /** conteudos_mais_assistidos_por_plataforma; `COUNT(i.id_interacao)` counts
      every joined row, since the key column is never NULL. */
  function MostWatchedPerPlatform(s: DbState): (r: seq<Group<WatchedKey>>)
    ensures |r| <= TopN
    ensures NonIncreasing(r, TotalOf)
    ensures var gs := GroupCount(WatchJoin(s), WatchedKeyOf);
      && |r| == (if |gs| <= TopN then |gs| else TopN)
      && (forall g :: g in r ==> g in gs)
      && (forall g, h :: g in r && h in gs && h !in r ==> h.total <= g.total)
  {
    TopGroups(GroupCount(WatchJoin(s), WatchedKeyOf), TopN)
  }

  // ---------------------------------------------------------------- properties

  /** The seconds watched of one content, straight from interacao. */
  function SecondsOn(xs: seq<Interaction>, id: int): int
    decreases |xs|
  {
    if xs == [] then 0
    else
      var x := xs[|xs| - 1];
      SecondsOn(xs[..|xs| - 1], id) + (if x.content == id && x.duration.Some? then x.duration.value else 0)
  }

  /** The comments on one content, straight from interacao. */
  function CommentsOn(xs: seq<Interaction>, id: int): nat
    decreases |xs|
  {
    if xs == [] then 0
    else
      var x := xs[|xs| - 1];
      CommentsOn(xs[..|xs| - 1], id) + (if x.content == id && x.kind == CommentKind then 1 else 0)
  }

  lemma {:induction false} RankingSum(xs: seq<Interaction>, c: map<int, Content>, id: int)
    requires id in c
    ensures SumWhere(JoinContents(xs, c), RankingKey, SecondsOf, ContentKey(id, c[id].name, c[id].kind)) == SecondsOn(xs, id)
    decreases |xs|
  {
    if xs != [] {
      var x := xs[|xs| - 1];
      var j := JoinContents(xs[..|xs| - 1], c);
      RankingSum(xs[..|xs| - 1], c, id);
      if x.content in c {
        assert (j + [ContentFact(x, c[x.content])])[..|j|] == j;
      }
    }
  }

  /** Each ranked content is stored, its row carries that content's name and
      kind, and its total is the seconds watched of that content. */
  lemma RankingRows(s: DbState)
    ensures forall g :: g in RankingConsumed(s) ==>
      && g.key.id in s.contents
      && g.key == ContentKey(g.key.id, s.contents[g.key.id].name, s.contents[g.key.id].kind)
      && g.total == SecondsOn(s.interactions, g.key.id)
  {
    var j := JoinContents(s.interactions, s.contents);
    forall g | g in RankingConsumed(s)
      ensures && g.key.id in s.contents
              && g.key == ContentKey(g.key.id, s.contents[g.key.id].name, s.contents[g.key.id].kind)
              && g.total == SecondsOn(s.interactions, g.key.id)
    {
      GroupsAreKeys(j, RankingKey, SecondsOf, g);
      var i :| 0 <= i < |j| && RankingKey(j[i]) == g.key;
      RankingSum(s.interactions, s.contents, g.key.id);
    }
  }

  lemma {:induction false} CommentSum(xs: seq<Interaction>, c: map<int, Content>, id: int)
    requires id in c
    ensures SumWhere(JoinContents(OfKinds(xs, {CommentKind}), c), CommentedKeyOf, One, CommentedKey(id, c[id].name))
      == CommentsOn(xs, id)
    decreases |xs|
  {
    if xs != [] {
      var x := xs[|xs| - 1];
      var o := OfKinds(xs[..|xs| - 1], {CommentKind});
      var j := JoinContents(o, c);
      CommentSum(xs[..|xs| - 1], c, id);
      if x.kind == CommentKind {
        assert (o + [x])[..|o|] == o;
        if x.content in c {
          assert (j + [ContentFact(x, c[x.content])])[..|j|] == j;
        }
      }
    }
  }

  /** A count that is not zero has a row to count. */
  lemma SumWherePresent<T, K>(rows: seq<T>, key: T -> K, val: T -> int, k: K)
    requires SumWhere(rows, key, val, k) != 0
    ensures exists i :: 0 <= i < |rows| && key(rows[i]) == k
  {
    if forall i :: 0 <= i < |rows| ==> key(rows[i]) != k {
      SumWhereAbsent(rows, key, val, k);
    }
  }

  /** The comment groups: one per commented stored content, carrying its name
      and its number of comments, which is at least one. */
  lemma CommentGroups(s: DbState)
    ensures forall g :: g in GroupCount(CommentJoin(s), CommentedKeyOf) ==>
      && g.key.id in s.contents && g.key.name == s.contents[g.key.id].name
      && g.total == CommentsOn(s.interactions, g.key.id) && g.total >= 1
    ensures forall id :: id in s.contents && CommentsOn(s.interactions, id) >= 1 ==>
      Group(CommentedKey(id, s.contents[id].name), CommentsOn(s.interactions, id)) in GroupCount(CommentJoin(s), CommentedKeyOf)
  {
    var j := CommentJoin(s);
    var gs := GroupCount(j, CommentedKeyOf);
    GroupCountPositive(j, CommentedKeyOf);
    forall g | g in gs
      ensures && g.key.id in s.contents && g.key.name == s.contents[g.key.id].name
              && g.total == CommentsOn(s.interactions, g.key.id)
    {
      GroupsAreKeys(j, CommentedKeyOf, One, g);
      var i :| 0 <= i < |j| && CommentedKeyOf(j[i]) == g.key;
      CommentSum(s.interactions, s.contents, g.key.id);
    }
    forall id | id in s.contents && CommentsOn(s.interactions, id) >= 1
      ensures Group(CommentedKey(id, s.contents[id].name), CommentsOn(s.interactions, id)) in gs
    {
      var k := CommentedKey(id, s.contents[id].name);
      CommentSum(s.interactions, s.contents, id);
      SumWherePresent(j, CommentedKeyOf, One, k);
      var i :| 0 <= i < |j| && CommentedKeyOf(j[i]) == k;
      GroupsCoverKeys(j, CommentedKeyOf, One, i);
      var l :| 0 <= l < |gs| && gs[l].key == k;
      GroupsAreKeys(j, CommentedKeyOf, One, gs[l]);
    }
  }

  /** Every content of conteudos_mais_comentados is stored and shows its own
      number of comments, at least one. */
  lemma MostCommentedRows(s: DbState)
    ensures forall g :: g in MostCommented(s) ==>
      && g.key.id in s.contents && g.key.name == s.contents[g.key.id].name
      && g.total == CommentsOn(s.interactions, g.key.id) && g.total >= 1
  {
    CommentGroups(s);
  }

  /** comentarios_por_conteudo lists exactly the stored contents that have
      comments, each with its number of comments. */
  lemma CommentsPerContentRows(s: DbState)
    ensures forall g :: g in CommentsPerContent(s) ==>
      && g.key.id in s.contents && g.key.name == s.contents[g.key.id].name
      && g.total == CommentsOn(s.interactions, g.key.id) && g.total >= 1
    ensures forall id :: id in s.contents && CommentsOn(s.interactions, id) >= 1 ==>
      Group(CommentedKey(id, s.contents[id].name), CommentsOn(s.interactions, id)) in CommentsPerContent(s)
  {
    CommentGroups(s);
  }

  lemma OfKindsIgnores(xs: seq<Interaction>, kinds: set<string>, x: Interaction)
    requires x.kind !in kinds
    ensures OfKinds(xs + [x], kinds) == OfKinds(xs, kinds)
  {
    assert (xs + [x])[..|xs|] == xs;
  }

  /** plataforma_maior_engajamento counts only likes, shares and comments:
      recording a view, or any other kind, leaves it unchanged. */
  lemma EngagementIgnoresOtherKinds(s: DbState, x: Interaction)
    requires x.kind !in EngagementKinds
    ensures PlatformEngagement(s.(interactions := s.interactions + [x])) == PlatformEngagement(s)
  {
    OfKindsIgnores(s.interactions, EngagementKinds, x);
  }

  /** Every engagement count is at least one. */
  lemma EngagementRowsPositive(s: DbState)
    ensures forall g :: g in PlatformEngagement(s) ==> g.total >= 1
  {
    GroupCountPositive(JoinPlatforms(OfKinds(s.interactions, EngagementKinds), s.platforms.rows), PlatformOf);
  }

  lemma {:induction false} KindSplit(j: seq<PlatformFact>, name: Option<string>)
    requires forall k :: 0 <= k < |j| ==> j[k].fact.kind in CountedKinds
    ensures SumWhere(j, PlatformOf, One, name) ==
      SumWhere(j, PlatformOf, IsLike, name) + SumWhere(j, PlatformOf, IsComment, name)
      + SumWhere(j, PlatformOf, IsShare, name) + SumWhere(j, PlatformOf, IsView, name)
    decreases |j|
  {
    if j != [] {
      var front := j[..|j| - 1];
      assert forall k :: 0 <= k < |front| ==> front[k] == j[k];
      KindSplit(front, name);
    }
  }

  /** Every joined row of total_de_engajamentos_por_plataforma is of one of the four kinds. */
  lemma CountedJoinKinds(s: DbState)
    ensures forall k :: 0 <= k < |CountedJoin(s)| ==> CountedJoin(s)[k].fact.kind in CountedKinds
  {
    var o := OfKinds(s.interactions, CountedKinds);
    var j := CountedJoin(s);
    forall k | 0 <= k < |j| ensures j[k].fact.kind in CountedKinds {
      var l :| 0 <= l < |o| && o[l] == j[k].fact;
    }
  }

  lemma EngagementRowSplits(j: seq<PlatformFact>, i: nat)
    requires forall k :: 0 <= k < |j| ==> j[k].fact.kind in CountedKinds
    requires i < |EngagementRows(j)|
    ensures var r := EngagementRows(j)[i];
      r.total == r.likes + r.comments + r.shares + r.views && r.total >= 1
  {
    var names := Distinct(KeysOf(j, PlatformOf));
    KindSplit(j, names[i]);
    assert names[i] in KeysOf(j, PlatformOf);
    CountPositive(j, PlatformOf, names[i]);
  }

  /** In total_de_engajamentos_por_plataforma the total of a platform is the
      sum of its likes, comments, shares and views, and is at least one. */
  lemma TotalEngagementRows(s: DbState)
    ensures forall r :: r in TotalEngagementByPlatform(s) ==>
      r.total == r.likes + r.comments + r.shares + r.views && r.total >= 1
  {
    var rows := EngagementRows(CountedJoin(s));
    CountedJoinKinds(s);
    forall r | r in TotalEngagementByPlatform(s)
      ensures r.total == r.likes + r.comments + r.shares + r.views && r.total >= 1
    {
      assert r in multiset(rows);
      var i :| 0 <= i < |rows| && rows[i] == r;
      EngagementRowSplits(CountedJoin(s), i);
    }
  }

  /** total_de_engajamentos_por_plataforma ignores every kind outside its four. */
  lemma TotalEngagementIgnoresOtherKinds(s: DbState, x: Interaction)
    requires x.kind !in CountedKinds
    ensures TotalEngagementByPlatform(s.(interactions := s.interactions + [x])) == TotalEngagementByPlatform(s)
  {
    OfKindsIgnores(s.interactions, CountedKinds, x);
  }

  lemma {:induction false} JoinContentsAll(xs: seq<Interaction>, c: map<int, Content>)
    requires forall i :: 0 <= i < |xs| ==> xs[i].content in c
    ensures |JoinContents(xs, c)| == |xs|
    decreases |xs|
  {
    if xs != [] {
      var front := xs[..|xs| - 1];
      assert forall i :: 0 <= i < |front| ==> front[i] == xs[i];
      JoinContentsAll(front, c);
    }
  }

  /** The counts of interacoes_por_tipo_conteudo add up to the number of
      interactions on stored contents: all of them when every fact refers to a
      stored content. Every count is at least one. */
  lemma ContentKindTotals(s: DbState)
    ensures SumBy(InteractionsByContentKind(s), TotalOf) == StoredCount(s.interactions, s.contents)
    ensures (forall i :: 0 <= i < |s.interactions| ==> s.interactions[i].content in s.contents) ==>
      SumBy(InteractionsByContentKind(s), TotalOf) == |s.interactions|
    ensures forall g :: g in InteractionsByContentKind(s) ==> g.total >= 1
  {
    var j := JoinContents(s.interactions, s.contents);
    GroupSumTotal(j, ContentKindOf, One);
    SumOfOnes(j);
    GroupCountPositive(j, ContentKindOf);
    if forall i :: 0 <= i < |s.interactions| ==> s.interactions[i].content in s.contents {
      JoinContentsAll(s.interactions, s.contents);
    }
  }

  /** Every count of conteudos_mais_assistidos_por_plataforma is at least one. */
  lemma MostWatchedRowsPositive(s: DbState)
    ensures forall g :: g in MostWatchedPerPlatform(s) ==> g.total >= 1
  {
    GroupCountPositive(WatchJoin(s), WatchedKeyOf);
  }

  // ---------------------------------------------------------------- counts from the tables

  /** The joined rows a platform name gets from the facts of the given kinds:
      each such fact meets every plataforma row of its id named n. */
  function KindCount(xs: seq<Interaction>, rows: seq<PlatformRow>, n: Option<string>, kinds: set<string>): nat
    decreases |xs|
  {
    if xs == [] then 0
    else
      var x := xs[|xs| - 1];
      KindCount(xs[..|xs| - 1], rows, n, kinds) + (if x.kind in kinds then RowsWith(rows, x.platform, n) else 0)
  }

  lemma {:induction false} WithNamesSum(x: Interaction, names: seq<Option<string>>, name: Option<string>,
                                        val: PlatformFact -> int, v: int)
    requires v == 0 || v == 1
    requires forall m :: val(PlatformFact(x, m)) == v
    ensures SumWhere(WithNames(x, names), PlatformOf, val, name) == if v == 1 then multiset(names)[name] else 0
    decreases |names|
  {
    if names != [] {
      var front := names[..|names| - 1];
      var last := names[|names| - 1];
      var w := WithNames(x, front);
      assert WithNames(x, names) == w + [PlatformFact(x, last)];
      assert (w + [PlatformFact(x, last)])[..|w|] == w;
      assert names == front + [last];
      WithNamesSum(x, front, name, val, v);
    }
  }

  /** Summing a 0/1 indicator of the counted kinds over the platform join of
      the facts of some kinds, per platform name, gives KindCount. */
  lemma {:induction false} JoinedKindSum(xs: seq<Interaction>, rows: seq<PlatformRow>, kinds: set<string>,
                                         name: Option<string>, val: PlatformFact -> int, counted: set<string>)
    requires counted <= kinds
    requires forall y: Interaction, m: Option<string> :: y.kind in kinds ==>
      val(PlatformFact(y, m)) == if y.kind in counted then 1 else 0
    ensures SumWhere(JoinPlatforms(OfKinds(xs, kinds), rows), PlatformOf, val, name) == KindCount(xs, rows, name, counted)
    decreases |xs|
  {
    if xs != [] {
      var front := xs[..|xs| - 1];
      var x := xs[|xs| - 1];
      var o := OfKinds(front, kinds);
      JoinedKindSum(front, rows, kinds, name, val, counted);
      if x.kind in kinds {
        var names := NamesWithId(rows, x.platform);
        assert OfKinds(xs, kinds) == o + [x];
        assert (o + [x])[..|o|] == o;
        assert JoinPlatforms(o + [x], rows) == JoinPlatforms(o, rows) + WithNames(x, names);
        SumWhereAppend(JoinPlatforms(o, rows), WithNames(x, names), PlatformOf, val, name);
        WithNamesSum(x, names, name, val, if x.kind in counted then 1 else 0);
        NamesWithIdCount(rows, x.platform, name);
      }
    }
  }

  /** plataforma_maior_engajamento: every platform shown has as its count the
      likes, shares and comments joined to it, at least one, and a platform
      left out has no more than any platform shown. */
  lemma PlatformEngagementRows(s: DbState)
    ensures forall g :: g in PlatformEngagement(s) ==>
      g.total == KindCount(s.interactions, s.platforms.rows, g.key, EngagementKinds) && g.total >= 1
    ensures forall n ::
      (KindCount(s.interactions, s.platforms.rows, n, EngagementKinds) >= 1 &&
       (forall g :: g in PlatformEngagement(s) ==> g.key != n)) ==>
      forall g :: g in PlatformEngagement(s) ==> KindCount(s.interactions, s.platforms.rows, n, EngagementKinds) <= g.total
  {
    var xs := s.interactions;
    var rows := s.platforms.rows;
    var j := JoinPlatforms(OfKinds(xs, EngagementKinds), rows);
    var r := PlatformEngagement(s);
    GroupCountPositive(j, PlatformOf);
    forall g | g in r ensures g.total == KindCount(xs, rows, g.key, EngagementKinds) {
      GroupsAreKeys(j, PlatformOf, One, g);
      JoinedKindSum(xs, rows, EngagementKinds, g.key, One, EngagementKinds);
    }
    forall n | KindCount(xs, rows, n, EngagementKinds) >= 1 && (forall g :: g in r ==> g.key != n)
      ensures forall g :: g in r ==> KindCount(xs, rows, n, EngagementKinds) <= g.total
    {
      JoinedKindSum(xs, rows, EngagementKinds, n, One, EngagementKinds);
      SumWherePresent(j, PlatformOf, One, n);
      var i :| 0 <= i < |j| && PlatformOf(j[i]) == n;
      GroupPresent(j, PlatformOf, One, i);
    }
  }

  /** Every row of total_de_engajamentos_por_plataforma is the row built for
      its own platform name. */
  lemma TotalEngagementRowOf(s: DbState, e: EngagementRow)
    requires e in TotalEngagementByPlatform(s)
    ensures e == EngagementRowFor(CountedJoin(s), e.platform)
  {
    var er := EngagementRows(CountedJoin(s));
    assert e in multiset(er);
    var i :| 0 <= i < |er| && er[i] == e;
  }

  /** The row total_de_engajamentos_por_plataforma builds for one platform
      name holds the joined facts of the four kinds and of each kind. */
  lemma EngagementRowForCounts(s: DbState, name: Option<string>)
    ensures EngagementRowFor(CountedJoin(s), name) == EngagementRow(name,
      KindCount(s.interactions, s.platforms.rows, name, CountedKinds),
      KindCount(s.interactions, s.platforms.rows, name, {LikeKind}),
      KindCount(s.interactions, s.platforms.rows, name, {CommentKind}),
      KindCount(s.interactions, s.platforms.rows, name, {ShareKind}),
      KindCount(s.interactions, s.platforms.rows, name, {ViewKind}))
  {
    JoinedKindSum(s.interactions, s.platforms.rows, CountedKinds, name, One, CountedKinds);
    JoinedKindSum(s.interactions, s.platforms.rows, CountedKinds, name, IsLike, {LikeKind});
    JoinedKindSum(s.interactions, s.platforms.rows, CountedKinds, name, IsComment, {CommentKind});
    JoinedKindSum(s.interactions, s.platforms.rows, CountedKinds, name, IsShare, {ShareKind});
    JoinedKindSum(s.interactions, s.platforms.rows, CountedKinds, name, IsView, {ViewKind});
  }

  /** total_de_engajamentos_por_plataforma: every row carries, for its
      platform name, the joined facts of the four kinds and of each kind. */
  lemma EngagementRowCounts(s: DbState)
    ensures forall e :: e in TotalEngagementByPlatform(s) ==>
      && e.total == KindCount(s.interactions, s.platforms.rows, e.platform, CountedKinds)
      && e.likes == KindCount(s.interactions, s.platforms.rows, e.platform, {LikeKind})
      && e.comments == KindCount(s.interactions, s.platforms.rows, e.platform, {CommentKind})
      && e.shares == KindCount(s.interactions, s.platforms.rows, e.platform, {ShareKind})
      && e.views == KindCount(s.interactions, s.platforms.rows, e.platform, {ViewKind})
  {
    var xs := s.interactions;
    var rows := s.platforms.rows;
    var j := CountedJoin(s);
    var er := EngagementRows(j);
    forall e | e in TotalEngagementByPlatform(s)
      ensures && e.total == KindCount(xs, rows, e.platform, CountedKinds)
              && e.likes == KindCount(xs, rows, e.platform, {LikeKind})
              && e.comments == KindCount(xs, rows, e.platform, {CommentKind})
              && e.shares == KindCount(xs, rows, e.platform, {ShareKind})
              && e.views == KindCount(xs, rows, e.platform, {ViewKind})
    {
      TotalEngagementRowOf(s, e);
      EngagementRowForCounts(s, e.platform);
    }
  }

  /** total_de_engajamentos_por_plataforma has a row for every platform name
      that some like, comment, share or view is joined to. */
  lemma EngagementRowsCover(s: DbState)
    ensures forall n :: KindCount(s.interactions, s.platforms.rows, n, CountedKinds) >= 1 ==>
      exists e :: e in TotalEngagementByPlatform(s) && e.platform == n
  {
    var xs := s.interactions;
    var rows := s.platforms.rows;
    var j := CountedJoin(s);
    var er := EngagementRows(j);
    forall n | KindCount(xs, rows, n, CountedKinds) >= 1
      ensures exists e :: e in TotalEngagementByPlatform(s) && e.platform == n
    {
      JoinedKindSum(xs, rows, CountedKinds, n, One, CountedKinds);
      SumWherePresent(j, PlatformOf, One, n);
      var i :| 0 <= i < |j| && PlatformOf(j[i]) == n;
      EngagementRowOfFact(j, i);
      var k :| 0 <= k < |er| && er[k].platform == j[i].platform;
      assert er[k] in multiset(TotalEngagementByPlatform(s));
    }
  }

  /** The joined rows a (platform name, content name) pair gets: each view on
      a stored content of that name meets every plataforma row of its id
      carrying that platform name. */
  function WatchCount(xs: seq<Interaction>, c: map<int, Content>, rows: seq<PlatformRow>, k: WatchedKey): nat
    decreases |xs|
  {
    if xs == [] then 0
    else
      var x := xs[|xs| - 1];
      WatchCount(xs[..|xs| - 1], c, rows, k)
        + (if x.kind == ViewKind && x.content in c && c[x.content].name == k.content
           then RowsWith(rows, x.platform, k.platform) else 0)
  }

  lemma {:induction false} WithContentAndNamesSum(cf: ContentFact, names: seq<Option<string>>, k: WatchedKey)
    ensures SumWhere(WithContentAndNames(cf, names), WatchedKeyOf, One, k) ==
      if cf.content.name == k.content then multiset(names)[k.platform] else 0
    decreases |names|
  {
    if names != [] {
      var front := names[..|names| - 1];
      var last := names[|names| - 1];
      var w := WithContentAndNames(cf, front);
      assert WithContentAndNames(cf, names) == w + [WatchFact(cf.fact, cf.content, last)];
      assert (w + [WatchFact(cf.fact, cf.content, last)])[..|w|] == w;
      assert names == front + [last];
      WithContentAndNamesSum(cf, front, k);
    }
  }

  /** Joining one more view: its content-joined row adds, to the pair of its
      content name, one row per plataforma row of its id with that name. */
  lemma WatchStep(jc: seq<ContentFact>, cf: ContentFact, rows: seq<PlatformRow>, k: WatchedKey)
    ensures SumWhere(JoinBoth(jc + [cf], rows), WatchedKeyOf, One, k) == SumWhere(JoinBoth(jc, rows), WatchedKeyOf, One, k)
      + (if cf.content.name == k.content then RowsWith(rows, cf.fact.platform, k.platform) else 0)
  {
    var names := NamesWithId(rows, cf.fact.platform);
    assert (jc + [cf])[..|jc|] == jc;
    assert JoinBoth(jc + [cf], rows) == JoinBoth(jc, rows) + WithContentAndNames(cf, names);
    SumWhereAppend(JoinBoth(jc, rows), WithContentAndNames(cf, names), WatchedKeyOf, One, k);
    WithContentAndNamesSum(cf, names, k);
    NamesWithIdCount(rows, cf.fact.platform, k.platform);
  }

  lemma {:induction false} WatchSum(xs: seq<Interaction>, c: map<int, Content>, rows: seq<PlatformRow>, k: WatchedKey)
    ensures SumWhere(JoinBoth(JoinContents(OfKinds(xs, {ViewKind}), c), rows), WatchedKeyOf, One, k) == WatchCount(xs, c, rows, k)
    decreases |xs|
  {
    if xs != [] {
      var front := xs[..|xs| - 1];
      var x := xs[|xs| - 1];
      var o := OfKinds(front, {ViewKind});
      var jc := JoinContents(o, c);
      WatchSum(front, c, rows, k);
      if x.kind == ViewKind {
        assert JoinContents(OfKinds(xs, {ViewKind}), c) == JoinContents(o + [x], c) by {
          assert OfKinds(xs, {ViewKind}) == o + [x];
        }
        if x.content in c {
          var cf := ContentFact(x, c[x.content]);
          assert JoinContents(o + [x], c) == jc + [cf] by {
            assert (o + [x])[..|o|] == o;
          }
          WatchStep(jc, cf, rows, k);
        } else {
          assert JoinContents(o + [x], c) == jc by {
            assert (o + [x])[..|o|] == o;
          }
        }
      } else {
        assert OfKinds(xs, {ViewKind}) == o;
      }
    }
  }

  /** conteudos_mais_assistidos_por_plataforma: every pair shown has as its
      count the views joined to it, at least one, and a pair left out has no
      more than any pair shown. */
  lemma MostWatchedRows(s: DbState)
    ensures forall g :: g in MostWatchedPerPlatform(s) ==>
      g.total == WatchCount(s.interactions, s.contents, s.platforms.rows, g.key) && g.total >= 1
    ensures forall k ::
      (WatchCount(s.interactions, s.contents, s.platforms.rows, k) >= 1 &&
       (forall g :: g in MostWatchedPerPlatform(s) ==> g.key != k)) ==>
      forall g :: g in MostWatchedPerPlatform(s) ==> WatchCount(s.interactions, s.contents, s.platforms.rows, k) <= g.total
  {
    var j := WatchJoin(s);
    var r := MostWatchedPerPlatform(s);
    GroupCountPositive(j, WatchedKeyOf);
    forall g | g in r ensures g.total == WatchCount(s.interactions, s.contents, s.platforms.rows, g.key) {
      GroupsAreKeys(j, WatchedKeyOf, One, g);
      WatchSum(s.interactions, s.contents, s.platforms.rows, g.key);
    }
    forall k | WatchCount(s.interactions, s.contents, s.platforms.rows, k) >= 1 && (forall g :: g in r ==> g.key != k)
      ensures forall g :: g in r ==> WatchCount(s.interactions, s.contents, s.platforms.rows, k) <= g.total
    {
      WatchSum(s.interactions, s.contents, s.platforms.rows, k);
      SumWherePresent(j, WatchedKeyOf, One, k);
      var i :| 0 <= i < |j| && WatchedKeyOf(j[i]) == k;
      GroupPresent(j, WatchedKeyOf, One, i);
    }
  }

  /** ranking_conteudos_consumidos: a stored content with an interaction that
      the ranking leaves out has watched no longer than any content shown. */
  lemma RankingTop(s: DbState)
    ensures forall x ::
      (x in s.interactions && x.content in s.contents &&
       (forall g :: g in RankingConsumed(s) ==> g.key.id != x.content)) ==>
      forall g :: g in RankingConsumed(s) ==> SecondsOn(s.interactions, x.content) <= g.total
  {
    forall x | x in s.interactions && x.content in s.contents && (forall g :: g in RankingConsumed(s) ==> g.key.id != x.content)
      ensures forall g :: g in RankingConsumed(s) ==> SecondsOn(s.interactions, x.content) <= g.total
    {
      RankingLeftOut(s, x);
    }
  }

  lemma RankingLeftOut(s: DbState, x: Interaction)
    requires x in s.interactions && x.content in s.contents
    requires forall g :: g in RankingConsumed(s) ==> g.key.id != x.content
    ensures forall g :: g in RankingConsumed(s) ==> SecondsOn(s.interactions, x.content) <= g.total
  {
    RankingGroupOf(s, x);
    var c := s.contents[x.content];
    var h := Group(ContentKey(x.content, c.name, c.kind), SecondsOn(s.interactions, x.content));
    assert h !in RankingConsumed(s);
  }

  /** Every interaction on a stored content puts that content's group, with
      its seconds watched, among the groups the ranking chooses from. */
  lemma RankingGroupOf(s: DbState, x: Interaction)
    requires x in s.interactions && x.content in s.contents
    ensures var c := s.contents[x.content];
      Group(ContentKey(x.content, c.name, c.kind), SecondsOn(s.interactions, x.content))
        in GroupSum(JoinContents(s.interactions, s.contents), RankingKey, SecondsOf)
  {
    var j := JoinContents(s.interactions, s.contents);
    var cf := ContentFact(x, s.contents[x.content]);
    JoinContentsCount(s.interactions, s.contents, x);
    assert cf in multiset(j);
    var i :| 0 <= i < |j| && j[i] == cf;
    GroupPresent(j, RankingKey, SecondsOf, i);
    RankingSum(s.interactions, s.contents, x.content);
  }

  /** conteudos_mais_comentados: a commented stored content the report leaves
      out has no more comments than any content shown. */
  lemma MostCommentedTop(s: DbState)
    ensures forall id ::
      (id in s.contents && CommentsOn(s.interactions, id) >= 1 &&
       (forall g :: g in MostCommented(s) ==> g.key.id != id)) ==>
      forall g :: g in MostCommented(s) ==> CommentsOn(s.interactions, id) <= g.total
  {
    CommentGroups(s);
  }

  /** The interactions on stored contents of one tipo_conteudo, straight from
      interacao. */
  function KindFacts(xs: seq<Interaction>, c: map<int, Content>, k: string): nat
    decreases |xs|
  {
    if xs == [] then 0
    else
      var x := xs[|xs| - 1];
      KindFacts(xs[..|xs| - 1], c, k) + (if x.content in c && c[x.content].kind == k then 1 else 0)
  }

  lemma {:induction false} KindFactsSum(xs: seq<Interaction>, c: map<int, Content>, k: string)
    ensures SumWhere(JoinContents(xs, c), ContentKindOf, One, k) == KindFacts(xs, c, k)
    decreases |xs|
  {
    if xs != [] {
      var x := xs[|xs| - 1];
      var j := JoinContents(xs[..|xs| - 1], c);
      KindFactsSum(xs[..|xs| - 1], c, k);
      if x.content in c {
        assert (j + [ContentFact(x, c[x.content])])[..|j|] == j;
      }
    }
  }

  /** interacoes_por_tipo_conteudo lists exactly the kinds of the stored
      contents that have interactions, each with its number of interactions. */
  lemma ContentKindRows(s: DbState)
    ensures forall g :: g in InteractionsByContentKind(s) ==>
      g.total == KindFacts(s.interactions, s.contents, g.key) && g.total >= 1
    ensures forall k :: KindFacts(s.interactions, s.contents, k) >= 1 ==>
      Group(k, KindFacts(s.interactions, s.contents, k)) in InteractionsByContentKind(s)
  {
    var j := JoinContents(s.interactions, s.contents);
    GroupCountPositive(j, ContentKindOf);
    forall g | g in InteractionsByContentKind(s)
      ensures g.total == KindFacts(s.interactions, s.contents, g.key)
    {
      GroupsAreKeys(j, ContentKindOf, One, g);
      KindFactsSum(s.interactions, s.contents, g.key);
    }
    forall k | KindFacts(s.interactions, s.contents, k) >= 1
      ensures Group(k, KindFacts(s.interactions, s.contents, k)) in InteractionsByContentKind(s)
    {
      KindFactsSum(s.interactions, s.contents, k);
      SumWherePresent(j, ContentKindOf, One, k);
      var i :| 0 <= i < |j| && ContentKindOf(j[i]) == k;
      GroupPresent(j, ContentKindOf, One, i);
    }
  }
}
