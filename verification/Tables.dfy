/**
 The relational form of a job (backend/src/infrastructure/persistence.py, _save_job and get): one
 job row, page rows per attempt and number that are only ever upserted, artifact rows per attempt
 that are only rewritten when there are any. Why a load still returns what was saved.
 */
module Tables {
  import opened Domain
  import opened History
  import opened Rely

  // The rows of one job. The job row is a job without pages and artifacts.
  datatype Rows = Rows(row: JobData, pages: map<(nat, nat), PageData>, artifacts: map<nat, seq<Artifact>>)

  // ---- the queries ----

  function NumbersOf(pages: map<(nat, nat), PageData>, k: nat): set<nat> {
    set key | key in pages && key.0 == k :: key.1
  }

  function Greatest(s: set<nat>): (m: nat)
    requires s != {}
    ensures m in s && forall n | n in s :: n <= m
  {
    GreatestExists(s);
    var m: nat :| m in s && forall n | n in s :: n <= m;
    m
  }

  lemma {:induction false} GreatestExists(s: set<nat>)
    requires s != {}
    ensures exists m :: m in s && forall n | n in s :: n <= m
  {
    var x :| x in s;
    var rest := s - {x};
    if rest == {} {
      assert forall n | n in s :: n == x || n in rest;
      assert forall n | n in s :: n <= x;
    } else {
      GreatestExists(rest);
      var m :| m in rest && forall n | n in rest :: n <= m;
      assert forall n | n in s :: n == x || n in rest;
      assert if x <= m then forall n | n in s :: n <= m else forall n | n in s :: n <= x;
    }
  }

  // ORDER BY page_number
  function InOrder(s: set<nat>): (r: seq<nat>)
    ensures |r| == |s|
  {
    if s == {} then [] else var m := Greatest(s); InOrder(s - {m}) + [m]
  }

  // The same elements, in increasing order.
  lemma {:induction false} InOrderElements(s: set<nat>)
    ensures forall n: int :: n in InOrder(s) <==> n in s
  {
    if s != {} {
      var m := Greatest(s);
      InOrderElements(s - {m});
      forall n: int ensures n in InOrder(s) <==> n in s { assert n in s <==> n == m || n in s - {m}; }
    }
  }

  lemma {:induction false} InOrderIncreases(s: set<nat>, i: nat, j: nat)
    requires i < j < |s|
    ensures InOrder(s)[i] < InOrder(s)[j]
  {
    var m := Greatest(s);
    var rest := s - {m};
    if j < |rest| {
      InOrderIncreases(rest, i, j);
    } else {
      InOrderElements(rest);
      assert InOrder(rest)[i] in InOrder(rest);
      assert InOrder(rest)[i] in rest;
    }
  }

  function PageQuery(pages: map<(nat, nat), PageData>, k: nat): (r: seq<PageData>)
    ensures |r| == |NumbersOf(pages, k)|
  {
    InOrderElements(NumbersOf(pages, k));
    var numbers := InOrder(NumbersOf(pages, k));
    seq(|numbers|, i requires 0 <= i < |numbers| =>
      assert numbers[i] in numbers;
      pages[(k, numbers[i])])
  }

  function ArtifactQuery(artifacts: map<nat, seq<Artifact>>, k: nat): set<Artifact> {
    if k in artifacts then SetOf(artifacts[k]) else {}
  }

  // get: the row, then the page and artifact rows of its current attempt.
  function Loaded(r: Rows): JobData {
    r.row.(pages := PageQuery(r.pages, r.row.attempt), artifacts := ArtifactQuery(r.artifacts, r.row.attempt))
  }

  // ---- the writes ----

  function UpsertPages(pages: map<(nat, nat), PageData>, k: nat, ps: seq<PageData>): map<(nat, nat), PageData> {
    if ps == [] then pages
    else UpsertPages(pages, k, ps[..|ps| - 1])[(k, ps[|ps| - 1].number) := ps[|ps| - 1]]
  }

  // _save_job once the compare-and-swap has passed.
  function Saved(r: Rows, v: JobData, list: seq<Artifact>): Rows {
    Rows(RowOf(v).(revision := v.revision + 1),
         UpsertPages(r.pages, v.attempt, v.pages),
         if list == [] then r.artifacts else r.artifacts[v.attempt := list])
  }

  class JobTables {
    var row: JobData
    var claimed: bool
    var pages: map<(nat, nat), PageData>
    var artifacts: map<nat, seq<Artifact>>

    function Contents(): Rows
      reads this
    {
      Rows(row, pages, artifacts)
    }

    // _insert_job
    constructor (v: JobData)
      ensures Contents() == Rows(RowOf(v), map[], map[]) && !claimed
    {
      row := RowOf(v);
      claimed := false;
      pages := map[];
      artifacts := map[];
    }

    method SaveJob(v: JobData, list: seq<Artifact>) returns (ok: bool)
      modifies this
      ensures claimed == old(claimed)
      ensures ok == (!claimed && old(row).id == v.id && old(row).revision == v.revision)
      ensures Contents() == if ok then Saved(old(Contents()), v, list) else old(Contents())
    {
      if claimed || row.id != v.id || row.revision != v.revision {
        return false;
      }
      row := RowOf(v).(revision := v.revision + 1);
      for i := 0 to |v.pages|
        invariant pages == UpsertPages(old(pages), v.attempt, v.pages[..i])
        invariant row == RowOf(v).(revision := v.revision + 1) && artifacts == old(artifacts) && claimed == old(claimed)
      {
        assert v.pages[..i + 1][..i] == v.pages[..i];
        pages := pages[(v.attempt, v.pages[i].number) := v.pages[i]];
      }
      assert v.pages[..|v.pages|] == v.pages;
      if list != [] {
        artifacts := artifacts - {v.attempt};
        var inserted: seq<Artifact> := [];
        for i := 0 to |list|
          invariant inserted == list[..i]
        {
          inserted := inserted + [list[i]];
        }
        artifacts := artifacts[v.attempt := inserted];
        assert inserted == list;
        assert artifacts == old(artifacts)[v.attempt := list];
      }
      return true;
    }
  }

  // ---- what an upsert leaves ----

  predicate Increasing(ps: seq<PageData>) {
    forall i, j | 0 <= i < j < |ps| :: ps[i].number < ps[j].number
  }

  predicate HasNumber(ps: seq<PageData>, n: int) { exists i :: 0 <= i < |ps| && ps[i].number == n }

  lemma {:induction false} UpsertedRows(pages: map<(nat, nat), PageData>, k: nat, ps: seq<PageData>)
    requires Increasing(ps)
    ensures forall j, n :: (j, n) in UpsertPages(pages, k, ps) <==> (j, n) in pages || (j == k && HasNumber(ps, n))
    ensures forall i | 0 <= i < |ps| ::
              (k, ps[i].number) in UpsertPages(pages, k, ps) && UpsertPages(pages, k, ps)[(k, ps[i].number)] == ps[i]
    ensures forall j, n | (j, n) in pages && !(j == k && HasNumber(ps, n)) :: UpsertPages(pages, k, ps)[(j, n)] == pages[(j, n)]
  {
    if ps != [] {
      var short, last := ps[..|ps| - 1], ps[|ps| - 1];
      UpsertedRows(pages, k, short);
      forall n: nat ensures HasNumber(ps, n) <==> HasNumber(short, n) || n == last.number {
        if i :| 0 <= i < |ps| && ps[i].number == n {
          if i < |short| { assert short[i].number == n; }
        }
        if i :| 0 <= i < |short| && short[i].number == n { assert ps[i].number == n; }
      }
    }
  }

  lemma FirstIsElement(s: seq<nat>)
    ensures s == [] || s[0] in s
  {}

  // Two increasing lists with the same elements are the same list.
  lemma {:induction false} SameOrder(a: seq<nat>, b: seq<nat>)
    requires forall i, j | 0 <= i < j < |a| :: a[i] < a[j]
    requires forall i, j | 0 <= i < j < |b| :: b[i] < b[j]
    requires forall n :: n in a <==> n in b
    ensures a == b
  {
    if a == [] || b == [] {
      FirstIsElement(a);
      FirstIsElement(b);
    } else {
      var x, y := a[|a| - 1], b[|b| - 1];
      assert x in b && y in a;
      assert x == y;
      var s, t := a[..|a| - 1], b[..|b| - 1];
      forall n ensures n in s <==> n in t {
        if n in s { assert n in a; }
        if n in t { assert n in b; }
      }
      SameOrder(s, t);
      assert a == s + [x] && b == t + [y];
    }
  }

  function Numbers(ps: seq<PageData>): (r: seq<nat>)
    ensures |r| == |ps| && forall i | 0 <= i < |r| :: r[i] == ps[i].number
  {
    seq(|ps|, i requires 0 <= i < |ps| => ps[i].number)
  }

  // A query returns ps exactly if the rows of the attempt are those of ps.
  lemma QueryIs(pages: map<(nat, nat), PageData>, k: nat, ps: seq<PageData>)
    requires Increasing(ps)
    requires forall n :: (k, n) in pages <==> HasNumber(ps, n)
    requires forall i | 0 <= i < |ps| :: (k, ps[i].number) in pages && pages[(k, ps[i].number)] == ps[i]
    ensures PageQuery(pages, k) == ps
  {
    InOrderElements(NumbersOf(pages, k));
    forall i, j | 0 <= i < j < |NumbersOf(pages, k)| ensures InOrder(NumbersOf(pages, k))[i] < InOrder(NumbersOf(pages, k))[j] {
      InOrderIncreases(NumbersOf(pages, k), i, j);
    }
    var numbers := InOrder(NumbersOf(pages, k));
    forall n ensures n in numbers <==> n in Numbers(ps) {
      assert (k, n) in pages <==> n in NumbersOf(pages, k);
      if i :| 0 <= i < |ps| && ps[i].number == n { assert Numbers(ps)[i] == n; }
    }
    SameOrder(numbers, Numbers(ps));
  }

  /**
   A save followed by a load gives back the saved job exactly if no page row of the attempt is
   outside its page list and, when it has no artifacts, none are left from before.
   */
  lemma SaveThenLoad(r: Rows, v: JobData, list: seq<Artifact>)
    requires Increasing(v.pages) && SetOf(list) == v.artifacts
    ensures Loaded(Saved(r, v, list)) == v.(revision := v.revision + 1)
            <==> (forall n | (v.attempt, n) in r.pages :: HasNumber(v.pages, n))
                 && (v.artifacts == {} ==> ArtifactQuery(r.artifacts, v.attempt) == {})
  {
    hide InOrder, PageQuery;
    var x := Saved(r, v, list);
    UpsertedRows(r.pages, v.attempt, v.pages);
    EmptyList(list);
    if forall n | (v.attempt, n) in r.pages :: HasNumber(v.pages, n) {
      forall i | 0 <= i < |v.pages| ensures (v.attempt, v.pages[i].number) in x.pages {
        assert HasNumber(v.pages, v.pages[i].number);
      }
      QueryIs(x.pages, v.attempt, v.pages);
    } else {
      var n :| (v.attempt, n) in r.pages && !HasNumber(v.pages, n);
      assert (v.attempt, n) in x.pages;
      ExtraRow(x.pages, v.attempt, v.pages, n);
    }
  }

  lemma EmptyList(list: seq<Artifact>)
    ensures list == [] <==> SetOf(list) == {}
  {
    if list != [] { assert list[0] in SetOf(list); }
  }

  // A row outside the list makes the query longer than the list.
  lemma ExtraRow(pages: map<(nat, nat), PageData>, k: nat, ps: seq<PageData>, n: nat)
    requires Increasing(ps) && (k, n) in pages && !HasNumber(ps, n)
    requires forall i | 0 <= i < |ps| :: (k, ps[i].number) in pages
    ensures PageQuery(pages, k) != ps
  {
    var all := NumbersOf(pages, k);
    var listed := NumberSet(ps);
    CountNumbers(ps);
    assert n in all && n !in listed;
    forall m | m in listed ensures m in all {
      var i :| 0 <= i < |ps| && ps[i].number == m;
      assert (k, ps[i].number) in pages;
    }
    assert listed + {n} <= all;
    Subset(listed + {n}, all);
  }

  function NumberSet(ps: seq<PageData>): set<nat> {
    if ps == [] then {} else NumberSet(ps[..|ps| - 1]) + {ps[|ps| - 1].number}
  }

  lemma {:induction false} CountNumbers(ps: seq<PageData>)
    requires Increasing(ps)
    ensures |NumberSet(ps)| == |ps|
    ensures forall n: nat :: n in NumberSet(ps) <==> HasNumber(ps, n)
  {
    if ps != [] {
      var short, last := ps[..|ps| - 1], ps[|ps| - 1];
      CountNumbers(short);
      assert !HasNumber(short, last.number);
      forall n: nat ensures n in NumberSet(ps) <==> HasNumber(ps, n) {
        if i :| 0 <= i < |short| && short[i].number == n { assert ps[i].number == n; }
        if i :| 0 <= i < |ps| && ps[i].number == n {
          if i < |short| { assert short[i].number == n; }
        }
      }
    }
  }

  lemma {:induction false} Subset(a: set<nat>, b: set<nat>)
    requires a <= b
    ensures |a| <= |b|
  {
    if a != {} {
      var x :| x in a;
      Subset(a - {x}, b - {x});
    }
  }

  // ---- reachable tables ----

  // The tables after the history h was saved version by version.
  ghost predicate Represents(r: Rows, h: seq<Entry>)
    requires h != []
  {
    && r.row == RowOf(Last(h))
    && (forall k: nat, n: nat :: (k, n) in r.pages <==> 1 <= n <= |PagesOfAttempt(h, k)|)
    && (forall k: nat, n: nat | (k, n) in r.pages :: r.pages[(k, n)] == PagesOfAttempt(h, k)[n - 1])
    && (forall k :: ArtifactQuery(r.artifacts, k) == ArtifactsOfAttempt(h, k))
  }

  lemma FirstRepresents(id: JobId, v: JobData)
    requires Initial(id, v)
    ensures Represents(Rows(RowOf(v), map[], map[]), [Entry(Create, v)])
  {}

  lemma {:induction false} LaterAttemptEmpty(c: Config, id: JobId, h: seq<Entry>, n: nat, k: nat)
    requires Chain(c, id, h) && n <= |h| && Last(h).attempt < k
    ensures PagesOfAttempt(h[..n], k) == [] && ArtifactsOfAttempt(h[..n], k) == {}
  {
    if n > 0 {
      assert h[..n][..n - 1] == h[..n - 1];
      LaterAttemptEmpty(c, id, h, n - 1, k);
      AttemptsGrow(c, id, h, n - 1, |h| - 1);
    }
  }

  // Within an attempt pages are never removed and artifacts never emptied.
  lemma RowsOnlyGrow(c: Config, id: JobId, h: seq<Entry>, a: Action)
    requires Chain(c, id, h) && Enabled(c, Last(h), a)
    ensures
      var v := Apply(c, Last(h), a);
      && |PagesOfAttempt(h, v.attempt)| <= |v.pages| && Numbered(c, id, v)
      && (v.artifacts == {} ==> ArtifactsOfAttempt(h, v.attempt) == {})
  {
    var v := Apply(c, Last(h), a);
    ChainExtends(c, id, h, a);
    PagesAreNumbered(c, id, h + [Entry(a, v)], |h|);
    ArtifactsMeanSuccess(c, id, h, |h| - 1);
    if a.Retry? {
      LaterAttemptEmpty(c, id, h, |h|, v.attempt);
      assert h[..|h|] == h;
    }
  }

  lemma SavedPageRows(c: Config, id: JobId, h: seq<Entry>, r: Rows, e: Entry, u: JobData, list: seq<Artifact>)
    requires h != [] && Represents(r, h) && Numbered(c, id, e.job) && u.pages == e.job.pages && u.attempt == e.job.attempt
    requires |PagesOfAttempt(h, e.job.attempt)| <= |e.job.pages|
    ensures
      var pages := Saved(r, u, list).pages;
      && (forall k: nat, n: nat :: (k, n) in pages <==> 1 <= n <= |PagesOfAttempt(h + [e], k)|)
      && (forall k: nat, n: nat | (k, n) in pages :: pages[(k, n)] == PagesOfAttempt(h + [e], k)[n - 1])
  {
    hide Numbered, PagesOfAttempt, ArtifactsOfAttempt, UpsertPages;
    var pages := UpsertPages(r.pages, u.attempt, u.pages);
    NumberedPages(c, id, e.job);
    UpsertedRows(r.pages, u.attempt, u.pages);
    AttemptRows(h, e);
    forall k: nat, n: nat ensures (k, n) in pages <==> 1 <= n <= |PagesOfAttempt(h + [e], k)| {
      assert (k, n) in r.pages <==> 1 <= n <= |PagesOfAttempt(h, k)|;
      if k == u.attempt { assert HasNumber(u.pages, n) <==> 1 <= n <= |u.pages|; }
    }
    forall k: nat, n: nat | (k, n) in pages ensures pages[(k, n)] == PagesOfAttempt(h + [e], k)[n - 1] {
      if k == u.attempt {
        assert 1 <= n <= |PagesOfAttempt(h + [e], k)|;
        assert u.pages[n - 1].number == n;
      } else {
        assert (k, n) in r.pages;
      }
    }
  }

  lemma SavedArtifactRows(h: seq<Entry>, r: Rows, e: Entry, u: JobData, list: seq<Artifact>)
    requires h != [] && Represents(r, h) && u.attempt == e.job.attempt && SetOf(list) == e.job.artifacts
    requires e.job.artifacts == {} ==> ArtifactsOfAttempt(h, e.job.attempt) == {}
    ensures forall k :: ArtifactQuery(Saved(r, u, list).artifacts, k) == ArtifactsOfAttempt(h + [e], k)
  {
    hide PagesOfAttempt, ArtifactsOfAttempt, UpsertPages;
    AttemptRows(h, e);
    EmptyList(list);
  }

  /** Every save of the code's next version keeps the tables in step with the history. */
  lemma SaveRepresents(c: Config, id: JobId, h: seq<Entry>, r: Rows, a: Action, list: seq<Artifact>)
    requires Chain(c, id, h) && Represents(r, h) && Enabled(c, Last(h), a)
    requires SetOf(list) == Apply(c, Last(h), a).artifacts
    ensures
      var v := Apply(c, Last(h), a);
      Represents(Saved(r, v.(revision := Last(h).revision), list), h + [Entry(a, v)])
  {
    hide Enabled, Apply, Linked, Numbered, PagesOfAttempt, ArtifactsOfAttempt, UpsertPages, ArtifactQuery, SetOf;
    var e := Entry(a, Apply(c, Last(h), a));
    var u := e.job.(revision := Last(h).revision);
    RowsOnlyGrow(c, id, h, a);
    NextRevision(c, Last(h), a);
    SavedPageRows(c, id, h, r, e, u, list);
    SavedArtifactRows(h, r, e, u, list);
  }

  lemma NextRevision(c: Config, v: JobData, a: Action)
    requires Enabled(c, v, a)
    ensures Apply(c, v, a).revision == v.revision + 1
  {}

  // A new version only changes what is seen of its own attempt.
  lemma AttemptRows(h: seq<Entry>, e: Entry)
    ensures PagesOfAttempt(h + [e], e.job.attempt) == e.job.pages && ArtifactsOfAttempt(h + [e], e.job.attempt) == e.job.artifacts
    ensures forall k | k != e.job.attempt ::
              PagesOfAttempt(h + [e], k) == PagesOfAttempt(h, k) && ArtifactsOfAttempt(h + [e], k) == ArtifactsOfAttempt(h, k)
  {
    var g := h + [e];
    assert g[..|g| - 1] == h;
  }

  // Pages numbered 1..n are increasing, and n is a number exactly up to the count.
  lemma NumberedPages(c: Config, id: JobId, v: JobData)
    requires Numbered(c, id, v)
    ensures Increasing(v.pages) && (forall i | 0 <= i < |v.pages| :: v.pages[i].number == i + 1)
    ensures forall n :: HasNumber(v.pages, n) <==> 1 <= n <= |v.pages|
  {
    forall n ensures HasNumber(v.pages, n) <==> 1 <= n <= |v.pages| {
      if 1 <= n <= |v.pages| { assert v.pages[n - 1].number == n; }
    }
  }

  lemma {:induction false} AttemptNumbered(c: Config, id: JobId, h: seq<Entry>, n: nat, k: nat)
    requires Chain(c, id, h) && n <= |h|
    ensures forall i | 0 <= i < |PagesOfAttempt(h[..n], k)| :: PagesOfAttempt(h[..n], k)[i].number == i + 1
  {
    if n > 0 {
      assert h[..n][..n - 1] == h[..n - 1];
      AttemptNumbered(c, id, h, n - 1, k);
      PagesAreNumbered(c, id, h, n - 1);
      NumberedPages(c, id, h[n - 1].job);
    }
  }

  /**
   The refinement: in tables reached by saving a history, the page and artifact queries for any
   attempt return the last saved state of that attempt, and a load returns the last version.
   */
  lemma LoadReturnsLast(c: Config, id: JobId, h: seq<Entry>, r: Rows, k: nat)
    requires Chain(c, id, h) && Represents(r, h)
    ensures PageQuery(r.pages, k) == PagesOfAttempt(h, k) && ArtifactQuery(r.artifacts, k) == ArtifactsOfAttempt(h, k)
    ensures Loaded(r) == Last(h)
  {
    hide PageQuery, Linked;
    QueryOfAttempt(c, id, h, r, k);
    QueryOfAttempt(c, id, h, r, Last(h).attempt);
  }

  lemma QueryOfAttempt(c: Config, id: JobId, h: seq<Entry>, r: Rows, k: nat)
    requires Chain(c, id, h) && Represents(r, h)
    ensures PageQuery(r.pages, k) == PagesOfAttempt(h, k)
  {
    hide PageQuery, Linked, Chain;
    var ps := PagesOfAttempt(h, k);
    AttemptNumbered(c, id, h, |h|, k);
    assert h[..|h|] == h;
    forall n ensures (k, n) in r.pages <==> HasNumber(ps, n) {
      if 1 <= n <= |ps| { assert ps[n - 1].number == n; }
    }
    forall i | 0 <= i < |ps| ensures (k, ps[i].number) in r.pages && r.pages[(k, ps[i].number)] == ps[i] {
      assert (k, i + 1) in r.pages;
    }
    QueryIs(r.pages, k, ps);
  }

  /**
   The whole history: saving every version in turn, each on the revision before it, every save finds its
   row; afterwards a load returns the last version, and the queries for any attempt return the last pages
   and artifacts of that attempt.
   */
  method SaveHistory(c: Config, id: JobId, h: seq<Entry>, lists: seq<seq<Artifact>>) returns (t: JobTables)
    requires Chain(c, id, h) && |lists| == |h| && forall i | 0 <= i < |h| :: SetOf(lists[i]) == h[i].job.artifacts
    ensures fresh(t) && !t.claimed && Loaded(t.Contents()) == Last(h)
    ensures forall k ::
              && PageQuery(t.pages, k) == PagesOfAttempt(h, k)
              && ArtifactQuery(t.artifacts, k) == ArtifactsOfAttempt(h, k)
  {
    hide Linked, PageQuery, ArtifactQuery, Loaded, Represents, Saved, SetOf, PagesOfAttempt, ArtifactsOfAttempt;
    t := new JobTables(h[0].job);
    FirstRepresents(id, h[0].job);
    assert h[..1] == [h[0]];
    for i := 1 to |h|
      invariant fresh(t) && !t.claimed && Represents(t.Contents(), h[..i])
    {
      ghost var was := t.Contents();
      NextVersion(c, id, h, lists, i, was);
      var saved := t.SaveJob(h[i].job.(revision := h[i - 1].job.revision), lists[i]);
      assert saved;
    }
    assert h[..|h|] == h;
    forall k: nat ensures PageQuery(t.pages, k) == PagesOfAttempt(h, k) && ArtifactQuery(t.artifacts, k) == ArtifactsOfAttempt(h, k) {
      LoadReturnsLast(c, id, h, t.Contents(), k);
    }
    LoadReturnsLast(c, id, h, t.Contents(), 1);
  }

  lemma NextVersion(c: Config, id: JobId, h: seq<Entry>, lists: seq<seq<Artifact>>, i: nat, r: Rows)
    requires Chain(c, id, h) && 0 < i < |h| == |lists| && SetOf(lists[i]) == h[i].job.artifacts && Represents(r, h[..i])
    ensures
      var u := h[i].job.(revision := h[i - 1].job.revision);
      r.row.id == u.id && r.row.revision == u.revision && Represents(Saved(r, u, lists[i]), h[..i + 1])
  {
    hide Enabled, Apply, Saved, SetOf, PagesOfAttempt, ArtifactsOfAttempt, ArtifactQuery;
    var g := h[..i];
    assert Chain(c, id, g) by {
      forall m | 0 < m < |g| ensures Linked(c, g, m) { assert Linked(c, h, m); }
    }
    assert Linked(c, h, i);
    SaveRepresents(c, id, g, r, h[i].act, lists[i]);
    assert g + [h[i]] == h[..i + 1];
    Versions(c, id, h, i);
    Versions(c, id, h, i - 1);
  }
}
