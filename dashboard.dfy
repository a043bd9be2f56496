/** The queries of `DashboardPage` (src/app/dashboard/page.tsx): without a
    session, a redirect to `/login` before any query; otherwise the
    user's 50 newest jobs and every printer, ordered by name. */
module Dashboard {
  import opened Wrappers
  import opened Records
  import opened Sorting

  const HistoryLimit := 50

  /** What the page renders, or where it sends the browser. */
  datatype DashboardView =
    | RedirectTo(path: string)
    | Render(userId: string, jobs: seq<PrintJob>, printers: seq<Printer>)

  /** `where: { userId }`. */
  function OwnedBy(jobs: seq<PrintJob>, userId: string): (r: seq<PrintJob>)
    ensures forall k :: 0 <= k < |r| ==> r[k].userId == userId
    ensures forall j :: j in jobs && j.userId == userId <==> j in r
    ensures multiset(r) <= multiset(jobs)
    decreases |jobs|
  {
    if jobs == [] then []
    else
      assert jobs == [jobs[0]] + jobs[1..];
      var rest := OwnedBy(jobs[1..], userId);
      if jobs[0].userId == userId then [jobs[0]] + rest else rest
  }

  /** `orderBy: { createdAt: 'desc' }`: a job may come before any job not
      newer than it. */
  predicate NewestFirst(a: PrintJob, b: PrintJob) {
    a.createdAt >= b.createdAt
  }

  lemma NewestFirstIsTotalPreorder()
    ensures TotalPreorder(NewestFirst)
  {
  }

  /** `take: 50`. */
  function Take<T>(s: seq<T>, n: nat): (r: seq<T>)
    ensures |r| == if |s| < n then |s| else n
    ensures r == s[..|r|]
  {
    if |s| < n then s else s[..n]
  }

  /** The history shown on the dashboard. */
  function History(jobs: seq<PrintJob>, userId: string): (r: seq<PrintJob>)
    ensures |r| <= HistoryLimit
    ensures forall k :: 0 <= k < |r| ==> r[k].userId == userId
    ensures forall i, j :: 0 <= i < j < |r| ==> r[i].createdAt >= r[j].createdAt
    ensures multiset(r) <= multiset(OwnedBy(jobs, userId))
    ensures |r| == if |OwnedBy(jobs, userId)| < HistoryLimit then |OwnedBy(jobs, userId)| else HistoryLimit
    ensures forall j | j in multiset(OwnedBy(jobs, userId)) - multiset(r) ::
              forall k | 0 <= k < |r| :: j.createdAt <= r[k].createdAt
  {
    NewestFirstIsTotalPreorder();
    var owned := OwnedBy(jobs, userId);
    var sorted := SortBy(owned, NewestFirst);
    var r := Take(sorted, HistoryLimit);
    HistoryProperties(owned, sorted, r);
    r
  }

  /** A prefix of a newest-first permutation of the user's jobs holds
      only the user's jobs, newest first, and every job it leaves out is
      no newer than any job it keeps. */
  lemma HistoryProperties(owned: seq<PrintJob>, sorted: seq<PrintJob>, r: seq<PrintJob>)
    requires multiset(sorted) == multiset(owned) && SortedBy(sorted, NewestFirst)
    requires |r| <= |sorted| && r == sorted[..|r|]
    ensures multiset(r) <= multiset(owned)
    ensures forall k :: 0 <= k < |r| ==> r[k] in owned
    ensures forall i, j :: 0 <= i < j < |r| ==> r[i].createdAt >= r[j].createdAt
    ensures forall j | j in multiset(owned) - multiset(r) :: forall k | 0 <= k < |r| :: j.createdAt <= r[k].createdAt
  {
    PrefixPart(owned, sorted, r);
    OmittedPart(owned, sorted, r);
  }

  lemma PrefixPart(owned: seq<PrintJob>, sorted: seq<PrintJob>, r: seq<PrintJob>)
    requires multiset(sorted) == multiset(owned)
    requires |r| <= |sorted| && r == sorted[..|r|]
    ensures multiset(r) <= multiset(owned)
    ensures forall k :: 0 <= k < |r| ==> r[k] in owned
  {
    assert sorted == r + sorted[|r|..];
    assert multiset(sorted) == multiset(r) + multiset(sorted[|r|..]);
    forall k | 0 <= k < |r| ensures r[k] in owned {
      assert r[k] in multiset(r);
      assert r[k] in multiset(owned);
    }
  }

  lemma OmittedPart(owned: seq<PrintJob>, sorted: seq<PrintJob>, r: seq<PrintJob>)
    requires multiset(sorted) == multiset(owned) && SortedBy(sorted, NewestFirst)
    requires |r| <= |sorted| && r == sorted[..|r|]
    ensures forall j | j in multiset(owned) - multiset(r) :: forall k | 0 <= k < |r| :: j.createdAt <= r[k].createdAt
  {
    var tail := sorted[|r|..];
    assert sorted == r + tail;
    assert multiset(owned) - multiset(r) == multiset(tail);
    forall j: PrintJob | j in multiset(tail)
      ensures forall k | 0 <= k < |r| :: j.createdAt <= r[k].createdAt
    {
      OmittedIsOlder(sorted, |r|, j);
    }
  }

  lemma OmittedIsOlder(sorted: seq<PrintJob>, n: nat, j: PrintJob)
    requires SortedBy(sorted, NewestFirst) && n <= |sorted|
    requires j in multiset(sorted[n..])
    ensures forall k | 0 <= k < n :: j.createdAt <= sorted[k].createdAt
  {
    var tail := sorted[n..];
    var m :| 0 <= m < |tail| && tail[m] == j;
    assert sorted[n + m] == j;
  }

  /** `orderBy: { name: 'asc' }`, comparing names character by character
      (the database's collation is not modelled). */
  predicate NameLe(a: string, b: string)
    decreases |a|
  {
    a == [] || (b != [] && (a[0] < b[0] || (a[0] == b[0] && NameLe(a[1..], b[1..]))))
  }

  lemma {:induction false} NameLeTotal(a: string, b: string)
    ensures NameLe(a, b) || NameLe(b, a)
    decreases |a|
  {
    if a != [] && b != [] && a[0] == b[0] {
      NameLeTotal(a[1..], b[1..]);
    }
  }

  lemma {:induction false} NameLeTransitive(a: string, b: string, c: string)
    requires NameLe(a, b) && NameLe(b, c)
    ensures NameLe(a, c)
    decreases |a|
  {
    if a != [] && b != [] && c != [] && a[0] == b[0] && b[0] == c[0] {
      NameLeTransitive(a[1..], b[1..], c[1..]);
    }
  }

  predicate ByName(p: Printer, q: Printer) {
    NameLe(p.name, q.name)
  }

  lemma ByNameIsTotalPreorder()
    ensures TotalPreorder(ByName)
  {
    forall p: Printer, q: Printer ensures ByName(p, q) || ByName(q, p) {
      NameLeTotal(p.name, q.name);
    }
    forall p: Printer, q: Printer, r: Printer | ByName(p, q) && ByName(q, r) ensures ByName(p, r) {
      NameLeTransitive(p.name, q.name, r.name);
    }
  }

  /** The page. */
  function DashboardPage(session: Option<string>, jobs: seq<PrintJob>, printers: seq<Printer>): (v: DashboardView)
    ensures session.None? <==> v == RedirectTo("/login")
    ensures session.Some? ==> v.Render? && v.userId == session.value && v.jobs == History(jobs, session.value)
    ensures v.Render? ==> SortedBy(v.printers, ByName) && multiset(v.printers) == multiset(printers)
  {
    if session.None? then RedirectTo("/login")
    else
      ByNameIsTotalPreorder();
      Render(session.value, History(jobs, session.value), SortBy(printers, ByName))
  }
}
