/** Listing jobs page by page. */
module Listing {
  import opened Contracts
  import opened Db
  import opened Ordering

  datatype Listed = Listed(id: Id, job: Job)

  /** The stored jobs in some order, each once. */
  ghost predicate Enumerates(records: seq<Listed>, jobs: map<Id, Job>) {
    && (forall i, j :: 0 <= i < j < |records| ==> records[i].id != records[j].id)
    && (forall r :: r in records <==> r.id in jobs && jobs[r.id] == r.job)
  }

  /** Newest first, the larger id first among equally old ones. */
  predicate Newer(a: Listed, b: Listed) {
    a.job.createdAt > b.job.createdAt || (a.job.createdAt == b.job.createdAt && StrLess(b.id, a.id))
  }

  predicate Shown(db: Db, scope: Scope, status: Option<JobStatus>, r: Listed) {
    r.id in db.jobs && Visible(db, r.id, scope) && (status.None? || r.job.status == status.value)
  }

  function AllShown(db: Db, records: seq<Listed>, scope: Scope, status: Option<JobStatus>): seq<Listed> {
    SortBy(Filter(records, (r: Listed) => Shown(db, scope, status, r)), Newer)
  }

  datatype Page = Page(items: seq<Listed>, nextCursor: Option<Id>)

  function IndexOf(all: seq<Listed>, id: Id): (k: nat)
    ensures k <= |all|
    ensures k < |all| ==> all[k].id == id
    ensures forall i :: 0 <= i < k ==> all[i].id != id
  {
    if all == [] then 0
    else if all[0].id == id then 0
    else 1 + IndexOf(all[1..], id)
  }

  /** Just after the cursor; a cursor that is not in the list starts over. */
  function StartAt(all: seq<Listed>, cursor: Option<Id>): (k: nat)
    ensures k <= |all|
  {
    if cursor.None? || IndexOf(all, cursor.value) == |all| then 0 else IndexOf(all, cursor.value) + 1
  }

  function PageOf(all: seq<Listed>, limit: nat, cursor: Option<Id>): (p: Page)
    ensures p.nextCursor.Some? ==> p.items != []
  {
    var start := StartAt(all, cursor);
    var rest := all[start..];
    var slice := if limit < |rest| then rest[..limit] else rest;
    Page(slice, if start + limit < |all| && slice != [] then Some(slice[|slice| - 1].id) else None)
  }

  function ListJobs(db: Db, records: seq<Listed>, scope: Scope, status: Option<JobStatus>, limit: nat,
                    cursor: Option<Id>): Page {
    PageOf(AllShown(db, records, scope, status), limit, cursor)
  }

  // ------------------------------------------------------------------ following

  ghost predicate DistinctIds(all: seq<Listed>) {
    forall i, j :: 0 <= i < j < |all| ==> all[i].id != all[j].id
  }

  lemma IndexOfAt(all: seq<Listed>, k: nat)
    requires DistinctIds(all) && k < |all|
    ensures IndexOf(all, all[k].id) == k
  {
  }

  /** The next page starts where this one ended. */
  lemma NextStart(all: seq<Listed>, limit: nat, cursor: Option<Id>)
    requires DistinctIds(all) && limit >= 1
    ensures var p, start := PageOf(all, limit, cursor), StartAt(all, cursor);
      && p.items == all[start..start + |p.items|]
      && (p.nextCursor.Some? ==> StartAt(all, p.nextCursor) == start + |p.items| > start)
      && (p.nextCursor.None? ==> start + |p.items| == |all|)
  {
    var p, start := PageOf(all, limit, cursor), StartAt(all, cursor);
    if p.nextCursor.Some? { IndexOfAt(all, start + |p.items| - 1); }
  }

  /** Every page from a cursor on, asked for one after the other. */
  function Follow(all: seq<Listed>, limit: nat, cursor: Option<Id>): seq<Page>
    requires DistinctIds(all) && limit >= 1
    decreases |all| - StartAt(all, cursor)
  {
    var p := PageOf(all, limit, cursor);
    NextStart(all, limit, cursor);
    [p] + if p.nextCursor.None? then [] else Follow(all, limit, p.nextCursor)
  }

  function Items(pages: seq<Page>): seq<Listed> {
    if pages == [] then [] else pages[0].items + Items(pages[1..])
  }

  lemma {:induction false} FollowReadsOn(all: seq<Listed>, limit: nat, cursor: Option<Id>)
    requires DistinctIds(all) && limit >= 1
    ensures Items(Follow(all, limit, cursor)) == all[StartAt(all, cursor)..]
    decreases |all| - StartAt(all, cursor)
  {
    var p, start := PageOf(all, limit, cursor), StartAt(all, cursor);
    NextStart(all, limit, cursor);
    hide PageOf, StartAt, Items;
    if p.nextCursor.None? {
      FirstItems(p, []);
      NoItems();
      assert [p] + [] == [p];
    } else {
      FirstItems(p, Follow(all, limit, p.nextCursor));
      FollowReadsOn(all, limit, p.nextCursor);
      Resume(all, start, start + |p.items|);
    }
  }

  lemma NoItems()
    ensures Items([]) == []
  {
  }

  lemma FirstItems(p: Page, rest: seq<Page>)
    ensures Items([p] + rest) == p.items + Items(rest)
  {
    assert ([p] + rest)[1..] == rest;
  }

  lemma Resume(all: seq<Listed>, start: nat, end: nat)
    requires start <= end <= |all|
    ensures all[start..] == all[start..end] + all[end..]
  {
  }

  lemma NewerIsStrict()
    ensures StrictOrder(Newer)
  {
    forall x, y | Newer(x, y) ensures !Newer(y, x) {
      if StrLess(y.id, x.id) { StrLessAsymmetric(y.id, x.id); }
    }
    forall x, y, z | Newer(x, y) && Newer(y, z) ensures Newer(x, z) {
      if StrLess(y.id, x.id) && StrLess(z.id, y.id) { StrLessTransitive(z.id, y.id, x.id); }
    }
  }

  lemma {:induction false} FilterKeepsIds(records: seq<Listed>, p: Listed -> bool)
    requires DistinctIds(records)
    ensures DistinctIds(Filter(records, p))
  {
    if records != [] {
      var rest := Filter(records[1..], p);
      assert forall i :: 0 <= i < |records| - 1 ==> records[1..][i] == records[i + 1];
      FilterKeepsIds(records[1..], p);
      forall i | 0 <= i < |rest| ensures rest[i].id != records[0].id {
        assert rest[i] in rest && rest[i] in records[1..];
        var k :| 0 <= k < |records| - 1 && records[1..][k] == rest[i];
        assert records[k + 1].id != records[0].id;
      }
    }
  }

  lemma ListedComparable(records: seq<Listed>)
    requires DistinctIds(records)
    ensures Comparable(records, Newer)
  {
    forall i, j | 0 <= i < j < |records| ensures Newer(records[i], records[j]) || Newer(records[j], records[i]) {
      StrLessTotal(records[i].id, records[j].id);
    }
  }

  /** The list behind the pages: exactly the jobs shown, newest first, none twice. */
  lemma ShownInOrder(db: Db, records: seq<Listed>, scope: Scope, status: Option<JobStatus>)
    requires Enumerates(records, db.jobs)
    ensures var all := AllShown(db, records, scope, status);
      && Ordered(all, Newer) && DistinctIds(all)
      && forall r :: r in all <==> r.id in db.jobs && db.jobs[r.id] == r.job && Shown(db, scope, status, r)
  {
    var shown := Filter(records, (r: Listed) => Shown(db, scope, status, r));
    FilterKeepsIds(records, (r: Listed) => Shown(db, scope, status, r));
    ListedComparable(shown);
    NewerIsStrict();
    SortOrders(shown, Newer);
    var all := AllShown(db, records, scope, status);
    hide Shown, SortBy;
    forall i, j | 0 <= i < j < |all| ensures all[i].id != all[j].id {
      assert Newer(all[i], all[j]);
      if StrLess(all[j].id, all[i].id) { StrLessAsymmetric(all[j].id, all[i].id); }
      else { assert all[i] in shown && all[j] in shown; SameIdSameJob(records, db.jobs, all[i], all[j]); }
    }
  }

  lemma SameIdSameJob(records: seq<Listed>, jobs: map<Id, Job>, a: Listed, b: Listed)
    requires Enumerates(records, jobs) && a in records && b in records
    ensures a.id == b.id ==> a == b
  {
  }

  /** Following nextCursor from the start over a fixed store, for any limit from 1 up, ends
      and yields exactly the visible jobs of the status asked for, newest first,
      the larger id first among equally old ones, with no repeats and no gaps; every page but the last
      is full. */
  lemma PagesCoverTheList(db: Db, records: seq<Listed>, scope: Scope, status: Option<JobStatus>, limit: nat)
    requires Enumerates(records, db.jobs) && limit >= 1
    ensures var all := AllShown(db, records, scope, status);
      && DistinctIds(all)
      && (forall i, k :: 0 <= i < k < |all| ==>
            && all[i].job.createdAt >= all[k].job.createdAt
            && (all[i].job.createdAt == all[k].job.createdAt ==> StrLess(all[k].id, all[i].id)))
      && (forall r :: r in all <==> r.id in db.jobs && db.jobs[r.id] == r.job && Visible(db, r.id, scope)
                                    && (status.None? || r.job.status == status.value))
      && Items(Follow(all, limit, None)) == all
      && forall p :: p in Follow(all, limit, None) ==>
           |p.items| <= limit && (p.nextCursor.Some? ==> |p.items| == limit)
  {
    ShownInOrder(db, records, scope, status);
    var all := AllShown(db, records, scope, status);
    ShownMeans(db, scope, status);
    forall i, k | 0 <= i < k < |all|
      ensures all[i].job.createdAt >= all[k].job.createdAt
      ensures all[i].job.createdAt == all[k].job.createdAt ==> StrLess(all[k].id, all[i].id)
    {
      assert Newer(all[i], all[k]);
    }
    hide AllShown, Shown, Newer, Visible;
    FollowReadsOn(all, limit, None);
    PagesFit(all, limit, None);
  }

  lemma ShownMeans(db: Db, scope: Scope, status: Option<JobStatus>)
    ensures forall r :: Shown(db, scope, status, r) <==>
      r.id in db.jobs && Visible(db, r.id, scope) && (status.None? || r.job.status == status.value)
  {
    hide Visible;
  }

  lemma {:induction false} PagesFit(all: seq<Listed>, limit: nat, cursor: Option<Id>)
    requires DistinctIds(all) && limit >= 1
    ensures forall p :: p in Follow(all, limit, cursor) ==>
      |p.items| <= limit && (p.nextCursor.Some? ==> |p.items| == limit)
    decreases |all| - StartAt(all, cursor)
  {
    var p := PageOf(all, limit, cursor);
    NextStart(all, limit, cursor);
    if p.nextCursor.Some? { PagesFit(all, limit, p.nextCursor); }
  }

  /** Nor does the list depend on how the jobs are stored. */
  lemma ListForgetsStorage(db: Db, a: seq<Listed>, b: seq<Listed>, scope: Scope, status: Option<JobStatus>)
    requires Enumerates(a, db.jobs) && Enumerates(b, db.jobs)
    ensures AllShown(db, a, scope, status) == AllShown(db, b, scope, status)
  {
    ShownInOrder(db, a, scope, status);
    ShownInOrder(db, b, scope, status);
    NewerIsStrict();
    hide AllShown, Shown, Newer;
    OneOrder(AllShown(db, a, scope, status), AllShown(db, b, scope, status), Newer);
  }
}
