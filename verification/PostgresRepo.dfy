/** The `repo.Postgres` methods that are more than one statement: loops over inserts and over the
    rows of an ordered query (internal/repo/postgres_*.go). */
module PostgresRepo {
  import opened Core
  import opened Tables
  import Sql = Tables
  import Repo = Repository

  /** The columns `resource_id` and `revision` are the key of a row. */
  predicate RowsKeyed(t: Tables) {
    forall k | k in t.resourceRevs :: t.resourceRevs[k].resourceId == k.0 && t.resourceRevs[k].number == k.1
  }

  /** Highest number first, every row of the resource once. */
  predicate DescendingRows(t: Tables, d: Id, rows: seq<ResourceRevision>) {
    && (forall i, j | 0 <= i < j < |rows| :: rows[i].number > rows[j].number)
    && (forall i | 0 <= i < |rows| ::
        (d, rows[i].number) in t.resourceRevs && t.resourceRevs[(d, rows[i].number)] == rows[i])
    && (forall n | n in ResourceNumbers(t, d) :: Has(rows, n))
  }

  predicate Has(rows: seq<ResourceRevision>, n: int) {
    exists i | 0 <= i < |rows| :: rows[i].number == n
  }

  lemma HasMore(rows: seq<ResourceRevision>, row: ResourceRevision, n: int)
    ensures Has(rows, n) || row.number == n ==> Has(rows + [row], n)
  {
    assert (rows + [row])[|rows|] == row;
    if Has(rows, n) {
      var i :| 0 <= i < |rows| && rows[i].number == n;
      assert (rows + [row])[i] == rows[i];
    }
  }

  /** The rows already read; the numbers `left` are all smaller. */
  ghost predicate Scanned(t: Tables, d: Id, rows: seq<ResourceRevision>, left: set<int>) {
    && (forall i, j | 0 <= i < j < |rows| :: rows[i].number > rows[j].number)
    && (forall i | 0 <= i < |rows| ::
        (d, rows[i].number) in t.resourceRevs && t.resourceRevs[(d, rows[i].number)] == rows[i])
    && (forall i, n | 0 <= i < |rows| && n in left :: n < rows[i].number)
    && (forall n | n in ResourceNumbers(t, d) :: n in left || Has(rows, n))
  }

  lemma ScanOne(t: Tables, d: Id, rows: seq<ResourceRevision>, left: set<int>, n: int)
    requires RowsKeyed(t) && Scanned(t, d, rows, left) && left <= ResourceNumbers(t, d)
    requires n in left && forall m | m in left :: m <= n
    ensures Scanned(t, d, rows + [t.resourceRevs[(d, n)]], left - {n})
  {
    var row := t.resourceRevs[(d, n)];
    assert row.number == n;
    forall k { HasMore(rows, row, k); }
    hide Has;
  }

  class Postgres {
    var db: Tables

    constructor (db: Tables)
      ensures this.db == db
    {
      this.db := db;
    }

    method CreateTracks(p: Id, tracks: seq<Track>) returns (out: Count)
      modifies this
      ensures (db, out) == Repo.InsertTracks(old(db), p, tracks)
    {
      var created: nat := 0;
      for i := 0 to |tracks|
        invariant (db, Count(created, Pass)) == Repo.InsertTracks(old(db), p, tracks[..i])
      {
        assert tracks[..i + 1][..i] == tracks[..i];
        var (db1, tag) := CreateTrack(db, p, tracks[i]);
        db := db1;
        if tag.Err? {
          FailedTracks(old(db), p, tracks, i + 1);
          return Count(created, Fail(tag.error));
        }
        created := created + tag.value;
      }
      assert tracks[..|tracks|] == tracks;
      out := Count(created, Pass);
    }

    /** `ORDER BY revision DESC`, row by row. */
    method ListResourceRevisions(d: Id) returns (rows: seq<ResourceRevision>)
      requires RowsKeyed(db)
      ensures DescendingRows(db, d, rows)
    {
      rows := [];
      var left := ResourceNumbers(db, d);
      while left != {}
        invariant left <= ResourceNumbers(db, d) && Scanned(db, d, rows, left)
        decreases |left|
      {
        hide Scanned;
        var n := Next(left);
        ScanOne(db, d, rows, left, n);
        rows := rows + [db.resourceRevs[(d, n)]];
        left := left - {n};
      }
    }

    method GetResourceRevision(d: Id, n: int) returns (out: Option<ResourceRevision>)
      requires RowsKeyed(db)
      ensures out == Sql.GetResourceRevision(db, d, n)
    {
      var rows := ListResourceRevisions(d);
      for i := 0 to |rows|
        invariant forall j | 0 <= j < i :: rows[j].number != n
      {
        if rows[i].number == n {
          return Some(rows[i]);
        }
      }
      assert n !in ResourceNumbers(db, d);
      out := None;
    }

    method ResolveDefaultRelease(w: World, p: Id) returns (out: Option<Release>)
      ensures out == Sql.ResolveDefaultRelease(w, db, p)
    {
      if p in db.packages {
        out := ResolveRelease(db, p, DefaultChannel(db.packages[p]));
        if out.Some? {
          return;
        }
      }
      var releases := ListReleases(db, p);
      out := if releases == {} then None else Some(w.newest(releases));
    }
  }

  /** The next number of a descending scan. */
  method Next(left: set<int>) returns (n: int)
    requires left != {}
    ensures n in left && forall m | m in left :: m <= n
  {
    assert (forall m: int :: m !in left) ==> left == {};
    n :| n in left;
    var todo := left;
    while todo != {}
      invariant n in left && todo <= left
      invariant forall m | m in left && m !in todo :: m <= n
      decreases |todo|
    {
      assert (forall m: int :: m !in todo) ==> todo == {};
      var m :| m in todo;
      todo := todo - {m};
      if m > n {
        n := m;
      }
    }
  }

  /** Once an insert has failed, the rest of the list does not matter. */
  lemma {:induction false} FailedTracks(t: Tables, p: Id, tracks: seq<Track>, i: nat)
    requires i <= |tracks| && Repo.InsertTracks(t, p, tracks[..i]).1.outcome.Fail?
    ensures Repo.InsertTracks(t, p, tracks) == Repo.InsertTracks(t, p, tracks[..i])
    decreases |tracks|
  {
    if i < |tracks| {
      var init := tracks[..|tracks| - 1];
      assert init[..i] == tracks[..i];
      FailedTracks(t, p, init, i);
    } else {
      assert tracks[..i] == tracks;
    }
  }

  /** The row `PushResource` takes as `existing[0]` is the first of that list. */
  lemma FirstIsFirst(t: Tables, d: Id, rows: seq<ResourceRevision>)
    requires DescendingRows(t, d, rows)
    ensures FirstResourceRevision(t, d) == if rows == [] then None else Some(rows[0])
  {
    if rows != [] {
      assert rows[0].number in ResourceNumbers(t, d);
      var largest := Largest(ResourceNumbers(t, d));
      var i :| 0 <= i < |rows| && rows[i].number == largest;
      assert rows[0].number >= rows[i].number;
    } else {
      assert forall n :: n !in ResourceNumbers(t, d);
    }
  }
}
