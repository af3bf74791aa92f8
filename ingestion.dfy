/**
 * Ingestion of the newer data builder (telegram_bot/data_builder.py): region registration
 * guarded by a row count, and warning ingestion of a list of feed snapshots, each
 * deduplicated by its `Stand` timestamp.
 */
module Ingestion {
  import opened Tables

  /** One element of a snapshot's `Warnstufen` list: `GKZ` and `Warnstufe`. */
  datatype Reading = Reading(code: nat, level: int)

  /**
   * One feed snapshot. `kw` is the ISO 8601 week number of `stand`, which the source
   * computes with `strptime(...).isocalendar()[1]`; the model takes it as given.
   */
  datatype Snapshot = Snapshot(stand: string, kw: int, readings: seq<Reading>)

  /** What `insert_regions` leaves in the region table: nothing new when the counts agree. */
  function RegionsAfter(regions: map<nat, RegionInfo>, feed: seq<RegionRecord>): (m: map<nat, RegionInfo>)
    ensures forall c :: c in regions ==> c in m && m[c] == regions[c]
    ensures forall c :: c in m ==> c in regions || exists i :: 0 <= i < |feed| && feed[i].code == c
    ensures |regions| == |feed| ==> m == regions
    ensures |regions| != |feed| ==> forall i :: 0 <= i < |feed| ==> feed[i].code in m
  {
    if |regions| == |feed| then regions else RegisterAll(regions, feed)
  }

  /** An immediate second `insert_regions` with the same feed inserts nothing. */
  lemma RegionsAfterTwice(regions: map<nat, RegionInfo>, feed: seq<RegionRecord>)
    ensures RegionsAfter(RegionsAfter(regions, feed), feed) == RegionsAfter(regions, feed)
  {
    if |regions| != |feed| {
      RegisterAllTwice(regions, feed);
    }
  }

  /**
   * The count shortcut can hide a new region: one stored region and a feed holding one
   * other region leave the table unchanged.
   */
  lemma RegionsAfterCountShortcut(old_: RegionInfo, fresh_: RegionRecord)
    requires fresh_.code != 0
    ensures fresh_.code !in RegionsAfter(map[0 := old_], [fresh_])
  {
    assert |map[0 := old_]| == 1;
  }

  /** `insert_regions` (telegram_bot/data_builder.py:59-102). */
  method InsertRegions(db: Database, feed: seq<RegionRecord>)
    modifies db
    ensures db.State() == old(db.State()).(regions := RegionsAfter(old(db.regions), feed))
    ensures old(db.Valid()) ==> db.Valid()
  {
    if |db.regions| == |feed| {
      return;
    }
    var i := 0;
    while i < |feed|
      invariant 0 <= i <= |feed|
      invariant db.State() == old(db.State()).(regions := RegisterAll(old(db.regions), feed[..i]))
    {
      var r := feed[i];
      if !(r.code in db.regions && db.regions[r.code] == RegionInfo(r.kind, r.name)) {
        if r.code !in db.regions {
          db.regions := db.regions[r.code := RegionInfo(r.kind, r.name)];
        }
      }
      assert feed[..i + 1][..i] == feed[..i];
      i := i + 1;
    }
    assert feed[..i] == feed;
  }

  /** The records of a snapshot as the ingestion loop sees them; the reason is always "Null". */
  function SnapshotRecords(snap: Snapshot): (obs: seq<Observation>)
    ensures |obs| == |snap.readings|
    ensures forall i :: 0 <= i < |obs| ==>
      obs[i] == Observation(snap.readings[i].code, snap.kw, snap.readings[i].level, "Null")
  {
    seq(|snap.readings|, i requires 0 <= i < |snap.readings| =>
      Observation(snap.readings[i].code, snap.kw, snap.readings[i].level, "Null"))
  }

  /**
   * One snapshot (telegram_bot/data_builder.py:120-208): skipped when its timestamp is
   * recorded, otherwise the timestamp is recorded and the readings are ingested in order.
   */
  function IngestSnapshot(st: DbState, snap: Snapshot): (r: (DbState, bool))
    ensures r.0.updateTimes == st.updateTimes + {snap.stand}
    ensures st.warnings.Keys <= r.0.warnings.Keys
    ensures r.0.regions == st.regions && r.0.users == st.users && r.0.subscriptions == st.subscriptions
    ensures Consistent(st) ==> Consistent(r.0)
  {
    if snap.stand in st.updateTimes then (st, false)
    else
      var start := st.(updateTimes := st.updateTimes + {snap.stand});
      assert Consistent(st) ==> Consistent(start);
      RecordAll(start, SnapshotRecords(snap))
  }

  /** The timestamps of a list of snapshots. */
  function Stands(feed: seq<Snapshot>): set<string>
  {
    set i | 0 <= i < |feed| :: feed[i].stand
  }

  /** The snapshots in the order given; the flag says whether any region got its first revision. */
  function IngestFeed(st: DbState, feed: seq<Snapshot>): (r: (DbState, bool))
    ensures r.0.updateTimes == st.updateTimes + Stands(feed)
    ensures st.warnings.Keys <= r.0.warnings.Keys
    ensures r.0.regions == st.regions && r.0.users == st.users
    ensures r.0.subscriptions == st.subscriptions
    ensures Consistent(st) ==> Consistent(r.0)
  {
    if feed == [] then (st, false)
    else
      var p := feed[..|feed| - 1];
      var prefix := IngestFeed(st, p);
      var last := IngestSnapshot(prefix.0, feed[|feed| - 1]);
      assert Stands(feed) == Stands(p) + {feed[|feed| - 1].stand} by {
        assert forall i :: 0 <= i < |p| ==> p[i] == feed[i];
      }
      (last.0, prefix.1 || last.1)
  }

  /** `reverse_order` visits the snapshots last to first (telegram_bot/data_builder.py:114-117). */
  function VisitOrder(feed: seq<Snapshot>, reverseOrder: bool): (order: seq<Snapshot>)
    ensures |order| == |feed|
    ensures forall k :: 0 <= k < |feed| ==>
      order[k] == if reverseOrder then feed[|feed| - 1 - k] else feed[k]
  {
    if reverseOrder then seq(|feed|, k requires 0 <= k < |feed| => feed[|feed| - 1 - k]) else feed
  }

  /** `insert_warnings` (telegram_bot/data_builder.py:105-210). */
  method InsertWarnings(db: Database, feed: seq<Snapshot>, reverseOrder: bool) returns (inserted: bool)
    modifies db
    ensures (db.State(), inserted) == IngestFeed(old(db.State()), VisitOrder(feed, reverseOrder))
    ensures old(db.Valid()) ==> db.Valid()
  {
    var order := VisitOrder(feed, reverseOrder);
    inserted := IngestSnapshots(db, order);
  }

  /** The snapshot loop of `insert_warnings` (telegram_bot/data_builder.py:120-208). */
  method IngestSnapshots(db: Database, order: seq<Snapshot>) returns (inserted: bool)
    modifies db
    ensures db.State() == IngestFeed(old(db.State()), order).0
    ensures inserted == IngestFeed(old(db.State()), order).1
  {
    inserted := false;
    ghost var st := db.State();
    var k := 0;
    while k < |order|
      invariant 0 <= k <= |order|
      invariant db.State() == IngestFeed(st, order[..k]).0
      invariant inserted == IngestFeed(st, order[..k]).1
    {
      IngestFeedSnoc(st, order, k);
      var firstSeen := IngestSnapshotStep(db, order[k]);
      inserted := inserted || firstSeen;
      k := k + 1;
    }
    assert order[..k] == order;
  }

  /** One more snapshot of a feed is one more `IngestSnapshot` step. */
  lemma IngestFeedSnoc(st: DbState, feed: seq<Snapshot>, k: nat)
    requires k < |feed|
    ensures IngestFeed(st, feed[..k + 1]).0 == IngestSnapshot(IngestFeed(st, feed[..k]).0, feed[k]).0
    ensures IngestFeed(st, feed[..k + 1]).1
         == (IngestFeed(st, feed[..k]).1 || IngestSnapshot(IngestFeed(st, feed[..k]).0, feed[k]).1)
  {
    assert feed[..k + 1][..k] == feed[..k];
  }

  /** One pass of the snapshot loop (telegram_bot/data_builder.py:120-208). */
  method IngestSnapshotStep(db: Database, snap: Snapshot) returns (firstSeen: bool)
    modifies db
    ensures (db.State(), firstSeen) == IngestSnapshot(old(db.State()), snap)
  {
    firstSeen := false;
    if snap.stand !in db.updateTimes {
      db.updateTimes := db.updateTimes + {snap.stand};
      firstSeen := IngestReadings(db, snap);
    }
  }

  /** The readings of one snapshot, in feed order (telegram_bot/data_builder.py:148-208). */
  method IngestReadings(db: Database, snap: Snapshot) returns (firstSeen: bool)
    modifies db
    ensures (db.State(), firstSeen) == RecordAll(old(db.State()), SnapshotRecords(snap))
  {
    ghost var obs := SnapshotRecords(snap);
    firstSeen := false;
    var j := 0;
    while j < |snap.readings|
      invariant 0 <= j <= |snap.readings|
      invariant (db.State(), firstSeen) == RecordAll(old(db.State()), obs[..j])
    {
      var reading := snap.readings[j];
      var o := Observation(reading.code, snap.kw, reading.level, "Null");
      assert o == obs[j];
      RecordAllSnoc(old(db.State()), obs, j);
      var first := RecordObservation(db, o);
      firstSeen := firstSeen || first;
      j := j + 1;
    }
    assert obs[..j] == obs;
  }

  /** A feed whose every timestamp is already recorded writes nothing. */
  lemma {:induction false} IngestFeedSeen(st: DbState, feed: seq<Snapshot>)
    requires forall i :: 0 <= i < |feed| ==> feed[i].stand in st.updateTimes
    ensures IngestFeed(st, feed) == (st, false)
  {
    if feed != [] {
      var p := feed[..|feed| - 1];
      assert forall i :: 0 <= i < |p| ==> p[i] == feed[i];
      IngestFeedSeen(st, p);
    }
  }

  /**
   * Running `insert_warnings` again on the same feed, in either order, adds no ledger
   * entry, no pending row and no timestamp, and returns false.
   */
  lemma InsertWarningsTwice(st: DbState, feed: seq<Snapshot>, first: bool, second: bool)
    ensures var t := IngestFeed(st, VisitOrder(feed, first)).0;
            IngestFeed(t, VisitOrder(feed, second)) == (t, false)
  {
    var t := IngestFeed(st, VisitOrder(feed, first)).0;
    var o1 := VisitOrder(feed, first);
    var o2 := VisitOrder(feed, second);
    forall i | 0 <= i < |o2|
      ensures o2[i].stand in t.updateTimes
    {
      var j := if first == second then i else |feed| - 1 - i;
      assert o1[j] == o2[i];
    }
    IngestFeedSeen(t, o2);
  }

  /**
   * The return value is true exactly when some region received its first revision; level
   * changes of known regions never set it.
   */
  lemma {:induction false} IngestFeedFlag(st: DbState, feed: seq<Snapshot>)
    requires Consistent(st)
    ensures IngestFeed(st, feed).1 <==> IngestFeed(st, feed).0.warnings.Keys != st.warnings.Keys
  {
    if feed != [] {
      var p := feed[..|feed| - 1];
      IngestFeedFlag(st, p);
      var mid := IngestFeed(st, p).0;
      var snap := feed[|feed| - 1];
      if snap.stand !in mid.updateTimes {
        var start := mid.(updateTimes := mid.updateTimes + {snap.stand});
        assert Consistent(start);
        RecordAllFlag(start, SnapshotRecords(snap));
      }
    }
  }
}
