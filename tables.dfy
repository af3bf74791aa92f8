/**
 * The bot's SQLite database as six in-memory tables, and the step both versions of the
 * ingestion program use to record one observed alert level in the warning ledger.
 *
 * - `regions`: id -> (type, name); `id INTEGER PRIMARY KEY` (constants.py:52-57).
 * - `warnings`: per region, its entries in revision order (revision, kw, level, reason).
 * - `updateTimes`: the `Stand` timestamps of the feed snapshots already ingested.
 * - `updates`: the rows of the pending-update table, one region id per row, oldest first.
 * - `users`: chat id -> display name.
 * - `subscriptions`: the (user, region) rows, in insertion order.
 */
module Tables {
  import opened Common

  datatype RegionInfo = RegionInfo(kind: string, name: string)

  datatype WarningEntry = WarningEntry(revision: nat, kw: int, level: int, reason: string)

  datatype Subscription = Subscription(user: int, region: nat)

  datatype DbState = DbState(
    regions: map<nat, RegionInfo>,
    warnings: map<nat, seq<WarningEntry>>,
    updateTimes: set<string>,
    updates: seq<nat>,
    users: map<int, string>,
    subscriptions: seq<Subscription>)

  /** A region's history: revisions 1, 2, ..., n and no two consecutive entries at one level. */
  predicate History(es: seq<WarningEntry>)
  {
    && |es| >= 1
    && (forall i :: 0 <= i < |es| ==> es[i].revision == i + 1)
    && (forall i :: 0 < i < |es| ==> es[i].level != es[i - 1].level)
  }

  /** Every pending row names a region with at least two entries (a "before" and an "after"). */
  predicate PendingHaveTwo(st: DbState)
  {
    forall i :: 0 <= i < |st.updates| ==>
      st.updates[i] in st.warnings && |st.warnings[st.updates[i]]| >= 2
  }

  /** The invariant the bot's operations keep. */
  predicate Consistent(st: DbState)
  {
    && (forall c :: c in st.warnings ==> History(st.warnings[c]))
    && PendingHaveTwo(st)
    && NoDup(st.subscriptions)
    && (forall i :: 0 <= i < |st.subscriptions| ==> st.subscriptions[i].user in st.users)
  }

  class Database {
    var regions: map<nat, RegionInfo>
    var warnings: map<nat, seq<WarningEntry>>
    var updateTimes: set<string>
    var updates: seq<nat>
    var users: map<int, string>
    var subscriptions: seq<Subscription>

    /** A freshly created database: all tables empty. */
    constructor ()
      ensures State() == DbState(map[], map[], {}, [], map[], [])
      ensures Valid()
    {
      regions, warnings, updateTimes, updates := map[], map[], {}, [];
      users, subscriptions := map[], [];
    }

    function State(): DbState
      reads this
    {
      DbState(regions, warnings, updateTimes, updates, users, subscriptions)
    }

    predicate Valid()
      reads this
    {
      Consistent(State())
    }
  }

  /** One feed record as the ingestion loop sees it. */
  datatype Observation = Observation(code: nat, kw: int, level: int, reason: string)

  /** The region has no ledger entry yet (`CHECK_WARNING` returns no row). */
  predicate Unseen(st: DbState, code: nat)
  {
    code !in st.warnings || st.warnings[code] == []
  }

  /** The newest entry of a region: the first row of `CHECK_WARNING ... ORDER BY revision DESC`. */
  function Newest(es: seq<WarningEntry>): WarningEntry
    requires es != []
  {
    es[|es| - 1]
  }

  /** The observed level is the region's current one. */
  predicate AtLevel(st: DbState, code: nat, level: int)
  {
    code in st.warnings && st.warnings[code] != [] && Newest(st.warnings[code]).level == level
  }

  /**
   * Records one observation (telegram_bot/data_builder.py:148-208, data_builder.py:107-149).
   * The flag says whether this was the region's first revision.
   */
  function Record(st: DbState, o: Observation): (r: (DbState, bool))
    ensures r.0 == st.(warnings := r.0.warnings, updates := r.0.updates)
    ensures r.1 <==> Unseen(st, o.code)
    // first sighting: revision 1, nothing enqueued
    ensures Unseen(st, o.code) ==>
      r.0 == st.(warnings := st.warnings[o.code := [WarningEntry(1, o.kw, o.level, o.reason)]])
    // same level as the newest entry: no write at all
    ensures AtLevel(st, o.code, o.level) ==> r.0 == st
    // changed level: one entry with the next revision, and the region enqueued once
    ensures !Unseen(st, o.code) && !AtLevel(st, o.code, o.level) ==>
      var es := st.warnings[o.code];
      r.0.warnings == st.warnings[o.code := es + [WarningEntry(Newest(es).revision + 1, o.kw, o.level, o.reason)]] &&
      r.0.updates == st.updates + [o.code]
    ensures o.code in r.0.warnings && r.0.warnings.Keys == st.warnings.Keys + {o.code}
    ensures AtLevel(r.0, o.code, o.level)
    ensures Consistent(st) ==> Consistent(r.0)
  {
    if Unseen(st, o.code) then
      (st.(warnings := st.warnings[o.code := [WarningEntry(1, o.kw, o.level, o.reason)]]), true)
    else
      var es := st.warnings[o.code];
      var latest := Newest(es);
      if latest.level != o.level then
        var es' := es + [WarningEntry(latest.revision + 1, o.kw, o.level, o.reason)];
        assert es'[..|es|] == es;
        (st.(warnings := st.warnings[o.code := es'], updates := st.updates + [o.code]), false)
      else
        (st, false)
  }

  /** The ledger and queue writes of one observation, as the ingestion loops issue them. */
  method RecordObservation(db: Database, o: Observation) returns (first: bool)
    modifies db
    ensures (db.State(), first) == Record(old(db.State()), o)
  {
    first := o.code !in db.warnings || db.warnings[o.code] == [];
    if first {
      db.warnings := db.warnings[o.code := [WarningEntry(1, o.kw, o.level, o.reason)]];
    } else {
      var es := db.warnings[o.code];
      var latest := es[|es| - 1];
      if latest.level != o.level {
        db.warnings := db.warnings[o.code := es + [WarningEntry(latest.revision + 1, o.kw, o.level, o.reason)]];
        db.updates := db.updates + [o.code];
      }
    }
  }

  /**
   * Records the observations in order; the flag says whether any of them was a region's
   * first revision.
   */
  function RecordAll(st: DbState, obs: seq<Observation>): (r: (DbState, bool))
    ensures r.0 == st.(warnings := r.0.warnings, updates := r.0.updates)
    ensures Consistent(st) ==> Consistent(r.0)
    ensures forall i :: 0 <= i < |obs| ==> obs[i].code in r.0.warnings
    ensures r.0.warnings.Keys == st.warnings.Keys + Codes(obs)
  {
    if obs == [] then (st, false)
    else
      var prefix := RecordAll(st, obs[..|obs| - 1]);
      var last := Record(prefix.0, obs[|obs| - 1]);
      assert forall i :: 0 <= i < |obs| - 1 ==> obs[..|obs| - 1][i] == obs[i];
      (last.0, prefix.1 || last.1)
  }

  /** One more observation of a batch is one more `Record` step. */
  lemma RecordAllSnoc(st: DbState, obs: seq<Observation>, k: nat)
    requires k < |obs|
    ensures var prefix := RecordAll(st, obs[..k]);
            RecordAll(st, obs[..k + 1])
            == (Record(prefix.0, obs[k]).0, prefix.1 || Record(prefix.0, obs[k]).1)
  {
    assert obs[..k + 1][..k] == obs[..k];
  }

  /** The regions a batch mentions. */
  function Codes(obs: seq<Observation>): set<nat>
  {
    if obs == [] then {} else Codes(obs[..|obs| - 1]) + {obs[|obs| - 1].code}
  }

  /**
   * The flag of a run is set exactly when some region got its first revision in it, i.e.
   * when the set of regions with a history grew.
   */
  lemma {:induction false} RecordAllFlag(st: DbState, obs: seq<Observation>)
    requires Consistent(st)
    ensures RecordAll(st, obs).1 <==> RecordAll(st, obs).0.warnings.Keys != st.warnings.Keys
  {
    if obs != [] {
      var p := obs[..|obs| - 1];
      RecordAllFlag(st, p);
      var mid := RecordAll(st, p).0;
      assert Consistent(mid);
      var x := obs[|obs| - 1];
      if x.code in mid.warnings {
        assert !Unseen(mid, x.code);
      }
    }
  }

  /** Running a batch in two pieces is running it once. */
  lemma {:induction false} RecordAllAppend(st: DbState, a: seq<Observation>, b: seq<Observation>)
    ensures RecordAll(st, a + b)
         == (RecordAll(RecordAll(st, a).0, b).0, RecordAll(st, a).1 || RecordAll(RecordAll(st, a).0, b).1)
    decreases |b|
  {
    if b == [] {
      assert a + b == a;
    } else {
      var b' := b[..|b| - 1];
      var x := b[|b| - 1];
      RecordAllAppend(st, a, b');
      assert (a + b)[..|a + b| - 1] == a + b';
      assert (a + b)[|a + b| - 1] == x;
      var mid := RecordAll(st, a);
      var inner := RecordAll(mid.0, b');
      var step := Record(inner.0, x);
      assert RecordAll(st, a + b') == (inner.0, mid.1 || inner.1);
      assert RecordAll(st, a + b) == (step.0, (mid.1 || inner.1) || step.1);
      assert RecordAll(mid.0, b) == (step.0, inner.1 || step.1);
    }
  }

  /** A batch whose every record repeats its region's current level changes nothing. */
  lemma {:induction false} RecordAllAtLevel(st: DbState, obs: seq<Observation>)
    requires forall i :: 0 <= i < |obs| ==> AtLevel(st, obs[i].code, obs[i].level)
    ensures RecordAll(st, obs).0 == st
  {
    if obs != [] {
      RecordAllAtLevel(st, obs[..|obs| - 1]);
      assert AtLevel(st, obs[|obs| - 1].code, obs[|obs| - 1].level);
    }
  }

  /** All records of one region carry one level. */
  predicate UniformLevels(obs: seq<Observation>)
  {
    forall i, j :: 0 <= i < |obs| && 0 <= j < |obs| && obs[i].code == obs[j].code ==>
      obs[i].level == obs[j].level
  }

  /** After a batch with uniform levels, every region in it sits at its batch level. */
  lemma {:induction false} RecordAllSettles(st: DbState, obs: seq<Observation>)
    requires UniformLevels(obs)
    ensures forall i :: 0 <= i < |obs| ==> AtLevel(RecordAll(st, obs).0, obs[i].code, obs[i].level)
  {
    if obs != [] {
      var p := obs[..|obs| - 1];
      assert UniformLevels(p);
      RecordAllSettles(st, p);
      var mid := RecordAll(st, p).0;
      var x := obs[|obs| - 1];
      var after := Record(mid, x).0;
      forall i | 0 <= i < |obs|
        ensures AtLevel(after, obs[i].code, obs[i].level)
      {
        if i < |obs| - 1 {
          assert p[i] == obs[i];
          if obs[i].code != x.code {
            assert after.warnings[obs[i].code] == mid.warnings[obs[i].code];
          }
        }
      }
    }
  }

  /**
   * Ingesting a batch twice leaves the ledger and the queue as after the first time, when
   * no region occurs in it with two different levels.
   */
  lemma RecordAllTwice(st: DbState, obs: seq<Observation>)
    requires UniformLevels(obs)
    ensures RecordAll(RecordAll(st, obs).0, obs).0 == RecordAll(st, obs).0
  {
    RecordAllSettles(st, obs);
    RecordAllAtLevel(RecordAll(st, obs).0, obs);
  }

  /** One element of the feed's `Regionen` list: `GKZ`, `Region`, `Name`. */
  datatype RegionRecord = RegionRecord(code: nat, kind: string, name: string)

  /** `REGION_CHECK` finds the exact (id, type, name) triple. */
  predicate Registered(regions: map<nat, RegionInfo>, r: RegionRecord)
  {
    r.code in regions && regions[r.code] == RegionInfo(r.kind, r.name)
  }

  /**
   * Registers one feed region (telegram_bot/data_builder.py:78-96, data_builder.py:85-96).
   * A known triple is skipped; a new triple whose id is already taken is refused by the
   * primary key, and the swallowed error leaves the table as it was.
   */
  function Register(regions: map<nat, RegionInfo>, r: RegionRecord): (m: map<nat, RegionInfo>)
    ensures m.Keys == regions.Keys + {r.code}
    ensures forall c :: c in regions ==> m[c] == regions[c]
    ensures r.code !in regions ==> Registered(m, r)
  {
    if r.code in regions then regions else regions[r.code := RegionInfo(r.kind, r.name)]
  }

  /** Registers the feed's regions in order. */
  function RegisterAll(regions: map<nat, RegionInfo>, feed: seq<RegionRecord>): (m: map<nat, RegionInfo>)
    ensures forall c :: c in regions ==> c in m && m[c] == regions[c]
    ensures forall i :: 0 <= i < |feed| ==> feed[i].code in m
    ensures forall c :: c in m ==> c in regions || exists i :: 0 <= i < |feed| && feed[i].code == c
  {
    if feed == [] then regions
    else
      var p := feed[..|feed| - 1];
      assert forall i :: 0 <= i < |p| ==> p[i] == feed[i];
      Register(RegisterAll(regions, p), feed[|feed| - 1])
  }

  /**
   * A region new to the table is stored with the type and name of its first record in the
   * feed.
   */
  lemma {:induction false} RegisterAllFirstWins(regions: map<nat, RegionInfo>, feed: seq<RegionRecord>, i: nat)
    requires i < |feed| && feed[i].code !in regions
    requires forall j :: 0 <= j < i ==> feed[j].code != feed[i].code
    ensures Registered(RegisterAll(regions, feed), feed[i])
  {
    var p := feed[..|feed| - 1];
    if i < |feed| - 1 {
      RegisterAllFirstWins(regions, p, i);
    }
  }

  /** Registering a feed whose regions are all known changes nothing. */
  lemma {:induction false} RegisterAllKnown(regions: map<nat, RegionInfo>, feed: seq<RegionRecord>)
    requires forall i :: 0 <= i < |feed| ==> feed[i].code in regions
    ensures RegisterAll(regions, feed) == regions
  {
    if feed != [] {
      var p := feed[..|feed| - 1];
      assert forall i :: 0 <= i < |p| ==> p[i] == feed[i];
      RegisterAllKnown(regions, p);
    }
  }

  /** Registering the same feed again inserts nothing. */
  lemma RegisterAllTwice(regions: map<nat, RegionInfo>, feed: seq<RegionRecord>)
    ensures RegisterAll(RegisterAll(regions, feed), feed) == RegisterAll(regions, feed)
  {
    RegisterAllKnown(RegisterAll(regions, feed), feed);
  }
}
