/**
 * Ingestion of the older data builder (data_builder.py): every region of the feed is
 * checked by its triple, and the feed's calendar weeks are ingested in order with no
 * timestamp deduplication and a reason taken from `Begruendung`.
 */
module LegacyIngestion {
  import opened Tables

  /** One element of a week's `Warnstufen` list: `GKZ`, `Warnstufe`, `Begruendung`. */
  datatype WeekReading = WeekReading(code: nat, level: int, reason: string)

  /** One element of `Kalenderwochen`: its `KW` and its readings. */
  datatype Week = Week(kw: int, readings: seq<WeekReading>)

  /** An empty `Begruendung` is stored as "Null", any other verbatim (data_builder.py:116-119). */
  function StoredReason(given: string): (r: string)
    ensures r != ""
    ensures given == "" ==> r == "Null"
    ensures given != "" ==> r == given
  {
    if given == "" then "Null" else given
  }

  /** The records of one week, in feed order, each with that week's KW. */
  function WeekRecords(w: Week): (obs: seq<Observation>)
    ensures |obs| == |w.readings|
    ensures forall i :: 0 <= i < |obs| ==>
      obs[i] == Observation(w.readings[i].code, w.kw, w.readings[i].level, StoredReason(w.readings[i].reason))
  {
    seq(|w.readings|, i requires 0 <= i < |w.readings| =>
      Observation(w.readings[i].code, w.kw, w.readings[i].level, StoredReason(w.readings[i].reason)))
  }

  /** All records of the feed: weeks in feed order, regions within a week in feed order. */
  function FeedRecords(weeks: seq<Week>): seq<Observation>
  {
    if weeks == [] then [] else FeedRecords(weeks[..|weeks| - 1]) + WeekRecords(weeks[|weeks| - 1])
  }

  /** `insert_regions` (data_builder.py:78-98): every triple not yet present is inserted. */
  method InsertRegions(db: Database, feed: seq<RegionRecord>)
    modifies db
    ensures db.State() == old(db.State()).(regions := RegisterAll(old(db.regions), feed))
    ensures old(db.Valid()) ==> db.Valid()
  {
    var i := 0;
    while i < |feed|
      invariant 0 <= i <= |feed|
      invariant db.State() == old(db.State()).(regions := RegisterAll(old(db.regions), feed[..i]))
    {
      var r := feed[i];
      if !(r.code in db.regions && db.regions[r.code] == RegionInfo(r.kind, r.name)) {
        if r.code !in db.regions {
          db.regions := db.regions[r.code := RegionInfo(r.kind, r.name)];
        }
      }
      assert feed[..i + 1][..i] == feed[..i];
      i := i + 1;
    }
    assert feed[..i] == feed;
  }

  /** `insert_warnings` (data_builder.py:101-149). */
  method InsertWarnings(db: Database, weeks: seq<Week>)
    modifies db
    ensures db.State() == RecordAll(old(db.State()), FeedRecords(weeks)).0
    ensures old(db.Valid()) ==> db.Valid()
  {
    ghost var st := db.State();
    var i := 0;
    while i < |weeks|
      invariant 0 <= i <= |weeks|
      invariant db.State() == RecordAll(st, FeedRecords(weeks[..i])).0
    {
      ghost var done := FeedRecords(weeks[..i]);
      IngestWeek(db, weeks[i]);
      RecordAllAppend(st, done, WeekRecords(weeks[i]));
      assert weeks[..i + 1][..i] == weeks[..i];
      i := i + 1;
    }
    assert weeks[..i] == weeks;
  }

  /** The inner loop of `insert_warnings`: one week's readings (data_builder.py:107-149). */
  method IngestWeek(db: Database, w: Week)
    modifies db
    ensures db.State() == RecordAll(old(db.State()), WeekRecords(w)).0
  {
    ghost var obs := WeekRecords(w);
    var j := 0;
    while j < |w.readings|
      invariant 0 <= j <= |w.readings|
      invariant db.State() == RecordAll(old(db.State()), obs[..j]).0
    {
      var reading := w.readings[j];
      var reason := if reading.reason == "" then "Null" else reading.reason;
      var o := Observation(reading.code, w.kw, reading.level, reason);
      assert o == obs[j];
      RecordAllSnoc(old(db.State()), obs, j);
      var _ := RecordObservation(db, o);
      j := j + 1;
    }
    assert obs[..j] == obs;
  }

  /**
   * Ingesting the same feed a second time leaves the ledger and the queue as after the
   * first, provided no region occurs in it with two different levels.
   */
  lemma InsertWarningsTwice(st: DbState, weeks: seq<Week>)
    requires UniformLevels(FeedRecords(weeks))
    ensures RecordAll(RecordAll(st, FeedRecords(weeks)).0, FeedRecords(weeks)).0
         == RecordAll(st, FeedRecords(weeks)).0
  {
    RecordAllTwice(st, FeedRecords(weeks));
  }

  /**
   * The scenario written out in `main` (data_builder.py:161-185): one week 36 holding
   * region 0 at level 10 with an empty reason, ingested three times into an empty ledger,
   * leaves exactly one entry (revision 1, KW 36, level 10, reason "Null") and no pending row.
   */
  lemma ScenarioRepeatedWeek(st: DbState)
    requires st.warnings == map[] && st.updates == []
    ensures var weeks := [Week(36, [WeekReading(0, 10, "")])];
            var once := RecordAll(st, FeedRecords(weeks)).0;
            var thrice := RecordAll(RecordAll(once, FeedRecords(weeks)).0, FeedRecords(weeks)).0;
            thrice.warnings == map[0 := [WarningEntry(1, 36, 10, "Null")]] && thrice.updates == []
  {
    var weeks := [Week(36, [WeekReading(0, 10, "")])];
    var obs := FeedRecords(weeks);
    assert obs == [Observation(0, 36, 10, "Null")] by {
      assert weeks[..0] == [];
    }
    assert UniformLevels(obs);
    assert obs[..0] == [];
    var once := Record(st, obs[0]).0;
    assert RecordAll(st, obs).0 == once;
    assert once.warnings == map[0 := [WarningEntry(1, 36, 10, "Null")]];
    RecordAllTwice(st, obs);
  }

  /** A feed of two weeks gives the first week's records, then the second's. */
  lemma FeedRecordsPair(a: Week, b: Week)
    ensures FeedRecords([a, b]) == WeekRecords(a) + WeekRecords(b)
  {
    assert [a][..0] == [];
    assert FeedRecords([a]) == WeekRecords(a);
    assert [a, b][..1] == [a];
  }

  /** Two readings in a row are two `Record` steps. */
  lemma RecordAllPair(st: DbState, x: Observation, y: Observation)
    ensures RecordAll(st, [x, y]).0 == Record(Record(st, x).0, y).0
  {
    var xs := [x, y];
    assert xs[..0] == [] && xs[..1] == [x] && xs[..2] == xs;
    assert RecordAll(st, []) == (st, false);
    RecordAllSnoc(st, xs, 0);
    RecordAllSnoc(st, xs, 1);
  }

  /** A reading whose level differs from its region's newest entry appends the next revision. */
  lemma ChangedLevel(st: DbState, o: Observation)
    requires o.code in st.warnings && st.warnings[o.code] != []
    requires Newest(st.warnings[o.code]).level != o.level
    ensures var es := st.warnings[o.code];
            && Record(st, o).0.warnings[o.code] == es + [WarningEntry(Newest(es).revision + 1, o.kw, o.level, o.reason)]
            && Record(st, o).0.updates == st.updates + [o.code]
  {
  }

  /**
   * Without `UniformLevels` a second ingestion is not a no-op: two weeks holding region 0 at
   * level 1 and then at level 2, ingested twice into an empty ledger, append revisions 3 and
   * 4 and two more pending rows, because each week's level differs from the newest entry.
   */
  lemma ScenarioAlternatingWeeks(st: DbState)
    requires st.warnings == map[] && st.updates == []
    ensures var weeks := [Week(1, [WeekReading(0, 1, "")]), Week(2, [WeekReading(0, 2, "")])];
            var once := RecordAll(st, FeedRecords(weeks)).0;
            var twice := RecordAll(once, FeedRecords(weeks)).0;
            && once.warnings[0] == [WarningEntry(1, 1, 1, "Null"), WarningEntry(2, 2, 2, "Null")]
            && once.updates == [0]
            && twice.warnings[0] == once.warnings[0] + [WarningEntry(3, 1, 1, "Null"), WarningEntry(4, 2, 2, "Null")]
            && twice.updates == once.updates + [0, 0]
  {
    var weeks := [Week(1, [WeekReading(0, 1, "")]), Week(2, [WeekReading(0, 2, "")])];
    var o1 := Observation(0, 1, 1, "Null");
    var o2 := Observation(0, 2, 2, "Null");
    var obs := FeedRecords(weeks);
    FeedRecordsPair(weeks[0], weeks[1]);
    assert WeekRecords(weeks[0]) == [o1];
    assert WeekRecords(weeks[1]) == [o2];
    assert obs == [o1, o2];
    RecordAllPair(st, o1, o2);
    AlternatingFirstPass(st, o1, o2);
    var once := Record(Record(st, o1).0, o2).0;
    RecordAllPair(once, o1, o2);
    AlternatingSecondPass(once, o1, o2);
  }

  /** The first pass of `ScenarioAlternatingWeeks`: revisions 1 and 2, one pending row. */
  lemma AlternatingFirstPass(st: DbState, o1: Observation, o2: Observation)
    requires st.warnings == map[] && st.updates == []
    requires o1 == Observation(0, 1, 1, "Null") && o2 == Observation(0, 2, 2, "Null")
    ensures var once := Record(Record(st, o1).0, o2).0;
            once.warnings[0] == [WarningEntry(1, 1, 1, "Null"), WarningEntry(2, 2, 2, "Null")] && once.updates == [0]
  {
    var s1 := Record(st, o1).0;
    assert s1.warnings == map[0 := [WarningEntry(1, 1, 1, "Null")]] && s1.updates == [];
    ChangedLevel(s1, o2);
  }

  /** The second pass of `ScenarioAlternatingWeeks`: revisions 3 and 4, two more pending rows. */
  lemma AlternatingSecondPass(once: DbState, o1: Observation, o2: Observation)
    requires 0 in once.warnings && once.warnings[0] == [WarningEntry(1, 1, 1, "Null"), WarningEntry(2, 2, 2, "Null")]
    requires o1 == Observation(0, 1, 1, "Null") && o2 == Observation(0, 2, 2, "Null")
    ensures var twice := Record(Record(once, o1).0, o2).0;
            && twice.warnings[0] == once.warnings[0] + [WarningEntry(3, 1, 1, "Null"), WarningEntry(4, 2, 2, "Null")]
            && twice.updates == once.updates + [0, 0]
  {
    ChangedLevel(once, o1);
    ChangedLevel(Record(once, o1).0, o2);
  }
}
