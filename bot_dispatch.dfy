/**
 * The dispatcher of the newer bot (`pull_updates`, telegram_bot/telegram_bot.py:467-530):
 * it drains the pending-update rows, tells every subscriber of a pending region whether the
 * region's level rose or fell, and marks the region read.
 *
 * The message text is kept as a structured `Alert` (the templates `REGION_HIGHER_ALERT`,
 * `REGION_LOWER_ALERT` and `REGION_ALERT_BODY` are not part of this model), and a sent
 * message is a `Delivery` appended to the returned log.
 */
module BotDispatch {
  import opened Common
  import opened Tables

  /** Which header the message carries. */
  datatype Tone = Higher | Lower

  /** The content of an alert: header, city, colour before, colour after, link. */
  datatype Alert = Alert(tone: Tone, city: string, before: string, after: string, link: string)

  /** One `send_message(chat_id, text)`. */
  datatype Delivery = Delivery(chatId: int, alert: Alert)

  /** `LOOKUP_REGION_SUBSCRIPTIONS`: the users subscribed to a region, in subscription row order. */
  function Recipients(subs: seq<Subscription>, region: nat): (us: seq<int>)
    ensures forall u :: u in us <==> Subscription(u, region) in subs
  {
    if subs == [] then []
    else
      var p := subs[..|subs| - 1];
      var last := subs[|subs| - 1];
      assert subs == p + [last];
      Recipients(p, region) + (if last.region == region then [last.user] else [])
  }

  /** No subscription row repeats, so no subscriber is listed twice. */
  lemma {:induction false} RecipientsDistinct(subs: seq<Subscription>, region: nat)
    requires NoDup(subs)
    ensures NoDup(Recipients(subs, region))
  {
    if subs != [] {
      var p := subs[..|subs| - 1];
      var last := subs[|subs| - 1];
      assert NoDup(p);
      RecipientsDistinct(p, region);
      assert last !in p;
    }
  }

  /** The entry before the newest one: the second row of `GET_REGIONUPDATES`. */
  function Previous(es: seq<WarningEntry>): WarningEntry
    requires |es| >= 2
  {
    es[|es| - 2]
  }

  /** `ALERT_COLORS` knows both levels and `ALERT_URL` the newest one. */
  predicate Shown(es: seq<WarningEntry>, colors: map<int, string>, urls: map<int, string>)
  {
    |es| >= 2 ==>
      Previous(es).level in colors && Newest(es).level in colors && Newest(es).level in urls
  }

  /**
   * What the dispatcher reads of a pending region with subscribers without raising: the
   * region's name, two ledger entries, and colours and a link for their levels.
   */
  predicate Ready(st: DbState, r: nat, colors: map<int, string>, urls: map<int, string>)
  {
    Recipients(st.subscriptions, r) != [] ==>
      r in st.regions && r in st.warnings && |st.warnings[r]| >= 2 && Shown(st.warnings[r], colors, urls)
  }

  /** The alert for a region from its two newest entries (telegram_bot/telegram_bot.py:494-515). */
  function RegionAlert(name: string, es: seq<WarningEntry>, colors: map<int, string>, urls: map<int, string>): Alert
    requires |es| >= 2 && Shown(es, colors, urls)
  {
    Alert(if Newest(es).level > Previous(es).level then Higher else Lower,
          name, colors[Previous(es).level], colors[Newest(es).level], urls[Newest(es).level])
  }

  /**
   * The messages one pending row produces: none without subscribers, otherwise one per
   * subscriber, in lookup order, all with the same alert.
   */
  function RegionDeliveries(st: DbState, r: nat, colors: map<int, string>, urls: map<int, string>): (ds: seq<Delivery>)
    requires Ready(st, r, colors, urls)
    ensures |ds| == |Recipients(st.subscriptions, r)|
    ensures forall i :: 0 <= i < |ds| ==> ds[i].chatId == Recipients(st.subscriptions, r)[i]
    ensures forall i :: 0 <= i < |ds| ==>
      ds[i].alert == RegionAlert(st.regions[r].name, st.warnings[r], colors, urls)
  {
    var us := Recipients(st.subscriptions, r);
    if us == [] then []
    else
      var alert := RegionAlert(st.regions[r].name, st.warnings[r], colors, urls);
      seq(|us|, i requires 0 <= i < |us| => Delivery(us[i], alert))
  }

  /** The messages of a run over the pending rows `q`, in row order. */
  function Fanout(st: DbState, q: seq<nat>, colors: map<int, string>, urls: map<int, string>): seq<Delivery>
    requires forall i :: 0 <= i < |q| ==> Ready(st, q[i], colors, urls)
  {
    if q == [] then []
    else
      var p := q[..|q| - 1];
      assert forall i :: 0 <= i < |p| ==> p[i] == q[i];
      Fanout(st, p, colors, urls) + RegionDeliveries(st, q[|q| - 1], colors, urls)
  }

  /** The pending rows not yet marked read: `MARK_UPDATE_AS_READ` clears every row of a region. */
  function Unread(q: seq<nat>, read: set<nat>): (r: seq<nat>)
    ensures (forall i :: 0 <= i < |q| ==> q[i] in read) ==> r == []
  {
    if q == [] then []
    else (if q[0] in read then [] else [q[0]]) + Unread(q[1..], read)
  }

  /** The unread rows are the rows of the regions not marked read. */
  lemma {:induction false} UnreadMembers(q: seq<nat>, read: set<nat>)
    ensures forall x :: x in Unread(q, read) <==> x in q && x !in read
  {
    if q != [] {
      UnreadMembers(q[1..], read);
      assert q == [q[0]] + q[1..];
    }
  }

  /** Marking `a` read and then `b` is marking both. */
  lemma {:induction false} UnreadTwice(q: seq<nat>, a: set<nat>, b: set<nat>)
    ensures Unread(Unread(q, a), b) == Unread(q, a + b)
  {
    if q != [] {
      UnreadTwice(q[1..], a, b);
      var rest := Unread(q[1..], a);
      var both := Unread(q[1..], a + b);
      assert Unread(rest, b) == both;
      if q[0] in a {
        assert Unread(q, a) == rest;
        assert Unread(q, a + b) == both;
      } else {
        var once := [q[0]] + rest;
        assert Unread(q, a) == once;
        assert once[0] == q[0] && once[1..] == rest;
        assert Unread(once, b) == (if q[0] in b then [] else [q[0]]) + both;
        assert Unread(q, a + b) == (if q[0] in b then [] else [q[0]]) + both;
      }
    }
  }

  /** Marking nothing of `q` read leaves it as it is. */
  lemma {:induction false} UnreadNone(q: seq<nat>, read: set<nat>)
    requires forall i :: 0 <= i < |q| ==> q[i] !in read
    ensures Unread(q, read) == q
  {
    if q != [] {
      UnreadNone(q[1..], read);
      assert q == [q[0]] + q[1..];
    }
  }

  /** `pull_updates` (telegram_bot/telegram_bot.py:467-530), with the rows it reads in order. */
  method PullUpdates(db: Database, colors: map<int, string>, urls: map<int, string>) returns (sent: seq<Delivery>)
    modifies db
    requires db.Valid()
    requires forall i :: 0 <= i < |db.updates| ==> Recipients(db.subscriptions, db.updates[i]) != [] ==>
      db.updates[i] in db.regions &&
      (db.updates[i] in db.warnings ==> Shown(db.warnings[db.updates[i]], colors, urls))
    ensures db.State() == old(db.State()).(updates := [])
    ensures db.Valid()
    ensures sent == Fanout(old(db.State()), old(db.updates), colors, urls)
  {
    ReadyRows(db.State(), colors, urls);
    sent := ServeRows(db, db.updates, colors, urls);
  }

  /** Under the ledger invariant every pending row with subscribers has an alert to show. */
  lemma ReadyRows(st: DbState, colors: map<int, string>, urls: map<int, string>)
    requires Consistent(st)
    requires forall i :: 0 <= i < |st.updates| ==> Recipients(st.subscriptions, st.updates[i]) != [] ==>
      st.updates[i] in st.regions &&
      (st.updates[i] in st.warnings ==> Shown(st.warnings[st.updates[i]], colors, urls))
    ensures forall i :: 0 <= i < |st.updates| ==> Ready(st, st.updates[i], colors, urls)
  {
  }

  /** The loop of `pull_updates` (telegram_bot/telegram_bot.py:474-530) over the rows `result`. */
  method ServeRows(db: Database, result: seq<nat>, colors: map<int, string>, urls: map<int, string>)
    returns (sent: seq<Delivery>)
    modifies db
    requires db.updates == result
    requires forall i :: 0 <= i < |result| ==> Ready(db.State(), result[i], colors, urls)
    ensures db.State() == old(db.State()).(updates := [])
    ensures sent == Fanout(old(db.State()), result, colors, urls)
  {
    ghost var st := db.State();
    sent := [];
    ghost var marked: set<nat> := {};
    UnreadNone(result, marked);
    for k := 0 to |result|
      invariant db.State() == st.(updates := db.updates)
      invariant db.updates == Unread(result, marked)
      invariant forall i :: 0 <= i < k ==> result[i] in marked
      invariant sent == Fanout(st, result[..k], colors, urls)
    {
      var regionId := result[k];
      UnreadTwice(result, marked, {regionId});
      marked := marked + {regionId};
      assert forall i :: 0 <= i < k + 1 ==> result[i] in marked by {
        assert forall i :: 0 <= i < k ==> result[i] in marked;
      }
      FanoutStep(st, result, k, colors, urls);
      var messages := ServeRegion(db, regionId, colors, urls, st);
      sent := sent + messages;
    }
    assert result[..|result|] == result;
  }

  /**
   * One pass of the loop of `pull_updates` (telegram_bot/telegram_bot.py:474-530): the
   * region's messages, then every row of the region marked read. `base` is the database
   * as the run found it, of which only the pending rows change.
   */
  method ServeRegion(db: Database, regionId: nat, colors: map<int, string>, urls: map<int, string>, ghost base: DbState)
    returns (messages: seq<Delivery>)
    modifies db
    requires db.State() == base.(updates := db.updates)
    requires Ready(base, regionId, colors, urls)
    ensures db.State() == old(db.State()).(updates := Unread(old(db.updates), {regionId}))
    ensures messages == RegionDeliveries(base, regionId, colors, urls)
  {
    ghost var ds := RegionDeliveries(base, regionId, colors, urls);
    var lookup := Recipients(db.subscriptions, regionId);
    messages := [];
    if |lookup| > 0 {
      var alert := RegionAlert(db.regions[regionId].name, db.warnings[regionId], colors, urls);
      messages := Notify(lookup, alert);
      assert messages == ds;
    }
    db.updates := Unread(db.updates, {regionId});
  }

  /** The messages of the first `k + 1` rows: those of the first `k`, then those of row `k`. */
  lemma FanoutStep(st: DbState, q: seq<nat>, k: nat, colors: map<int, string>, urls: map<int, string>)
    requires k < |q| && forall i :: 0 <= i < |q| ==> Ready(st, q[i], colors, urls)
    ensures Fanout(st, q[..k + 1], colors, urls) == Fanout(st, q[..k], colors, urls) + RegionDeliveries(st, q[k], colors, urls)
  {
    assert q[..k + 1][..k] == q[..k];
  }

  /** `ds` sent `k` times over. */
  function Repeat(ds: seq<Delivery>, k: nat): seq<Delivery>
  {
    if k == 0 then [] else Repeat(ds, k - 1) + ds
  }

  /**
   * `ADD_UPDATE` adds a row on every change, even while the region is pending, and the loop
   * serves every fetched row: a region pending `k` times has each subscriber messaged `k`
   * times in one run.
   */
  lemma {:induction false} FanoutRepeated(st: DbState, r: nat, k: nat, colors: map<int, string>, urls: map<int, string>)
    requires Ready(st, r, colors, urls)
    ensures Fanout(st, seq(k, i => r), colors, urls) == Repeat(RegionDeliveries(st, r, colors, urls), k)
    ensures |Fanout(st, seq(k, i => r), colors, urls)| == k * |Recipients(st.subscriptions, r)|
  {
    if k > 0 {
      var q := seq(k, i => r);
      FanoutStep(st, q, k - 1, colors, urls);
      assert q[..k] == q;
      assert q[..k - 1] == seq(k - 1, i => r);
      FanoutRepeated(st, r, k - 1, colors, urls);
    }
    RepeatLength(RegionDeliveries(st, r, colors, urls), k);
  }

  /** `k` copies of `ds` hold `k` times as many messages. */
  lemma {:induction false} RepeatLength(ds: seq<Delivery>, k: nat)
    ensures |Repeat(ds, k)| == k * |ds|
  {
    if k > 0 {
      RepeatLength(ds, k - 1);
      assert k * |ds| == (k - 1) * |ds| + |ds|;
    }
  }

  /** The sends of one region: the same alert to each user, in order (telegram_bot/telegram_bot.py:517-524). */
  method Notify(users: seq<int>, alert: Alert) returns (messages: seq<Delivery>)
    ensures |messages| == |users|
    ensures forall i :: 0 <= i < |users| ==> messages[i] == Delivery(users[i], alert)
  {
    messages := [];
    for j := 0 to |users|
      invariant |messages| == j
      invariant forall i :: 0 <= i < j ==> messages[i] == Delivery(users[i], alert)
    {
      messages := messages + [Delivery(users[j], alert)];
    }
  }

  /** Message `d` is one row `r` owes: its chat subscribes to `r` and it carries `r`'s alert. */
  predicate Serves(st: DbState, r: nat, colors: map<int, string>, urls: map<int, string>, d: Delivery)
    requires Ready(st, r, colors, urls)
  {
    Subscription(d.chatId, r) in st.subscriptions &&
    d.alert == RegionAlert(st.regions[r].name, st.warnings[r], colors, urls)
  }

  /** One pending row's messages: to `u` with `a` exactly when `u` subscribes and `a` is its alert. */
  lemma RegionDeliveriesMembers(st: DbState, r: nat, colors: map<int, string>, urls: map<int, string>, d: Delivery)
    requires Ready(st, r, colors, urls)
    ensures d in RegionDeliveries(st, r, colors, urls) <==> Serves(st, r, colors, urls, d)
  {
    var us := Recipients(st.subscriptions, r);
    var ds := RegionDeliveries(st, r, colors, urls);
    if Subscription(d.chatId, r) in st.subscriptions && d.alert == RegionAlert(st.regions[r].name, st.warnings[r], colors, urls) {
      var i :| 0 <= i < |us| && us[i] == d.chatId;
      assert ds[i] == d;
    }
  }

  /**
   * The messages of a run: `d` is sent exactly when its chat subscribes to some pending row's
   * region and carries that region's alert.
   */
  lemma {:induction false} FanoutMembers(st: DbState, q: seq<nat>, colors: map<int, string>, urls: map<int, string>, d: Delivery)
    requires forall i :: 0 <= i < |q| ==> Ready(st, q[i], colors, urls)
    ensures d in Fanout(st, q, colors, urls) <==> exists i :: 0 <= i < |q| && Serves(st, q[i], colors, urls, d)
  {
    if q != [] {
      var p := q[..|q| - 1];
      var last := q[|q| - 1];
      assert forall i :: 0 <= i < |p| ==> p[i] == q[i];
      FanoutMembers(st, p, colors, urls, d);
      RegionDeliveriesMembers(st, last, colors, urls, d);
    }
  }

  /**
   * Under the ledger invariant the header tells the direction: `Higher` when the newest
   * level is above the previous one, `Lower` exactly when it is below (two consecutive
   * entries never share a level).
   */
  lemma AlertTone(name: string, es: seq<WarningEntry>, colors: map<int, string>, urls: map<int, string>)
    requires History(es) && |es| >= 2 && Shown(es, colors, urls)
    ensures RegionAlert(name, es, colors, urls).tone == Higher <==> Newest(es).level > Previous(es).level
    ensures RegionAlert(name, es, colors, urls).tone == Lower <==> Newest(es).level < Previous(es).level
  {
    assert es[|es| - 1].level != es[|es| - 2].level;
  }

  /**
   * From ingestion to dispatch: a changed level enqueues the region, and the alert for it
   * then compares the stored level before the change with the observed one.
   */
  lemma AlertOfChange(st: DbState, o: Observation, name: string, colors: map<int, string>, urls: map<int, string>)
    requires !Unseen(st, o.code) && !AtLevel(st, o.code, o.level)
    requires Newest(st.warnings[o.code]).level in colors && o.level in colors && o.level in urls
    ensures var t := Record(st, o).0;
            var before := Newest(st.warnings[o.code]).level;
            && t.updates == st.updates + [o.code]
            && |t.warnings[o.code]| >= 2 && Shown(t.warnings[o.code], colors, urls)
            && RegionAlert(name, t.warnings[o.code], colors, urls)
               == Alert(if o.level > before then Higher else Lower, name, colors[before], colors[o.level], urls[o.level])
  {
    var es := st.warnings[o.code];
    var t := Record(st, o).0;
    var es' := t.warnings[o.code];
    assert es' == es + [WarningEntry(Newest(es).revision + 1, o.kw, o.level, o.reason)];
    assert Previous(es') == Newest(es);
  }
}
