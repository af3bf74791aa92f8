/**
 * The user-facing commands of the older bot (telegram_bot.py): `command_handler`, which
 * compares the first callback field with the literals "subscribe" and "unsubscribe", and
 * the argument and keyboard handling of `subscribe_to_region` and
 * `unsubscribe_from_regions`. `CMD_SUB_PREFIX` and `CMD_UNSUB_PREFIX`, which the keyboards
 * carry, are not defined in constants.py and are parameters here.
 */
module LegacyBot {
  import opened Common
  import opened Text
  import opened Tables
  import opened BotUtils
  import BotCommands

  /** `INSERT_USER.format(user_id, username)` stores a missing `chat.username` as "None". */
  function StoredUsername(username: Option<string>): (name: string)
    ensures username.Some? ==> name == username.value
    ensures username.None? ==> name == "None"
  {
    if username.Some? then username.value else "None"
  }

  /** The answer to a pressed button; `REGISTERED` carries no region name in this version. */
  datatype Reply = Registered | AlreadyRegistered | Unsubscribed(region: string) | NoReply | Raised

  /**
   * The subscribe branch (telegram_bot.py:90-111). The user is inserted first when unknown;
   * a missing `command[1]` then raises, and so does an id the lookup query cannot read; the
   * pair is inserted only when absent.
   */
  function SubscribeCallback(st: DbState, user: int, username: Option<string>, command: seq<string>): (r: (DbState, Reply))
    ensures r.0 == st.(users := r.0.users, subscriptions := r.0.subscriptions)
    ensures r.0.users == if user in st.users then st.users else st.users[user := StoredUsername(username)]
    ensures r.0.subscriptions == st.subscriptions ||
            exists id :: Subscription(user, id) !in st.subscriptions &&
                         r.0.subscriptions == st.subscriptions + [Subscription(user, id)]
    ensures Consistent(st) ==> Consistent(r.0)
  {
    var st1 := if user in st.users then st else st.(users := st.users[user := StoredUsername(username)]);
    if |command| < 2 then (st1, Raised)
    else
      match ParseDecimal(command[1])
      case None => (st1, Raised)
      case Some(id) =>
        var pair := Subscription(user, id);
        if pair in st1.subscriptions then (st1, AlreadyRegistered)
        else
          var st2 := st1.(subscriptions := st1.subscriptions + [pair]);
          assert Consistent(st) ==> Consistent(st2) by {
            if Consistent(st) {
              assert forall i :: 0 <= i < |st1.subscriptions| ==> st1.subscriptions[i] == st2.subscriptions[i];
            }
          }
          (st2, Registered)
  }

  /**
   * The unsubscribe branch (telegram_bot.py:113-120): a missing `command[1]` raises; the
   * delete removes the (user, id) row, and nothing when the id cannot be read; a missing
   * `command[2]` raises after it.
   */
  function UnsubscribeCallback(st: DbState, user: int, command: seq<string>): (r: (DbState, Reply))
    ensures r.0 == st.(subscriptions := r.0.subscriptions)
    ensures forall s :: s in r.0.subscriptions <==>
      s in st.subscriptions && !(s.user == user && |command| >= 2 && ParseDecimal(command[1]) == Some(s.region))
    ensures Consistent(st) ==> Consistent(r.0)
  {
    if |command| < 2 then (st, Raised)
    else
      var st1 := match ParseDecimal(command[1])
                 case None => st
                 case Some(id) => st.(subscriptions := BotCommands.WithoutPair(st.subscriptions, Subscription(user, id)));
      assert Consistent(st) ==> Consistent(st1) by {
        if Consistent(st) {
          BotCommands.FewerSubscriptions(st, st1.subscriptions);
        }
      }
      if |command| < 3 then (st1, Raised) else (st1, Unsubscribed(command[2]))
  }

  /**
   * `command_handler` (telegram_bot.py:79-120) on the state of the tables: the first
   * callback field is compared with the literals "subscribe" and "unsubscribe".
   */
  function HandleCallback(st: DbState, user: int, username: Option<string>, data: string): (r: (DbState, Reply))
    ensures r.0 == st.(users := r.0.users, subscriptions := r.0.subscriptions)
    ensures Consistent(st) ==> Consistent(r.0)
  {
    var command := Split(data, "_");
    if command[0] == "subscribe" then SubscribeCallback(st, user, username, command)
    else if command[0] == "unsubscribe" then UnsubscribeCallback(st, user, command)
    else (st, NoReply)
  }

  /** `command_handler` (telegram_bot.py:79-120). */
  method CommandHandler(db: Database, user: int, username: Option<string>, data: string) returns (reply: Reply)
    modifies db
    ensures (db.State(), reply) == HandleCallback(old(db.State()), user, username, data)
    ensures old(db.Valid()) ==> db.Valid()
  {
    var command := Split(data, "_");
    if command[0] == "subscribe" {
      if user !in db.users {
        var name := if username.Some? then username.value else "None";
        db.users := db.users[user := name];
      }
      if |command| < 2 {
        return Raised;
      }
      var regId := ParseDecimal(command[1]);
      if regId.None? {
        return Raised;
      }
      var pair := Subscription(user, regId.value);
      if pair in db.subscriptions {
        return AlreadyRegistered;
      }
      db.subscriptions := db.subscriptions + [pair];
      return Registered;
    }
    if command[0] == "unsubscribe" {
      if |command| < 2 {
        return Raised;
      }
      var regId := ParseDecimal(command[1]);
      if regId.Some? {
        db.subscriptions := BotCommands.WithoutPair(db.subscriptions, Subscription(user, regId.value));
      }
      if |command| < 3 {
        return Raised;
      }
      return Unsubscribed(command[2]);
    }
    return NoReply;
  }

  /** Pressing the same button twice leaves the tables as after the first press. */
  lemma CallbackIdempotent(st: DbState, user: int, username: Option<string>, data: string)
    ensures var first := HandleCallback(st, user, username, data);
            var again := HandleCallback(first.0, user, username, data);
            again.0 == first.0 && (first.1 == Registered ==> again.1 == AlreadyRegistered)
  {
    var command := Split(data, "_");
    if command[0] == "subscribe" {
      SubscribeTwice(st, user, username, command);
    } else if command[0] == "unsubscribe" {
      UnsubscribeTwice(st, user, command);
    }
  }

  /** A second subscribe with the same callback fields changes nothing. */
  lemma SubscribeTwice(st: DbState, user: int, username: Option<string>, command: seq<string>)
    ensures var first := SubscribeCallback(st, user, username, command);
            var again := SubscribeCallback(first.0, user, username, command);
            again.0 == first.0 && (first.1 == Registered ==> again.1 == AlreadyRegistered)
  {
  }

  /** A second unsubscribe with the same callback fields changes nothing. */
  lemma UnsubscribeTwice(st: DbState, user: int, command: seq<string>)
    ensures UnsubscribeCallback(UnsubscribeCallback(st, user, command).0, user, command).0
         == UnsubscribeCallback(st, user, command).0
  {
    if |command| >= 2 {
      match ParseDecimal(command[1])
      case None =>
      case Some(id) =>
        var pair := Subscription(user, id);
        var first := UnsubscribeCallback(st, user, command);
        assert first.0.subscriptions == BotCommands.WithoutPair(st.subscriptions, pair);
        assert pair !in first.0.subscriptions;
    }
  }

  /** The callback of a subscribe button of this version: prefix and id. */
  function SubscribeCallbackData(prefix: string, row: RegionRow): string
  {
    prefix + "_" + NatToString(row.id)
  }

  /** A subscribe callback splits into its prefix and `str(id)`, which reads back as the id. */
  lemma {:induction false} SubscribeCallbackFields(prefix: string, row: RegionRow)
    requires '_' !in prefix
    ensures Split(SubscribeCallbackData(prefix, row), "_") == [prefix, NatToString(row.id)]
    ensures ParseDecimal(NatToString(row.id)) == Some(row.id)
  {
    var id := NatToString(row.id);
    NatToStringHasNoUnderscore(row.id);
    NatToStringRoundTrip(row.id);
    assert SubscribeCallbackData(prefix, row) == prefix + ['_'] + id;
    SplitAfterHead(prefix, '_', id);
    SplitWithout(id, '_');
  }

  /**
   * A subscribe button subscribes the user to its region, appending the pair only when
   * absent, provided `CMD_SUB_PREFIX` is the literal `command_handler` compares with.
   */
  lemma SubscribeButton(st: DbState, user: int, username: Option<string>, row: RegionRow)
    ensures var r := HandleCallback(st, user, username, SubscribeCallbackData("subscribe", row));
            var pair := Subscription(user, row.id);
            && user in r.0.users
            && (pair in st.subscriptions ==> r.0.subscriptions == st.subscriptions && r.1 == AlreadyRegistered)
            && (pair !in st.subscriptions ==> r.0.subscriptions == st.subscriptions + [pair] && r.1 == Registered)
  {
    var data := SubscribeCallbackData("subscribe", row);
    SubscribeCallbackFields("subscribe", row);
    var command := Split(data, "_");
    assert command[0] == "subscribe" && |command| == 2 && ParseDecimal(command[1]) == Some(row.id);
    assert HandleCallback(st, user, username, data) == SubscribeCallback(st, user, username, command);
    SubscribeFields(st, user, username, command, row.id);
  }

  /** Callback fields naming a readable id insert the user if unknown, then the pair if absent. */
  lemma SubscribeFields(st: DbState, user: int, username: Option<string>, command: seq<string>, id: nat)
    requires |command| >= 2 && ParseDecimal(command[1]) == Some(id)
    ensures var st1 := if user in st.users then st else st.(users := st.users[user := StoredUsername(username)]);
            var pair := Subscription(user, id);
            SubscribeCallback(st, user, username, command)
            == if pair in st.subscriptions then (st1, AlreadyRegistered)
               else (st1.(subscriptions := st.subscriptions + [pair]), Registered)
  {
  }

  /**
   * An unsubscribe button (callback prefix, id, name) removes only its (user, region) row
   * and replies with the name up to its first "_", provided `CMD_UNSUB_PREFIX` is the
   * literal `command_handler` compares with.
   */
  lemma UnsubscribeButton(st: DbState, user: int, username: Option<string>, row: RegionRow)
    ensures var r := HandleCallback(st, user, username, Callback("unsubscribe", row));
            && r.0 == st.(subscriptions := BotCommands.WithoutPair(st.subscriptions, Subscription(user, row.id)))
            && r.1 == Unsubscribed(Split(row.name, "_")[0])
  {
    var data := Callback("unsubscribe", row);
    CallbackFields("unsubscribe", row);
    var command := Split(data, "_");
    assert command[0] == "unsubscribe" && |command| >= 3 && command[1] == NatToString(row.id);
    assert command[0] != "subscribe" by {
      assert |"unsubscribe"| != |"subscribe"|;
    }
    assert HandleCallback(st, user, username, data) == UnsubscribeCallback(st, user, command);
    UnsubscribeFields(st, user, command, row.id);
  }

  /** Callback fields naming a readable id and a region text delete that row and reply with the text. */
  lemma UnsubscribeFields(st: DbState, user: int, command: seq<string>, id: nat)
    requires |command| >= 3 && ParseDecimal(command[1]) == Some(id)
    ensures UnsubscribeCallback(st, user, command)
         == (st.(subscriptions := BotCommands.WithoutPair(st.subscriptions, Subscription(user, id))), Unsubscribed(command[2]))
  {
  }

  /**
   * `subscribe_to_region` (telegram_bot.py:144-185); `search` stands for the rows
   * `SEARCH_REGIONS` returns. Anything but one argument is refused without a search; an
   * empty search reports the argument; otherwise one button per row, in order, with the
   * region's name as text and prefix and id as callback, and no cancel button.
   */
  method SubscribeToRegion(args: seq<string>, search: string -> seq<RegionRow>, prefix: string)
    returns (reply: BotCommands.SubscribeReply)
    ensures reply == BotCommands.SubscribeUsage <==> |args| != 1
    ensures |args| == 1 && search(args[0]) == [] ==> reply == BotCommands.NoRegionFound(args[0])
    ensures |args| == 1 && search(args[0]) != [] ==>
      var rows := search(args[0]);
      reply.ChooseRegion? && |reply.keyboard| == |rows| &&
      forall i :: 0 <= i < |rows| ==> reply.keyboard[i] == [Button(rows[i].name, SubscribeCallbackData(prefix, rows[i]))]
  {
    if |args| != 1 {
      return BotCommands.SubscribeUsage;
    }
    var result := search(args[0]);
    if |result| == 0 {
      return BotCommands.NoRegionFound(args[0]);
    }
    var regionKeyboard: seq<seq<Button>> := [];
    for i := 0 to |result|
      invariant |regionKeyboard| == i
      invariant forall j :: 0 <= j < i ==> regionKeyboard[j] == [Button(result[j].name, SubscribeCallbackData(prefix, result[j]))]
    {
      var command := prefix + "_" + NatToString(result[i].id);
      regionKeyboard := regionKeyboard + [[Button(result[i].name, command)]];
    }
    return BotCommands.ChooseRegion(regionKeyboard);
  }

  /** The replies of `unsubscribe_from_regions`; a single argument, "all" included, gets none. */
  datatype UnsubscribeReply = UnsubscribeUsage | Silent | NoSubscriptionsFound
                            | ChooseSubscription(keyboard: seq<seq<Button>>)

  /**
   * `unsubscribe_from_regions` (telegram_bot.py:187-225): it changes no table. More than
   * one argument is refused, one argument is ignored, and no argument offers one button
   * per subscribed region, with the name as text and prefix, id and name as callback.
   */
  method UnsubscribeFromRegions(db: Database, user: int, args: seq<string>, prefix: string)
    returns (reply: UnsubscribeReply)
    ensures reply == UnsubscribeUsage <==> |args| > 1
    ensures reply == Silent <==> |args| == 1
    ensures args == [] ==>
      var rows := BotCommands.SubscribedRows(db.State(), user);
      (reply == NoSubscriptionsFound <==> rows == []) &&
      (rows != [] ==>
         reply.ChooseSubscription? && |reply.keyboard| == |rows| &&
         forall i :: 0 <= i < |rows| ==> reply.keyboard[i] == [Button(rows[i].name, Callback(prefix, rows[i]))])
  {
    if |args| > 1 {
      return UnsubscribeUsage;
    }
    if |args| == 1 {
      return Silent;
    }
    var result := BotCommands.SubscribedRows(db.State(), user);
    if |result| == 0 {
      return NoSubscriptionsFound;
    }
    var regionKeyboard: seq<seq<Button>> := [];
    for i := 0 to |result|
      invariant |regionKeyboard| == i
      invariant forall j :: 0 <= j < i ==> regionKeyboard[j] == [Button(result[j].name, Callback(prefix, result[j]))]
    {
      var command := prefix + "_" + NatToString(result[i].id) + "_" + result[i].name;
      regionKeyboard := regionKeyboard + [[Button(result[i].name, command)]];
    }
    return ChooseSubscription(regionKeyboard);
  }
}
