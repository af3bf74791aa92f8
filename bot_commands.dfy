/**
 * The user-facing commands of the newer bot (telegram_bot/telegram_bot.py): the display
 * name, the argument handling of `/subscribe` and `/unsubscribe`, and `command_handler`,
 * which acts on the callback data of a pressed keyboard button.
 *
 * The three callback prefixes (`CMD_SUB_PREFIX`, `CMD_UNSUB_PREFIX`, `CMD_PREFIX_CANCEL`)
 * are not defined in constants.py and are parameters here. Replies are kept as
 * datatypes naming the message template and the region text spliced into it.
 */
module BotCommands {
  import opened Common
  import opened Text
  import opened Tables
  import opened BotUtils

  /** A name part as `get_username` adds it: `str(item)`, or nothing when it is None. */
  function Given(part: Option<string>): string
  {
    if part.Some? then part.value else ""
  }

  /** `get_username` (telegram_bot/telegram_bot.py:33-40): first name then last name, no separator. */
  method GetUsername(firstName: Option<string>, lastName: Option<string>) returns (username: string)
    ensures username == Given(firstName) + Given(lastName)
    ensures firstName.None? ==> username == Given(lastName)
    ensures lastName.None? ==> username == Given(firstName)
  {
    var items := [firstName, lastName];
    username := "";
    for k := 0 to |items|
      invariant username == (if k > 0 then Given(items[0]) else "") + (if k > 1 then Given(items[1]) else "")
    {
      if items[k].Some? {
        username := username + items[k].value;
      }
    }
  }

  /** `UBSUB_USER_REGION`: the subscription rows without the given (user, region) row. */
  function WithoutPair(subs: seq<Subscription>, pair: Subscription): (r: seq<Subscription>)
    ensures forall s :: s in r <==> s in subs && s != pair
    ensures pair !in subs ==> r == subs
    ensures NoDup(subs) ==> NoDup(r)
  {
    if subs == [] then []
    else
      var rest := WithoutPair(subs[1..], pair);
      assert subs == [subs[0]] + subs[1..];
      assert NoDup(subs) ==> NoDup(subs[1..]) && subs[0] !in rest by {
        if NoDup(subs) {
          assert forall i, j :: 0 <= i < j < |subs| - 1 ==> subs[1..][i] == subs[i + 1] && subs[1..][j] == subs[j + 1];
        }
      }
      (if subs[0] == pair then [] else [subs[0]]) + rest
  }

  /** `UBSUB_USER_ALL_REGION`: the subscription rows of every other user. */
  function WithoutUser(subs: seq<Subscription>, user: int): (r: seq<Subscription>)
    ensures forall s :: s in r <==> s in subs && s.user != user
    ensures NoDup(subs) ==> NoDup(r)
  {
    if subs == [] then []
    else
      var rest := WithoutUser(subs[1..], user);
      assert subs == [subs[0]] + subs[1..];
      (if subs[0].user == user then [] else [subs[0]]) + rest
  }

  /** Dropping subscription rows keeps the table invariant. */
  lemma FewerSubscriptions(st: DbState, subs: seq<Subscription>)
    requires Consistent(st) && NoDup(subs)
    requires forall s :: s in subs ==> s in st.subscriptions
    ensures Consistent(st.(subscriptions := subs))
  {
    forall i | 0 <= i < |subs|
      ensures subs[i].user in st.users
    {
      assert subs[i] in st.subscriptions;
      var j :| 0 <= j < |st.subscriptions| && st.subscriptions[j] == subs[i];
    }
  }

  /** The callback prefixes of the bot's buttons. */
  datatype Prefixes = Prefixes(sub: string, unsub: string, cancel: string)

  /**
   * The answer to a pressed button: `REGISTERED` and `USER_UNSUBSCRIPTION` with the region
   * text of the callback, `ALREADY_REGISTERED`, `CANCEL_OPERATION`, no answer for an unknown
   * prefix, or an exception raised in the handler.
   */
  datatype CallbackReply = Registered(region: string) | AlreadyRegistered | Unsubscribed(region: string)
                         | Cancelled | NoReply | Raised

  /**
   * The subscribe branch (telegram_bot/telegram_bot.py:376-420). The user is inserted first
   * when unknown; a missing `command[1]` then raises, and so does an id that is not a
   * decimal (the failed lookup returns None, whose `len` raises); the pair is inserted only
   * when absent, and a missing `command[2]` raises after that insertion.
   */
  function SubscribeCallback(st: DbState, user: int, username: string, command: seq<string>): (r: (DbState, CallbackReply))
    ensures r.0 == st.(users := r.0.users, subscriptions := r.0.subscriptions)
    ensures user in r.0.users && r.0.users.Keys == st.users.Keys + {user}
    ensures forall u :: u in st.users ==> r.0.users[u] == st.users[u]
    ensures user !in st.users ==> r.0.users[user] == username
    ensures r.0.subscriptions == st.subscriptions ||
            exists id :: Subscription(user, id) !in st.subscriptions &&
                         r.0.subscriptions == st.subscriptions + [Subscription(user, id)]
    ensures Consistent(st) ==> Consistent(r.0)
  {
    var st1 := if user in st.users then st else st.(users := st.users[user := username]);
    if |command| < 2 then (st1, Raised)
    else
      match ParseDecimal(command[1])
      case None => (st1, Raised)
      case Some(id) =>
        var pair := Subscription(user, id);
        if pair in st1.subscriptions then (st1, AlreadyRegistered)
        else
          var st2 := st1.(subscriptions := st1.subscriptions + [pair]);
          assert Consistent(st) ==> Consistent(st2) by {
            if Consistent(st) {
              assert forall i :: 0 <= i < |st1.subscriptions| ==> st1.subscriptions[i] == st2.subscriptions[i];
            }
          }
          if |command| < 3 then (st2, Raised) else (st2, Registered(command[2]))
  }

  /**
   * The unsubscribe branch (telegram_bot/telegram_bot.py:423-438): a missing `command[1]`
   * raises; the delete removes the (user, id) row, and removes nothing when the id is not
   * a decimal (the failed query is swallowed); a missing `command[2]` raises after it.
   */
  function UnsubscribeCallback(st: DbState, user: int, command: seq<string>): (r: (DbState, CallbackReply))
    ensures r.0 == st.(subscriptions := r.0.subscriptions)
    ensures forall s :: s in r.0.subscriptions <==>
      s in st.subscriptions && !(s.user == user && |command| >= 2 && ParseDecimal(command[1]) == Some(s.region))
    ensures Consistent(st) ==> Consistent(r.0)
  {
    if |command| < 2 then (st, Raised)
    else
      var st1 := match ParseDecimal(command[1])
                 case None => st
                 case Some(id) => st.(subscriptions := WithoutPair(st.subscriptions, Subscription(user, id)));
      assert Consistent(st) ==> Consistent(st1) by {
        if Consistent(st) {
          FewerSubscriptions(st, st1.subscriptions);
        }
      }
      if |command| < 3 then (st1, Raised) else (st1, Unsubscribed(command[2]))
  }

  /** `command_handler` (telegram_bot/telegram_bot.py:357-443) on the state of the tables. */
  function HandleCallback(st: DbState, user: int, username: string, data: string, p: Prefixes): (r: (DbState, CallbackReply))
    ensures r.0 == st.(users := r.0.users, subscriptions := r.0.subscriptions)
    ensures Consistent(st) ==> Consistent(r.0)
  {
    var command := Split(data, "_");
    if command[0] == p.sub then SubscribeCallback(st, user, username, command)
    else if command[0] == p.unsub then UnsubscribeCallback(st, user, command)
    else if command[0] == p.cancel then (st, Cancelled)
    else (st, NoReply)
  }

  /** `command_handler` (telegram_bot/telegram_bot.py:357-443). */
  method CommandHandler(db: Database, user: int, username: string, data: string, p: Prefixes)
    returns (reply: CallbackReply)
    modifies db
    ensures (db.State(), reply) == HandleCallback(old(db.State()), user, username, data, p)
    ensures old(db.Valid()) ==> db.Valid()
  {
    var command := Split(data, "_");
    if command[0] == p.sub {
      if user !in db.users {
        db.users := db.users[user := username];
      }
      if |command| < 2 {
        return Raised;
      }
      var regId := ParseDecimal(command[1]);
      if regId.None? {
        return Raised;
      }
      var pair := Subscription(user, regId.value);
      if pair in db.subscriptions {
        return AlreadyRegistered;
      }
      db.subscriptions := db.subscriptions + [pair];
      if |command| < 3 {
        return Raised;
      }
      return Registered(command[2]);
    } else if command[0] == p.unsub {
      if |command| < 2 {
        return Raised;
      }
      var regId := ParseDecimal(command[1]);
      if regId.Some? {
        db.subscriptions := WithoutPair(db.subscriptions, Subscription(user, regId.value));
      }
      if |command| < 3 {
        return Raised;
      }
      return Unsubscribed(command[2]);
    } else if command[0] == p.cancel {
      return Cancelled;
    }
    return NoReply;
  }

  /**
   * Pressing the same button twice leaves the tables as after the first press, and a
   * subscription registered by the first press is reported as already registered.
   */
  lemma CallbackIdempotent(st: DbState, user: int, username: string, data: string, p: Prefixes)
    ensures var first := HandleCallback(st, user, username, data, p);
            var again := HandleCallback(first.0, user, username, data, p);
            again.0 == first.0 && (first.1.Registered? ==> again.1 == AlreadyRegistered)
  {
    var command := Split(data, "_");
    var first := HandleCallback(st, user, username, data, p);
    if command[0] != p.sub && command[0] == p.unsub && |command| >= 2 {
      match ParseDecimal(command[1])
      case None =>
      case Some(id) =>
        var pair := Subscription(user, id);
        assert first.0.subscriptions == WithoutPair(st.subscriptions, pair);
        assert pair !in first.0.subscriptions;
    }
  }

  /**
   * Pressing a subscribe button of a region keyboard subscribes the user to the button's
   * region: the pair is appended when absent and the reply names the region (its name up
   * to the first "_"); when present nothing changes and the reply is "already registered".
   * The user row is inserted when missing and never overwritten.
   */
  lemma SubscribeButton(st: DbState, user: int, username: string, p: Prefixes, row: RegionRow)
    requires '_' !in p.sub
    ensures var r := HandleCallback(st, user, username, Callback(p.sub, row), p);
            var pair := Subscription(user, row.id);
            && r.0 == st.(users := r.0.users, subscriptions := r.0.subscriptions)
            && r.0.users == (if user in st.users then st.users else st.users[user := username])
            && (pair in st.subscriptions ==> r.0.subscriptions == st.subscriptions && r.1 == AlreadyRegistered)
            && (pair !in st.subscriptions ==>
                  r.0.subscriptions == st.subscriptions + [pair] && r.1 == Registered(Split(row.name, "_")[0]))
  {
    CallbackFields(p.sub, row);
  }

  /**
   * Pressing an unsubscribe button removes exactly the (user, region) row of the button,
   * touches no other table, and replies with the region's name up to the first "_".
   */
  lemma UnsubscribeButton(st: DbState, user: int, username: string, p: Prefixes, row: RegionRow)
    requires '_' !in p.unsub && p.unsub != p.sub
    ensures var r := HandleCallback(st, user, username, Callback(p.unsub, row), p);
            && r.0 == st.(subscriptions := WithoutPair(st.subscriptions, Subscription(user, row.id)))
            && r.1 == Unsubscribed(Split(row.name, "_")[0])
  {
    CallbackFields(p.unsub, row);
  }

  /** The cancel button changes no table. */
  lemma CancelButton(st: DbState, user: int, username: string, p: Prefixes)
    requires '_' !in p.cancel && p.cancel != p.sub && p.cancel != p.unsub
    ensures HandleCallback(st, user, username, p.cancel, p) == (st, Cancelled)
  {
    SplitWithout(p.cancel, '_');
  }

  /**
   * `REGIONS_QUERY`: the regions the user subscribes to, as (name, id) rows in subscription
   * order; a subscription to a region without a region row has no name and is not listed.
   */
  function SubscribedRows(st: DbState, user: int): (rows: seq<RegionRow>)
    ensures forall row :: row in rows <==>
      Subscription(user, row.id) in st.subscriptions && row.id in st.regions && row.name == st.regions[row.id].name
  {
    Rows(st.subscriptions, st.regions, user)
  }

  function Rows(subs: seq<Subscription>, regions: map<nat, RegionInfo>, user: int): (rows: seq<RegionRow>)
    ensures forall row :: row in rows <==>
      Subscription(user, row.id) in subs && row.id in regions && row.name == regions[row.id].name
  {
    if subs == [] then []
    else
      var s := subs[0];
      var rest := Rows(subs[1..], regions, user);
      assert subs == [s] + subs[1..];
      (if s.user == user && s.region in regions then [RegionRow(regions[s.region].name, s.region)] else []) + rest
  }

  /** The replies of `/unsubscribe`. */
  datatype UnsubscribeReply = UnsubscribeUsage | UnsubscribedAll | NoSubscriptionsFound
                            | ChooseSubscription(keyboard: seq<seq<Button>>)

  /**
   * `cmd_unsubscribe` (telegram_bot/telegram_bot.py:305-355): more than one argument, or
   * one other than "all", is refused; "all" deletes every subscription of the user and
   * nothing else; no argument offers the keyboard of the user's regions.
   */
  method CmdUnsubscribe(db: Database, user: int, args: seq<string>, p: Prefixes) returns (reply: UnsubscribeReply)
    modifies db
    ensures reply == UnsubscribeUsage <==> |args| > 1 || (|args| == 1 && args[0] != "all")
    ensures reply == UnsubscribedAll <==> args == ["all"]
    ensures args == ["all"] ==>
      db.State() == old(db.State()).(subscriptions := WithoutUser(old(db.subscriptions), user))
    ensures args != ["all"] ==> db.State() == old(db.State())
    ensures args == [] ==>
      var keyboard := RegionKeyboard(SubscribedRows(old(db.State()), user), p.unsub, p.cancel);
      reply == if keyboard.None? then NoSubscriptionsFound else ChooseSubscription(keyboard.value)
    ensures old(db.Valid()) ==> db.Valid()
  {
    if |args| > 1 {
      return UnsubscribeUsage;
    } else if |args| == 1 {
      if args[0] == "all" {
        if db.Valid() {
          FewerSubscriptions(db.State(), WithoutUser(db.subscriptions, user));
        }
        db.subscriptions := WithoutUser(db.subscriptions, user);
        return UnsubscribedAll;
      } else {
        return UnsubscribeUsage;
      }
    } else {
      var keyboard := RegionCmdButtons(SubscribedRows(db.State(), user), p.unsub, p.cancel);
      if keyboard.None? {
        return NoSubscriptionsFound;
      } else {
        return ChooseSubscription(keyboard.value);
      }
    }
  }

  /** The region name `/subscribe` searches: the arguments joined by blanks, quotes stripped. */
  function SearchTerm(args: seq<string>): string
  {
    Strip(Join(args, " "), {'"'})
  }

  /** The replies of `/subscribe`. */
  datatype SubscribeReply = SubscribeUsage | NoRegionFound(name: string) | ChooseRegion(keyboard: seq<seq<Button>>)

  /**
   * `cmd_subscribe` (telegram_bot/telegram_bot.py:233-274); `search` stands for the rows
   * `SEARCH_REGIONS` returns for a name. No argument is refused; otherwise an empty search
   * reports the name, and a non-empty one offers its keyboard.
   */
  method CmdSubscribe(args: seq<string>, search: string -> seq<RegionRow>, p: Prefixes) returns (reply: SubscribeReply)
    ensures reply == SubscribeUsage <==> args == []
    ensures args != [] && search(SearchTerm(args)) == [] ==> reply == NoRegionFound(SearchTerm(args))
    ensures args != [] && search(SearchTerm(args)) != [] ==>
      reply == ChooseRegion(RegionKeyboard(search(SearchTerm(args)), p.sub, p.cancel).value)
  {
    if |args| == 0 {
      return SubscribeUsage;
    }
    var regionName := Strip(Join(args, " "), {'"'});
    var keyboard := RegionCmdButtons(search(regionName), p.sub, p.cancel);
    if keyboard.None? {
      return NoRegionFound(regionName);
    }
    return ChooseRegion(keyboard.value);
  }

  /** A quoted name is searched without its quotes. */
  lemma SearchTermQuoted(name: string)
    requires name != [] && name[0] != '"' && name[|name| - 1] != '"'
    ensures SearchTerm(["\"" + name + "\""]) == name
    ensures SearchTerm([name]) == name
  {
    var quoted := "\"" + name + "\"";
    assert Join([quoted], " ") == quoted;
    assert Join([name], " ") == name;
    StripQuotes(name);
  }

  /** One pair of quotes around a name without quotes at its ends is stripped, and only it. */
  lemma StripQuotes(name: string)
    requires name != [] && name[0] != '"' && name[|name| - 1] != '"'
    ensures Strip("\"" + name + "\"", {'"'}) == name
    ensures Strip(name, {'"'}) == name
  {
    var quoted := "\"" + name + "\"";
    assert quoted[1..] == name + "\"";
    assert (name + "\"")[..|name|] == name;
    assert StripLeft(quoted, {'"'}) == name + "\"";
    assert StripRight(name + "\"", {'"'}) == name;
  }
}
