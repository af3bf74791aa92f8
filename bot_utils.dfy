/**
 * Helpers of the newer bot (telegram_bot/utils.py): the inline keyboard offered for a
 * list of regions, whose callback data `command_handler` later splits on "_", and the
 * line-based reader of the dashboard's JavaScript variable assignments.
 */
module BotUtils {
  import opened Common
  import opened Text

  /** An inline keyboard button, reduced to its text and its callback data. */
  datatype Button = Button(text: string, callback: string)

  /** A row of a region query: `item[0]` is the region's name, `item[1]` its id. */
  datatype RegionRow = RegionRow(name: string, id: nat)

  /** The callback data of a region button: prefix, id and name joined by "_". */
  function Callback(prefix: string, row: RegionRow): string
  {
    prefix + "_" + NatToString(row.id) + "_" + row.name
  }

  /**
   * The keyboard `region_cmd_buttons` returns for a query result: None for no rows,
   * otherwise one single-button row per result row, in order, and a last row holding
   * the cancel button.
   */
  function RegionKeyboard(rows: seq<RegionRow>, prefix: string, cancel: string): (r: Option<seq<seq<Button>>>)
    ensures r.None? <==> rows == []
    ensures r.Some? ==> |r.value| == |rows| + 1
    ensures r.Some? ==> forall i :: 0 <= i < |r.value| ==> |r.value[i]| == 1
    ensures r.Some? ==> forall i :: 0 <= i < |rows| ==>
      r.value[i][0] == Button(rows[i].name, Callback(prefix, rows[i]))
    ensures r.Some? ==> r.value[|rows|][0] == Button(cancel, cancel)
  {
    if rows == [] then None
    else Some(seq(|rows|, i requires 0 <= i < |rows| => [Button(rows[i].name, Callback(prefix, rows[i]))])
              + [[Button(cancel, cancel)]])
  }

  /** `region_cmd_buttons` (telegram_bot/utils.py:47-89), given the rows its query returns. */
  method RegionCmdButtons(rows: seq<RegionRow>, prefix: string, cancel: string)
    returns (keyboard: Option<seq<seq<Button>>>)
    ensures keyboard == RegionKeyboard(rows, prefix, cancel)
  {
    if |rows| == 0 {
      return None;
    }
    var regionKeyboard: seq<seq<Button>> := [];
    for i := 0 to |rows|
      invariant |regionKeyboard| == i
      invariant forall j :: 0 <= j < i ==> regionKeyboard[j] == [Button(rows[j].name, Callback(prefix, rows[j]))]
    {
      var item := rows[i];
      var command := prefix + "_" + NatToString(item.id) + "_" + item.name;
      regionKeyboard := regionKeyboard + [[Button(item.name, command)]];
    }
    regionKeyboard := regionKeyboard + [[Button(cancel, cancel)]];
    ghost var spec := RegionKeyboard(rows, prefix, cancel).value;
    assert forall j :: 0 <= j < |spec| ==> regionKeyboard[j] == spec[j];
    assert regionKeyboard == spec;
    return Some(regionKeyboard);
  }

  /**
   * A button's callback, split on "_", gives back its prefix at index 0 and its region id
   * at index 1 when the prefix holds no "_"; what follows is the name split on "_".
   */
  lemma {:induction false} CallbackFields(prefix: string, row: RegionRow)
    requires '_' !in prefix
    ensures Split(Callback(prefix, row), "_") == [prefix, NatToString(row.id)] + Split(row.name, "_")
    ensures ParseDecimal(Split(Callback(prefix, row), "_")[1]) == Some(row.id)
  {
    NatToStringHasNoUnderscore(row.id);
    SplitAfterTwoHeads(prefix, NatToString(row.id), '_', row.name);
    NatToStringRoundTrip(row.id);
  }

  /** Why `simple_js_parser` raises: a line without " = ", or a value `literal_eval` rejects. */
  datatype JsError = MissingAssignment | BadLiteral

  /** The lines of the page: leading and trailing newlines stripped, then split on "\n". */
  function Lines(page: string): (lines: seq<string>)
    ensures |lines| >= 1
    ensures forall i :: 0 <= i < |lines| ==> '\n' !in lines[i]
  {
    var lines := Split(Strip(page, {'\n'}), "\n");
    forall i | 0 <= i < |lines|
      ensures '\n' !in lines[i]
    {
      OccursAtChar(lines[i], '\n');
    }
    lines
  }

  /**
   * One line: every "var" deleted, then split on " = "; the key is the text before the
   * first " = " with whitespace stripped, the value is `eval` of the next segment with
   * ';' stripped from both ends. `eval` stands for `ast.literal_eval`; None means it raises.
   */
  function ParseLine<V>(line: string, eval: string -> Option<V>): (r: Result<(string, V), JsError>)
  {
    var data := Split(Replace(line, "var", ""), " = ");
    if |data| < 2 then Err(MissingAssignment)
    else
      match eval(Strip(data[1], {';'}))
      case None => Err(BadLiteral)
      case Some(v) => Ok((Strip(data[0], Whitespace), v))
  }

  /** The outcome of every line, in order. */
  function LineResults<V>(lines: seq<string>, eval: string -> Option<V>): (rs: seq<Result<(string, V), JsError>>)
    ensures |rs| == |lines| && forall i :: 0 <= i < |lines| ==> rs[i] == ParseLine(lines[i], eval)
  {
    seq(|lines|, i requires 0 <= i < |lines| => ParseLine(lines[i], eval))
  }

  /**
   * The line outcomes folded in order into one dictionary, a later key overwriting an
   * earlier one; the first failing line ends the fold with its error.
   */
  function Collect<V>(entries: seq<Result<(string, V), JsError>>): Result<map<string, V>, JsError>
  {
    if entries == [] then Ok(map[])
    else
      match Collect(entries[..|entries| - 1])
      case Err(e) => Err(e)
      case Ok(m) =>
        match entries[|entries| - 1]
        case Err(e) => Err(e)
        case Ok(entry) => Ok(m[entry.0 := entry.1])
  }

  /** What `simple_js_parser` returns for a page, or why it raises. */
  function ParseJs<V>(page: string, eval: string -> Option<V>): Result<map<string, V>, JsError>
  {
    Collect(LineResults(Lines(page), eval))
  }

  /** `simple_js_parser` (telegram_bot/utils.py:92-113, utils.py:45-59). */
  method SimpleJsParser<V>(page: string, eval: string -> Option<V>) returns (r: Result<map<string, V>, JsError>)
    ensures r == ParseJs(page, eval)
  {
    var lines := Lines(page);
    r := ReadLines(lines, eval);
  }

  /** The line loop of `simple_js_parser` (telegram_bot/utils.py:102-113). */
  method ReadLines<V>(lines: seq<string>, eval: string -> Option<V>) returns (r: Result<map<string, V>, JsError>)
    ensures r == Collect(LineResults(lines, eval))
  {
    var variables: map<string, V> := map[];
    ghost var entries := LineResults(lines, eval);
    for k := 0 to |lines|
      invariant Collect(entries[..k]) == Ok(variables)
    {
      var entry := ReadLine(lines[k], eval);
      CollectSnoc(entries, k, variables);
      if entry.Err? {
        CollectErr(entries, k + 1);
        return Err(entry.error);
      }
      variables := variables[entry.value.0 := entry.value.1];
    }
    assert entries[..|lines|] == entries;
    return Ok(variables);
  }

  /** The body of the line loop of `simple_js_parser` (telegram_bot/utils.py:108-111). */
  method ReadLine<V>(line: string, eval: string -> Option<V>) returns (entry: Result<(string, V), JsError>)
    ensures entry == ParseLine(line, eval)
  {
    var lineData := Split(Replace(line, "var", ""), " = ");
    if |lineData| < 2 {
      return Err(MissingAssignment);
    }
    var value := eval(Strip(lineData[1], {';'}));
    if value.None? {
      return Err(BadLiteral);
    }
    return Ok((Strip(lineData[0], Whitespace), value.value));
  }

  /** One more outcome of the fold: an error ends it, a pair updates the dictionary. */
  lemma CollectSnoc<V>(entries: seq<Result<(string, V), JsError>>, k: nat, m: map<string, V>)
    requires k < |entries| && Collect(entries[..k]) == Ok(m)
    ensures entries[k].Err? ==> Collect(entries[..k + 1]) == Err(entries[k].error)
    ensures entries[k].Ok? ==> Collect(entries[..k + 1]) == Ok(m[entries[k].value.0 := entries[k].value.1])
  {
    assert entries[..k + 1][..k] == entries[..k];
  }

  /** An error among the first `k` outcomes is the error of the whole fold. */
  lemma {:induction false} CollectErr<V>(entries: seq<Result<(string, V), JsError>>, k: nat)
    requires k <= |entries| && Collect(entries[..k]).Err?
    ensures Collect(entries) == Collect(entries[..k])
    decreases |entries| - k
  {
    if k < |entries| {
      assert entries[..k + 1][..k] == entries[..k];
      CollectErr(entries, k + 1);
    } else {
      assert entries[..k] == entries;
    }
  }

  /** The fold succeeds exactly when every line succeeds. */
  lemma {:induction false} CollectOk<V>(entries: seq<Result<(string, V), JsError>>)
    ensures Collect(entries).Ok? <==> forall i :: 0 <= i < |entries| ==> entries[i].Ok?
  {
    if entries != [] {
      var p := entries[..|entries| - 1];
      CollectOk(p);
      assert forall i :: 0 <= i < |p| ==> p[i] == entries[i];
    }
  }

  /**
   * In a successful fold every line's key is present, a key's value is that of the last
   * line carrying it, and every key comes from some line.
   */
  lemma {:induction false} CollectLastWins<V>(entries: seq<Result<(string, V), JsError>>, m: map<string, V>)
    requires Collect(entries) == Ok(m)
    ensures forall i :: 0 <= i < |entries| ==> entries[i].Ok? && entries[i].value.0 in m
    ensures forall i :: 0 <= i < |entries| ==>
      (forall j :: i < j < |entries| ==> entries[j].value.0 != entries[i].value.0) ==>
      m[entries[i].value.0] == entries[i].value.1
    ensures forall key :: key in m ==> exists i :: 0 <= i < |entries| && entries[i].value.0 == key
  {
    if entries != [] {
      var p := entries[..|entries| - 1];
      var last := entries[|entries| - 1];
      CollectOk(entries);
      var pm := Collect(p).value;
      CollectLastWins(p, pm);
      assert forall i :: 0 <= i < |p| ==> p[i] == entries[i];
      assert m == pm[last.value.0 := last.value.1];
    }
  }

  /**
   * A line fails for want of an assignment exactly when it holds no " = " once "var" is
   * deleted; a parsed line's key is the stripped text before the first " = ", and its value
   * comes from the text between that and the next " = ".
   */
  lemma ParseLineFields<V>(line: string, eval: string -> Option<V>)
    ensures ParseLine(line, eval) == Err(MissingAssignment) <==> Free(Replace(line, "var", ""), " = ")
    ensures ParseLine(line, eval).Ok? ==>
      var text := Replace(line, "var", "");
      var i := IndexOf(text, " = ");
      i.Some? && ParseLine(line, eval).value.0 == Strip(text[..i.value], Whitespace) &&
      eval(Strip(Split(text[i.value + 3..], " = ")[0], {';'})) == Some(ParseLine(line, eval).value.1)
  {
    var text := Replace(line, "var", "");
    SplitSingle(text, " = ");
  }

  /** A page parses exactly when each of its lines parses. */
  lemma ParseJsOk<V>(page: string, eval: string -> Option<V>)
    ensures ParseJs(page, eval).Ok? <==> forall i :: 0 <= i < |Lines(page)| ==> ParseLine(Lines(page)[i], eval).Ok?
  {
    CollectOk(LineResults(Lines(page), eval));
  }
}
