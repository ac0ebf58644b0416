/**
 * The bot's commands: a fixed map from an internal name to the word a user
 * types after `/`. Validity and the command lists range over the map's
 * values; the map is iterated in an unspecified order, so the lists are
 * stated up to order, through the order of keys the iteration took.
 */
module Commands {
  /** `api.Command`, a string type of its own. */
  datatype Command = Command(text: string)

  /** `ToCommand`: the conversion keeps the text. */
  function ToCommand(s: string): (c: Command)
    ensures c.text == s
  {
    Command(s)
  }

  /** `ValidCommands`. */
  const ValidCommands: map<string, Command> :=
    map["suscribe" := Command("suscribirme"), "unsuscribe" := Command("baja"), "on_demand" := Command("obtener")]

  /** The three command words. */
  lemma ValidValues()
    ensures ValidCommands.Values == {Command("suscribirme"), Command("baja"), Command("obtener")}
  {
    assert ValidCommands["suscribe"] == Command("suscribirme");
    assert ValidCommands["unsuscribe"] == Command("baja");
    assert ValidCommands["on_demand"] == Command("obtener");
  }

  /** `IsValid`: a range loop over the map that stops at the first value equal to `c`. */
  method IsValid(c: Command) returns (b: bool)
    ensures b <==> c in ValidCommands.Values
  {
    var remaining := ValidCommands.Keys;
    while remaining != {}
      invariant remaining <= ValidCommands.Keys
      invariant forall k :: k in ValidCommands && k !in remaining ==> ValidCommands[k] != c
      decreases remaining
    {
      var k :| k in remaining;
      if ValidCommands[k] == c {
        return true;
      }
      remaining := remaining - {k};
    }
    return false;
  }

  /** A valid command is exactly one of the three words. */
  lemma ValidIff(c: Command)
    ensures c in ValidCommands.Values <==> c.text == "suscribirme" || c.text == "baja" || c.text == "obtener"
  {
    ValidValues();
  }

  /** The map's keys are not commands, and neither is anything written with its slash. */
  lemma NotCommands(s: string)
    requires s in ValidCommands.Keys || (|s| > 0 && s[0] == '/')
    ensures ToCommand(s) !in ValidCommands.Values
  {
    ValidValues();
  }

  // ---------------------------------------------------------------------------
  // The command lists

  /** An order the map's range loop can take: every key exactly once. */
  predicate Enumerates(order: seq<string>)
  {
    (forall i :: 0 <= i < |order| ==> order[i] in ValidCommands) &&
    (forall i, j :: 0 <= i < j < |order| ==> order[i] != order[j]) &&
    (forall k :: k in ValidCommands ==> k in order)
  }

  /** The slashed command words in the order `order` visits the keys. */
  function Slashed(order: seq<string>): (cmds: seq<string>)
    requires forall i :: 0 <= i < |order| ==> order[i] in ValidCommands
  {
    seq(|order|, i requires 0 <= i < |order| => "/" + ValidCommands[order[i]].text)
  }

  /** `GetValidCommandsString`: `"/" + v` for each value, in the iteration's order. */
  method GetValidCommandsString() returns (cmds: seq<string>, ghost order: seq<string>)
    ensures Enumerates(order) && cmds == Slashed(order)
  {
    var remaining := ValidCommands.Keys;
    cmds, order := [], [];
    while remaining != {}
      invariant remaining <= ValidCommands.Keys
      invariant forall i :: 0 <= i < |order| ==> order[i] in ValidCommands && order[i] !in remaining
      invariant forall i, j :: 0 <= i < j < |order| ==> order[i] != order[j]
      invariant forall k :: k in ValidCommands ==> k in remaining || k in order
      invariant cmds == Slashed(order)
      decreases remaining
    {
      var k :| k in remaining;
      cmds := cmds + ["/" + ValidCommands[k].text];
      order := order + [k];
      remaining := remaining - {k};
    }
  }

  /** `GetValidCommands`: the same words as `Command` values. */
  method GetValidCommands() returns (cmds: seq<Command>, ghost order: seq<string>)
    ensures Enumerates(order) && |cmds| == |order|
    ensures forall i :: 0 <= i < |cmds| ==> cmds[i] == Command(Slashed(order)[i])
  {
    var remaining := ValidCommands.Keys;
    cmds, order := [], [];
    while remaining != {}
      invariant remaining <= ValidCommands.Keys
      invariant forall i :: 0 <= i < |order| ==> order[i] in ValidCommands && order[i] !in remaining
      invariant forall i, j :: 0 <= i < j < |order| ==> order[i] != order[j]
      invariant forall k :: k in ValidCommands ==> k in remaining || k in order
      invariant |cmds| == |order|
      invariant forall i :: 0 <= i < |cmds| ==> cmds[i] == Command("/" + ValidCommands[order[i]].text)
      decreases remaining
    {
      var k :| k in remaining;
      cmds := cmds + [Command("/" + ValidCommands[k].text)];
      order := order + [k];
      remaining := remaining - {k};
    }
  }

  /** In an enumeration every position holds one of the three keys, found at `i`, `j` and `k`. */
  lemma Among(order: seq<string>, n: int, i: int, j: int, k: int)
    requires Enumerates(order) && 0 <= n < |order|
    requires 0 <= i < |order| && 0 <= j < |order| && 0 <= k < |order|
    requires order[i] == "suscribe" && order[j] == "unsuscribe" && order[k] == "on_demand"
    ensures n == i || n == j || n == k
  {
    assert order[n] in ValidCommands.Keys;
    assert ValidCommands.Keys == {"suscribe", "unsuscribe", "on_demand"};
  }

  /**
   * A list of the slashed command words: three entries holding the three
   * distinct words, so each word once and nothing else.
   */
  predicate ListsEachCommand(cmds: seq<string>)
  {
    |cmds| == 3 && "/suscribirme" in cmds && "/baja" in cmds && "/obtener" in cmds
  }

  /** An enumeration visits exactly the three keys. */
  lemma EnumerationLength(order: seq<string>)
    requires Enumerates(order)
    ensures |order| == 3
  {
    assert "suscribe" in ValidCommands && "unsuscribe" in ValidCommands && "on_demand" in ValidCommands;
    var i :| 0 <= i < |order| && order[i] == "suscribe";
    var j :| 0 <= j < |order| && order[j] == "unsuscribe";
    var k :| 0 <= k < |order| && order[k] == "on_demand";
    if |order| > 3 {
      Among(order, 0, i, j, k);
      Among(order, 1, i, j, k);
      Among(order, 2, i, j, k);
      Among(order, 3, i, j, k);
    }
  }

  /** Whatever the iteration order, the list holds each slashed command word once and nothing else. */
  lemma SlashedContents(order: seq<string>)
    requires Enumerates(order)
    ensures ListsEachCommand(Slashed(order))
  {
    EnumerationLength(order);
    var s := Slashed(order);
    assert "suscribe" in ValidCommands && "unsuscribe" in ValidCommands && "on_demand" in ValidCommands;
    var i :| 0 <= i < |order| && order[i] == "suscribe";
    var j :| 0 <= j < |order| && order[j] == "unsuscribe";
    var k :| 0 <= k < |order| && order[k] == "on_demand";
    assert s[i] == "/suscribirme" && s[j] == "/baja" && s[k] == "/obtener";
  }
}
