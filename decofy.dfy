/**
 * docker/decofy.rb: rewrites a Jenkins-generated configuration, a JSON array of `key`/`value`
 * entries, into the form Deco consumes: `{"filters": {"config/config.json": M}}`, where M maps each
 * key to its value. The rewritten document replaces the file the script was given.
 *
 * Reading, parsing, printing and writing files are not modelled: the script's input is the parsed
 * document and its outcome the document it would write, with the file it writes to.
 */
module Decofy {
  /** The application configuration file Deco substitutes parameters into. */
  const AppConf: string := "config/config.json"
  const FiltersKey: string := "filters"

  /** One element of the input array. */
  datatype Entry<V> = Entry(key: string, value: V)

  /** The parsed input document: an array of entries, or anything else. */
  datatype Document<V> = EntryArray(entries: seq<Entry<V>>) | NotAnArray

  /** How the script ends: it rewrites `file` with `deco`, or exits with a message. */
  datatype ScriptOutcome<V> =
    | Rewritten(file: string, deco: map<string, map<string, map<string, V>>>)
    | Exit(status: nat, message: string)

  /** The key/value map the entries give, in order, so that a later entry for a key wins. */
  function Substitutions<V>(entries: seq<Entry<V>>): (m: map<string, V>)
    ensures forall k :: k in m <==> exists i :: 0 <= i < |entries| && entries[i].key == k
  {
    if entries == [] then map[]
    else
      var last := entries[|entries| - 1];
      var m := Substitutions(entries[..|entries| - 1])[last.key := last.value];
      assert forall i :: 0 <= i < |entries| - 1 ==> entries[..|entries| - 1][i] == entries[i];
      m
  }

  /** Every key holds the value of its LAST occurrence in the input. */
  lemma {:induction false} LastOccurrenceWins<V>(entries: seq<Entry<V>>, j: nat)
    requires j < |entries|
    requires forall i :: j < i < |entries| ==> entries[i].key != entries[j].key
    ensures entries[j].key in Substitutions(entries)
    ensures Substitutions(entries)[entries[j].key] == entries[j].value
  {
    if j < |entries| - 1 {
      var prefix := entries[..|entries| - 1];
      assert forall i :: j < i < |prefix| ==> prefix[i] == entries[i];
      LastOccurrenceWins(prefix, j);
      assert prefix[j] == entries[j];
    }
  }

  /** The wrapper around the substitutions. */
  function Wrap<V>(m: map<string, V>): (deco: map<string, map<string, map<string, V>>>)
    ensures deco.Keys == {FiltersKey} && deco[FiltersKey].Keys == {AppConf} && deco[FiltersKey][AppConf] == m
  {
    map[FiltersKey := map[AppConf := m]]
  }

  const NoArgumentMessage: string := "No config file specified!"

  function CannotProcessMessage(file: string): string {
    "Cannot process config file " + file + ", aborting!"
  }

  /** The script, given its arguments and the parsed contents of the file the first one names. */
  method Run<V>(args: seq<string>, document: Document<V>) returns (r: ScriptOutcome<V>)
    ensures args == [] ==> r == Exit(1, NoArgumentMessage)
    ensures args != [] && document.NotAnArray? ==> r == Exit(1, CannotProcessMessage(args[0]))
    ensures args != [] && document.EntryArray? ==> r == Rewritten(args[0], Wrap(Substitutions(document.entries)))
  {
    var deco := map[];
    if |args| == 0 {
      return Exit(1, NoArgumentMessage);
    }
    if document.NotAnArray? {
      return Exit(1, CannotProcessMessage(args[0]));
    }
    var entries := document.entries;
    for i := 0 to |entries|
      invariant deco == Substitutions(entries[..i])
    {
      assert entries[..i + 1][..i] == entries[..i];
      deco := deco[entries[i].key := entries[i].value];
    }
    assert entries[..|entries|] == entries;
    return Rewritten(args[0], Wrap(deco));
  }

  /** Whatever the input array holds, the written document has exactly the Deco shape. */
  lemma OutputShape<V>(entries: seq<Entry<V>>, key: string, v: V)
    ensures var deco := Wrap(Substitutions(entries + [Entry(key, v)]));
      deco.Keys == {"filters"} && deco["filters"].Keys == {"config/config.json"} &&
      deco["filters"]["config/config.json"][key] == v
  {
    LastOccurrenceWins(entries + [Entry(key, v)], |entries|);
  }
}
