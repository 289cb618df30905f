/**
 * The command registry (`Command.registry`): command names, in the order
 * they were first registered, each with its handler and its help text.
 */
module Commands {
  import opened Wrappers

  /** The exceptions a handler can raise that the bot tells apart. */
  datatype Failure = KeyError | OtherError

  /** What running a handler did: the messages of its successive `send`
      calls, in order, and the exception it ended with, if any. */
  datatype Outcome = Outcome(enqueued: seq<string>, raised: Option<Failure>)

  /** A handler, called with the keyword arguments built from the command line. */
  type Handler = map<string, string> -> Outcome

  /** A registry entry: the handler (`'cmd'`) and its docstring (`'help'`). */
  datatype Entry = Entry(cmd: Handler, help: string)

  predicate Distinct(names: seq<string>) {
    forall i, j :: 0 <= i < j < |names| ==> names[i] != names[j]
  }

  /** A dictionary: `names` lists its keys, each once, in insertion order. */
  ghost predicate WellFormed(names: seq<string>, table: map<string, Entry>) {
    && Distinct(names)
    && (forall i :: 0 <= i < |names| ==> names[i] in table)
    && |names| == |table|
  }

  /** The help texts in iteration order, one per listed name. */
  function HelpTexts(names: seq<string>, table: map<string, Entry>): (hs: seq<string>)
    requires forall i :: 0 <= i < |names| ==> names[i] in table
    ensures |hs| == |names|
    ensures forall i :: 0 <= i < |names| ==> hs[i] == table[names[i]].help
  {
    if names == [] then [] else [table[names[0]].help] + HelpTexts(names[1..], table)
  }

  lemma {:induction false} DistinctCard(names: seq<string>)
    requires Distinct(names)
    ensures |set n | n in names| == |names|
  {
    if names != [] {
      var tail := names[1..];
      assert Distinct(tail) by {
        forall i, j | 0 <= i < j < |tail| ensures tail[i] != tail[j] {
          assert tail[i] == names[i + 1] && tail[j] == names[j + 1];
        }
      }
      DistinctCard(tail);
      assert (set n | n in names) == {names[0]} + (set n | n in tail);
      assert names[0] !in tail by {
        forall j | 0 <= j < |tail| ensures tail[j] != names[0] {
          assert tail[j] == names[j + 1];
        }
      }
    }
  }

  /** Iterating over the names visits every registered command. */
  lemma NamesCoverTable(names: seq<string>, table: map<string, Entry>)
    requires WellFormed(names, table)
    ensures forall n :: n in table <==> n in names
  {
    var listed := set n | n in names;
    DistinctCard(names);
    assert listed <= table.Keys;
    assert |table.Keys - listed| == |table.Keys| - |listed|;
    assert table.Keys - listed == {};
    assert table.Keys == listed;
  }

  /** `Command.registry`, updated in place by each registration. */
  class CommandRegistry {
    var names: seq<string>
    var table: map<string, Entry>

    ghost predicate Valid()
      reads this
    {
      WellFormed(names, table)
    }

    constructor ()
      ensures Valid() && names == [] && table == map[]
    {
      names := [];
      table := map[];
    }

    /** `registry[name] = entry`: a new name goes last; registering a name
        again replaces its entry and keeps its place. */
    method Register(name: string, entry: Entry)
      requires Valid()
      modifies this
      ensures Valid()
      ensures name in table && table[name] == entry
      ensures forall n :: n != name ==> (n in table <==> n in old(table))
      ensures forall n :: n != name && n in old(table) ==> table[n] == old(table)[n]
      ensures names == if name in old(table) then old(names) else old(names) + [name]
    {
      if name !in table {
        names := names + [name];
      }
      table := table[name := entry];
    }
  }
}
