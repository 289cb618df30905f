/**
 * `list_to_dict`: `dict(zip(it, it))` over one iterator, so tokens are
 * taken two at a time as (key, value), a trailing unpaired token is
 * dropped, and a key seen again overwrites the earlier value.
 */
module Kwargs {

  /** What `zip(it, it)` yields: tokens `2i` and `2i+1`, for every complete pair. */
  function Pairs(tokens: seq<string>): (ps: seq<(string, string)>)
    ensures |ps| == |tokens| / 2
    ensures forall i :: 0 <= i < |ps| ==> ps[i] == (tokens[2 * i], tokens[2 * i + 1])
  {
    if |tokens| < 2 then [] else [(tokens[0], tokens[1])] + Pairs(tokens[2..])
  }

  /** `dict(pairs)`: pairs are inserted in order, each overwriting the key's
      earlier value. */
  function DictOf(ps: seq<(string, string)>): map<string, string>
  {
    if ps == [] then map[] else DictOf(ps[..|ps| - 1])[ps[|ps| - 1].0 := ps[|ps| - 1].1]
  }

  function ListToDict(tokens: seq<string>): map<string, string>
  {
    DictOf(Pairs(tokens))
  }

  /** A key is present exactly when some pair carries it. */
  lemma {:induction false} DictOfKeys(ps: seq<(string, string)>, k: string)
    ensures k in DictOf(ps) <==> exists i :: 0 <= i < |ps| && ps[i].0 == k
  {
    if ps != [] {
      var init := ps[..|ps| - 1];
      DictOfKeys(init, k);
      if k in DictOf(init) {
        var i :| 0 <= i < |init| && init[i].0 == k;
        assert ps[i].0 == k;
      }
      if exists i :: 0 <= i < |ps| && ps[i].0 == k {
        var i :| 0 <= i < |ps| && ps[i].0 == k;
        if i < |init| { assert init[i].0 == k; }
      }
    }
  }

  /** The value of a key is the one of the last pair that carries it. */
  lemma {:induction false} DictOfLastWins(ps: seq<(string, string)>, i: nat)
    requires i < |ps|
    requires forall j :: i < j < |ps| ==> ps[j].0 != ps[i].0
    ensures ps[i].0 in DictOf(ps) && DictOf(ps)[ps[i].0] == ps[i].1
  {
    if i < |ps| - 1 {
      var init := ps[..|ps| - 1];
      assert init[i] == ps[i];
      DictOfLastWins(init, i);
    }
  }

  /** Every entry of the dictionary is one of the pairs. */
  lemma {:induction false} DictOfEntries(ps: seq<(string, string)>, k: string)
    requires k in DictOf(ps)
    ensures exists i :: 0 <= i < |ps| && ps[i] == (k, DictOf(ps)[k])
  {
    var init := ps[..|ps| - 1];
    if k != ps[|ps| - 1].0 {
      DictOfEntries(init, k);
      var i :| 0 <= i < |init| && init[i] == (k, DictOf(init)[k]);
      assert ps[i] == init[i];
    } else {
      assert ps[|ps| - 1] == (k, DictOf(ps)[k]);
    }
  }

  /** At most one entry per pair. */
  lemma {:induction false} DictOfSize(ps: seq<(string, string)>)
    ensures |DictOf(ps)| <= |ps|
  {
    if ps != [] {
      DictOfSize(ps[..|ps| - 1]);
    }
  }

  /** `list_to_dict` holds a key exactly when some pair starts with it,
      and at most one entry per pair, so at most `len / 2` entries. */
  lemma ListToDictKeys(tokens: seq<string>, k: string)
    ensures k in ListToDict(tokens) ==> exists i :: 0 <= i < |tokens| / 2 && Pairs(tokens)[i].0 == k
    ensures (exists i :: 0 <= i < |tokens| / 2 && Pairs(tokens)[i].0 == k) ==> k in ListToDict(tokens)
  {
    DictOfKeys(Pairs(tokens), k);
  }

  lemma ListToDictSize(tokens: seq<string>)
    ensures |ListToDict(tokens)| <= |tokens| / 2
  {
    DictOfSize(Pairs(tokens));
  }

  /** The value of a key is the token right after its last occurrence as a key. */
  lemma ListToDictLastWins(tokens: seq<string>, i: nat)
    requires i < |tokens| / 2
    requires forall j :: i < j < |tokens| / 2 ==> Pairs(tokens)[j].0 != tokens[2 * i]
    ensures tokens[2 * i] in ListToDict(tokens) && ListToDict(tokens)[tokens[2 * i]] == tokens[2 * i + 1]
  {
    DictOfLastWins(Pairs(tokens), i);
  }

  /** Keys sit at even positions of the input and values right after them. */
  lemma ListToDictFromInput(tokens: seq<string>, k: string)
    requires k in ListToDict(tokens)
    ensures exists i :: 0 <= i < |tokens| / 2 && tokens[2 * i] == k && tokens[2 * i + 1] == ListToDict(tokens)[k]
  {
    DictOfEntries(Pairs(tokens), k);
    var i :| 0 <= i < |Pairs(tokens)| && Pairs(tokens)[i] == (k, ListToDict(tokens)[k]);
    assert tokens[2 * i] == k && tokens[2 * i + 1] == ListToDict(tokens)[k];
  }

  /** An unpaired trailing token is dropped. */
  lemma {:induction false} TrailingTokenDropped(tokens: seq<string>, extra: string)
    requires |tokens| % 2 == 0
    ensures ListToDict(tokens + [extra]) == ListToDict(tokens)
  {
    assert Pairs(tokens + [extra]) == Pairs(tokens);
  }

  /** Repeating a key overwrites the earlier value: `k v1 k v2` gives `{k: v2}`. */
  lemma LaterDuplicateWins(k: string, v1: string, v2: string)
    ensures ListToDict([k, v1, k, v2]) == map[k := v2]
  {
    var ps := [(k, v1), (k, v2)];
    assert Pairs([k, v1, k, v2]) == ps;
    assert ps[..1] == [(k, v1)];
    assert [(k, v1)][..0] == [];
    assert DictOf([(k, v1)]) == map[k := v1];
  }
}
