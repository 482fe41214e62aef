/** The eval-listener registry: a string-keyed table of callbacks kept in
    insertion order. That is the order `Object.values` reports for keys that
    are not array indices, which JavaScript would list first in numeric order;
    the bridge's only key, `waitForFinalEval`, is not one. Assigning an
    existing key replaces its callback in place and `delete` removes it. */
module Registry {
  import opened Wrappers

  datatype Entry<L> = Entry(key: string, listener: L)

  type Registry<L> = seq<Entry<L>>

  /** Every key appears at most once. */
  predicate KeysDistinct<L>(r: Registry<L>) {
    forall i, j :: 0 <= i < j < |r| ==> r[i].key != r[j].key
  }

  function Keys<L>(r: Registry<L>): set<string> {
    set i | 0 <= i < |r| :: r[i].key
  }

  /** The callback stored under `k`, if any. */
  function Lookup<L>(r: Registry<L>, k: string): (v: Option<L>)
    ensures v.None? <==> k !in Keys(r)
  {
    if |r| == 0 then None
    else if r[0].key == k then Some(r[0].listener)
    else
      KeysTail(r);
      Lookup(r[1..], k)
  }

  /** `registry[k] = l`. */
  function Register<L>(r: Registry<L>, k: string, l: L): (r': Registry<L>)
    ensures Keys(r') == Keys(r) + {k}
    ensures KeysDistinct(r) ==> KeysDistinct(r')
    ensures k in Keys(r) ==> |r'| == |r|
    ensures k !in Keys(r) ==> r' == r + [Entry(k, l)]
    ensures KeysDistinct(r) ==> forall i :: 0 <= i < |r| ==> r'[i] == (if r[i].key == k then Entry(k, l) else r[i])
  {
    if |r| == 0 then
      KeysCons(Entry(k, l), r);
      assert [Entry(k, l)] + r == [Entry(k, l)];
      [Entry(k, l)]
    else if r[0].key == k then
      ReplaceHead(r, l);
      [Entry(k, l)] + r[1..]
    else
      var rest := Register(r[1..], k, l);
      KeepHead(r, k, l, rest);
      [r[0]] + rest
  }

  /** Registering the first key replaces the first entry in place. */
  lemma ReplaceHead<L>(r: Registry<L>, l: L)
    requires |r| > 0
    ensures var r' := [Entry(r[0].key, l)] + r[1..];
      && Keys(r') == Keys(r)
      && (KeysDistinct(r) ==> KeysDistinct(r'))
      && |r'| == |r|
      && (KeysDistinct(r) ==> forall i :: 0 <= i < |r| ==> r'[i] == (if r[i].key == r[0].key then Entry(r[0].key, l) else r[i]))
  {
    KeysTail(r);
    KeysCons(Entry(r[0].key, l), r[1..]);
    DistinctTail(r);
    DistinctCons(Entry(r[0].key, l), r[1..]);
  }

  /** Registering another key keeps the first entry in front of what
      registering does to the rest. */
  lemma KeepHead<L>(r: Registry<L>, k: string, l: L, rest: Registry<L>)
    requires |r| > 0 && r[0].key != k
    requires Keys(rest) == Keys(r[1..]) + {k}
    requires KeysDistinct(r[1..]) ==> KeysDistinct(rest)
    requires k in Keys(r[1..]) ==> |rest| == |r[1..]|
    requires k !in Keys(r[1..]) ==> rest == r[1..] + [Entry(k, l)]
    requires KeysDistinct(r[1..]) ==>
               forall i :: 0 <= i < |r[1..]| ==> rest[i] == (if r[1..][i].key == k then Entry(k, l) else r[1..][i])
    ensures var r' := [r[0]] + rest;
      && Keys(r') == Keys(r) + {k}
      && (KeysDistinct(r) ==> KeysDistinct(r'))
      && (k in Keys(r) ==> |r'| == |r|)
      && (k !in Keys(r) ==> r' == r + [Entry(k, l)])
      && (KeysDistinct(r) ==> forall i :: 0 <= i < |r| ==> r'[i] == (if r[i].key == k then Entry(k, l) else r[i]))
  {
    KeysTail(r);
    KeysCons(r[0], rest);
    DistinctTail(r);
    DistinctCons(r[0], rest);
    if k !in Keys(r) {
      assert r == [r[0]] + r[1..];
    }
    if KeysDistinct(r) {
      var r' := [r[0]] + rest;
      forall i | 0 <= i < |r| ensures r'[i] == (if r[i].key == k then Entry(k, l) else r[i]) {
        if i > 0 {
          assert r'[i] == rest[i - 1] && r[1..][i - 1] == r[i];
        }
      }
    }
  }

  /** `delete registry[k]`. */
  function Unregister<L>(r: Registry<L>, k: string): (r': Registry<L>)
    ensures Keys(r') == Keys(r) - {k}
    ensures KeysDistinct(r) ==> KeysDistinct(r')
    ensures |r'| <= |r|
    ensures k !in Keys(r) ==> r' == r
  {
    if |r| == 0 then r
    else
      var rest := Unregister(r[1..], k);
      KeysTail(r);
      if r[0].key == k then rest
      else
        var r' := [r[0]] + rest;
        KeysCons(r[0], rest);
        DistinctTail(r);
        DistinctCons(r[0], rest);
        assert [r[0]] + r[1..] == r;
        r'
  }

  lemma KeysTail<L>(r: Registry<L>)
    requires |r| > 0
    ensures Keys(r) == {r[0].key} + Keys(r[1..])
  {
    assert [r[0]] + r[1..] == r;
    KeysCons(r[0], r[1..]);
  }

  /** The rest of a registry with distinct keys has distinct keys and does
      not hold the first key. */
  lemma DistinctTail<L>(r: Registry<L>)
    requires |r| > 0
    ensures KeysDistinct(r) ==> KeysDistinct(r[1..]) && r[0].key !in Keys(r[1..])
  {
    if KeysDistinct(r) {
      forall x | x in Keys(r[1..]) ensures x != r[0].key {
        var i :| 0 <= i < |r[1..]| && r[1..][i].key == x;
        assert r[1..][i] == r[i + 1];
      }
    }
  }

  lemma DistinctCons<L>(e: Entry<L>, rest: Registry<L>)
    ensures KeysDistinct(rest) && e.key !in Keys(rest) ==> KeysDistinct([e] + rest)
  {
    if KeysDistinct(rest) && e.key !in Keys(rest) {
      var r := [e] + rest;
      forall i, j | 0 <= i < j < |r| ensures r[i].key != r[j].key {
        assert r[j] == rest[j - 1];
        if i > 0 {
          assert r[i] == rest[i - 1];
        } else {
          assert rest[j - 1].key in Keys(rest);
        }
      }
    }
  }

  lemma KeysCons<L>(e: Entry<L>, rest: Registry<L>)
    ensures Keys([e] + rest) == {e.key} + Keys(rest)
  {
    var r := [e] + rest;
    forall x | x in Keys(r) ensures x in {e.key} + Keys(rest) {
      var i :| 0 <= i < |r| && r[i].key == x;
      if i > 0 {
        assert r[i] == rest[i - 1];
      }
    }
    forall x | x in Keys(rest) ensures x in Keys(r) {
      var i :| 0 <= i < |rest| && rest[i].key == x;
      assert r[i + 1] == rest[i];
    }
    assert r[0].key == e.key;
  }

  /** `Object.values(registry)`: the callbacks in insertion order, a snapshot. */
  function Values<L>(r: Registry<L>): (ls: seq<L>)
    ensures |ls| == |r|
    ensures forall i :: 0 <= i < |r| ==> ls[i] == r[i].listener
  {
    seq(|r|, i requires 0 <= i < |r| => r[i].listener)
  }

  /** After registering, the key holds the new callback and every other key
      holds what it held before. */
  lemma {:induction false} RegisterLookup<L>(r: Registry<L>, k: string, l: L, k': string)
    requires KeysDistinct(r)
    ensures Lookup(Register(r, k, l), k) == Some(l)
    ensures k' != k ==> Lookup(Register(r, k, l), k') == Lookup(r, k')
  {
    if |r| > 0 && r[0].key != k {
      RegisterLookup(r[1..], k, l, k');
    }
  }

  /** Assigning a key makes it hold the new callback, whatever the table held
      before. */
  lemma {:induction false} RegisterFinds<L>(r: Registry<L>, k: string, l: L)
    ensures Lookup(Register(r, k, l), k) == Some(l)
  {
    if |r| > 0 && r[0].key != k {
      RegisterFinds(r[1..], k, l);
    }
  }

  /** Deleting a key twice is deleting it once. */
  lemma {:induction false} UnregisterTwice<L>(r: Registry<L>, k: string)
    ensures Unregister(Unregister(r, k), k) == Unregister(r, k)
  {
    if |r| > 0 {
      UnregisterTwice(r[1..], k);
      if r[0].key != k {
        assert ([r[0]] + Unregister(r[1..], k))[1..] == Unregister(r[1..], k);
      }
    }
  }

  /** After unregistering, the key is gone and every other key is untouched. */
  lemma {:induction false} UnregisterLookup<L>(r: Registry<L>, k: string, k': string)
    ensures Lookup(Unregister(r, k), k) == None
    ensures k' != k ==> Lookup(Unregister(r, k), k') == Lookup(r, k')
  {
    if |r| > 0 {
      UnregisterLookup(r[1..], k, k');
    }
  }

  /** Registering twice under one key is registering the second callback once:
      the earlier callback is replaced, not kept beside it. */
  lemma {:induction false} RegisterReplaces<L>(r: Registry<L>, k: string, a: L, b: L)
    ensures Register(Register(r, k, a), k, b) == Register(r, k, b)
  {
    if |r| > 0 && r[0].key != k {
      RegisterReplaces(r[1..], k, a, b);
    }
  }

  /** Registering a fresh key and deleting it again restores the registry. */
  lemma RegisterUnregister<L>(r: Registry<L>, k: string, l: L)
    requires k !in Keys(r)
    ensures Unregister(Register(r, k, l), k) == r
  {
    UnregisterFresh(r, k);
    assert Register(r, k, l) == r + [Entry(k, l)];
    UnregisterAppend(r, k, l);
  }

  lemma {:induction false} UnregisterFresh<L>(r: Registry<L>, k: string)
    requires k !in Keys(r)
    ensures Unregister(r, k) == r
  {
    if |r| > 0 {
      assert r[0].key in Keys(r);
      assert Keys(r[1..]) <= Keys(r) by {
        assert forall i :: 1 <= i < |r| ==> r[i] == r[1..][i - 1];
      }
      UnregisterFresh(r[1..], k);
      assert [r[0]] + r[1..] == r;
    }
  }

  lemma {:induction false} UnregisterAppend<L>(r: Registry<L>, k: string, l: L)
    ensures Unregister(r + [Entry(k, l)], k) == Unregister(r, k)
  {
    if |r| > 0 {
      assert (r + [Entry(k, l)])[1..] == r[1..] + [Entry(k, l)];
      UnregisterAppend(r[1..], k, l);
    }
  }
}
