/** The part of Redis that the gateway uses: integer values with an optional expiry,
    and the commands GET, TTL, INCRBY, EXPIRE and SET. A command is atomic; a pipeline is
    a sequence of commands. Keys are generic: the gateway uses strings, the interleaving
    proofs use the (counter, window) pairs that those strings encode. */
module Redis {
  import opened Wrappers

  /** `expireAt` is a clock value in ticks; `None` is a key without expiry. */
  datatype Entry = Entry(value: int, expireAt: Option<int>)

  type Store<!K> = map<K, Entry>

  datatype Cmd<K> =
    | IncrBy(key: K, delta: int)
    | Expire(key: K, at: int)
    | Set(key: K, value: int)

  /** GET, with a missing key read as 0. */
  function Get<K>(s: Store<K>, k: K): int {
    if k in s then s[k].value else 0
  }

  /** TTL at clock value `now`: -2 for a missing key, -1 for a key without expiry. */
  function Ttl<K>(s: Store<K>, k: K, now: int): int {
    if k !in s then -2
    else match s[k].expireAt
      case None => -1
      case Some(at) => if at >= now then at - now else 0
  }

  /** INCRBY keeps the expiry of an existing key, EXPIRE does nothing to a missing key,
      SET drops any expiry. */
  function Apply<K>(s: Store<K>, cmd: Cmd<K>): Store<K> {
    match cmd
    case IncrBy(k, d) =>
      s[k := Entry(Get(s, k) + d, if k in s then s[k].expireAt else None)]
    case Expire(k, at) =>
      if k in s then s[k := s[k].(expireAt := Some(at))] else s
    case Set(k, v) => s[k := Entry(v, None)]
  }

  function ApplyAll<K>(s: Store<K>, cmds: seq<Cmd<K>>): Store<K>
    decreases |cmds|
  {
    if cmds == [] then s else ApplyAll(Apply(s, cmds[0]), cmds[1..])
  }

  lemma {:induction false} ApplyAllSnoc<K>(s: Store<K>, cmds: seq<Cmd<K>>, cmd: Cmd<K>)
    decreases |cmds|
    ensures ApplyAll(s, cmds + [cmd]) == Apply(ApplyAll(s, cmds), cmd)
  {
    if cmds == [] {
      assert cmds + [cmd] == [cmd];
      assert ApplyAll(Apply(s, cmd), []) == Apply(s, cmd);
    } else {
      assert (cmds + [cmd])[1..] == cmds[1..] + [cmd];
      ApplyAllSnoc(Apply(s, cmds[0]), cmds[1..], cmd);
    }
  }

  lemma {:induction false} ApplyAllConcat<K>(s: Store<K>, a: seq<Cmd<K>>, b: seq<Cmd<K>>)
    decreases |a|
    ensures ApplyAll(s, a + b) == ApplyAll(ApplyAll(s, a), b)
  {
    if a == [] {
      assert a + b == b;
    } else {
      assert (a + b)[1..] == a[1..] + b;
      ApplyAllConcat(Apply(s, a[0]), a[1..], b);
    }
  }

  /** What a sequence of commands without SET adds to key `k`. */
  function Added<K(==)>(cmds: seq<Cmd<K>>, k: K): int {
    if cmds == [] then 0
    else (if cmds[0].IncrBy? && cmds[0].key == k then cmds[0].delta else 0) + Added(cmds[1..], k)
  }

  /** INCRBY commands commute: the final value of a key is its old value plus the sum of its
      increments, whatever the order of the commands. */
  lemma {:induction false} ApplyAllAdds<K>(s: Store<K>, cmds: seq<Cmd<K>>, k: K)
    requires forall c :: c in cmds ==> !c.Set?
    decreases |cmds|
    ensures Get(ApplyAll(s, cmds), k) == Get(s, k) + Added(cmds, k)
  {
    if cmds != [] {
      assert cmds[0] in cmds;
      ApplyAllAdds(Apply(s, cmds[0]), cmds[1..], k);
    }
  }

  lemma {:induction false} AddedConcat<K>(a: seq<Cmd<K>>, b: seq<Cmd<K>>, k: K)
    ensures Added(a + b, k) == Added(a, k) + Added(b, k)
  {
    if a == [] {
      assert a + b == b;
    } else {
      assert (a + b)[1..] == a[1..] + b;
      AddedConcat(a[1..], b, k);
    }
  }

  lemma AddedOne<K>(c: Cmd<K>, k: K)
    ensures Added([c], k) == if c.IncrBy? && c.key == k then c.delta else 0
  {
    assert [c][1..] == [];
  }
}
