/** The connection that rate limiter and quota service share. */
module RedisConnection {
  import opened Wrappers
  import opened Redis

  /** A connection to Redis. `now` is Redis' own clock in nanoseconds; an unreachable server fails
      every pipeline that holds a command. */
  class RedisClient {
    var store: Store<string>
    var now: int
    var reachable: bool

    method Exec(cmds: seq<Cmd<string>>) returns (ok: bool)
      modifies this`store
      ensures ok == (reachable || cmds == [])
      ensures store == if ok then ApplyAll(old(store), cmds) else old(store)
    {
      ok := reachable || cmds == [];
      if ok {
        ghost var before := store;
        for i := 0 to |cmds|
          invariant store == ApplyAll(before, cmds[..i])
        {
          assert cmds[..i + 1] == cmds[..i] + [cmds[i]];
          ApplyAllSnoc(before, cmds[..i], cmds[i]);
          store := Apply(store, cmds[i]);
        }
        assert cmds[..|cmds|] == cmds;
      }
    }
  }
}
