/** Response bodies: chunks of many requests interleave; non-streaming chunks are buffered per
    request until the end of the stream, streaming chunks are scanned for usage one by one; usage
    is charged when it is found. */
module Response {
  import opened Wrappers
  import opened TokenUsage

  type Bytes = seq<bv8>

  /** A streamed event, decoded: how many choices it has, and its usage. */
  datatype Event = Event(choices: nat, usage: Usage)

  /** A decoded body chunk of a stream; `ok` is false when decoding ended with an error. */
  datatype Sse = Sse(events: seq<Event>, ok: bool)

  datatype Doc = Doc(model: string, usage: Usage)

  /** The decoders, which live in libraries: server-sent events and JSON. */
  datatype Codec = Codec(sse: Bytes -> Sse, json: Bytes -> Option<Doc>)

  // ---------------------------------------------------------------------------------------
  // One chunk

  /** Usage of the last event without choices. */
  function LastUsage(events: seq<Event>): Usage {
    if events == [] then NO_USAGE
    else
      var n := |events| - 1;
      if events[n].choices == 0 then events[n].usage else LastUsage(events[..n])
  }

  method ScanUsage(events: seq<Event>) returns (usage: Usage)
    ensures usage == LastUsage(events)
  {
    usage := NO_USAGE;
    for i := 0 to |events|
      invariant usage == LastUsage(events[..i])
    {
      assert events[..i + 1][..i] == events[..i];
      if events[i].choices == 0 {
        usage := events[i].usage;
      }
    }
    assert events[..|events|] == events;
  }

  /** What a message does: the charge it makes, and whether it completes the response. */
  datatype Effect = Effect(charge: Option<Usage>, completes: bool)

  function UsageEffect(u: Usage): Effect {
    if u.total != 0 then Effect(Some(u), true) else Effect(None, false)
  }

  function StreamEffect(codec: Codec, body: Bytes): Effect {
    var r := codec.sse(body);
    if !r.ok then Effect(None, true) else UsageEffect(LastUsage(r.events))
  }

  /** The effect of a whole non-streaming body. */
  function WholeEffect(codec: Codec, body: Bytes): Effect {
    match codec.json(body)
    case None => Effect(None, true)
    case Some(doc) => if doc.model == "" then Effect(None, true) else UsageEffect(doc.usage)
  }

  datatype Message = Message(id: int, body: Bytes, eos: bool)

  function Buffered(buffers: map<int, Bytes>, id: int): Bytes {
    if id in buffers then buffers[id] else []
  }

  function EffectOf(codec: Codec, stream: bool, buffered: Bytes, m: Message): Effect {
    if stream then StreamEffect(codec, m.body)
    else if m.eos then WholeEffect(codec, buffered + m.body)
    else Effect(None, false)
  }

  /** The server and, per request, whether its response has completed. */
  datatype State = State(buffers: map<int, Bytes>, times: set<int>, completed: set<int>)

  function Step(codec: Codec, streams: set<int>, s: State, m: Message): State {
    var e := EffectOf(codec, m.id in streams, Buffered(s.buffers, m.id), m);
    State(
      if m.id in streams then s.buffers
      else if m.eos then s.buffers - {m.id}
      else s.buffers[m.id := Buffered(s.buffers, m.id) + m.body],
      if m.id !in s.completed && e.completes && m.eos then s.times - {m.id} else s.times + {m.id},
      if e.completes then s.completed + {m.id} else s.completed)
  }

  /** The server's maps: unfinished bodies, and requests with a processing-time entry. */
  class ResponseHandler {
    var buffers: map<int, Bytes>
    var times: set<int>

    method HandleResponseBody(codec: Codec, m: Message, stream: bool, hasCompleted: bool)
        returns (charge: Option<Usage>, complete: bool)
      modifies this
      ensures charge == EffectOf(codec, stream, old(Buffered(buffers, m.id)), m).charge && (hasCompleted ==> complete)
      ensures forall streams, completed :: (m.id in streams <==> stream) && (m.id in completed <==> hasCompleted) ==>
                Step(codec, streams, State(old(buffers), old(times), completed), m)
                == State(buffers, times, if complete then completed + {m.id} else completed)
    {
      times := times + {m.id};
      complete, charge := hasCompleted, None;
      var usage := NO_USAGE;
      var failed := false;
      if stream {
        var r := codec.sse(m.body);
        usage := ScanUsage(r.events);
        if !r.ok {
          complete, failed := true, true;
        }
      } else {
        var buffer := Buffered(buffers, m.id) + m.body;
        buffers := buffers[m.id := buffer];
        if !m.eos {
          return;
        }
        buffers := buffers - {m.id};
        match codec.json(buffer) {
          case None =>
            complete, failed := true, true;
          case Some(doc) =>
            if doc.model == "" {
              complete, failed := true, true;
            } else {
              usage := doc.usage;
            }
        }
      }
      if !failed && usage.total != 0 {
        complete := true;
        charge := Some(usage);
      }
      if !hasCompleted && complete && m.eos {
        times := times - {m.id};
      }
    }
  }

  // ---------------------------------------------------------------------------------------
  // Many requests, and one request alone

  function Run(codec: Codec, streams: set<int>, s: State, msgs: seq<Message>): State {
    if msgs == [] then s
    else Step(codec, streams, Run(codec, streams, s, msgs[..|msgs| - 1]), msgs[|msgs| - 1])
  }

  /** The charges made to request `id`, in order. */
  function Charges(codec: Codec, streams: set<int>, s: State, msgs: seq<Message>, id: int): seq<Usage> {
    if msgs == [] then []
    else
      var n := |msgs| - 1;
      var m := msgs[n];
      var before := Run(codec, streams, s, msgs[..n]);
      var e := EffectOf(codec, m.id in streams, Buffered(before.buffers, m.id), m);
      Charges(codec, streams, s, msgs[..n], id)
      + if m.id == id && e.charge.Some? then [e.charge.value] else []
  }

  /** The messages of one request. */
  function Mine(msgs: seq<Message>, id: int): seq<Message> {
    if msgs == [] then []
    else
      var n := |msgs| - 1;
      Mine(msgs[..n], id) + if msgs[n].id == id then [msgs[n]] else []
  }

  /** Requests do not disturb each other: what a run holds for and charges to `id` is what the
      messages of `id` alone would give. */
  lemma {:induction false} Isolation(codec: Codec, streams: set<int>, s: State, msgs: seq<Message>, id: int)
    ensures var whole, alone := Run(codec, streams, s, msgs), Run(codec, streams, s, Mine(msgs, id));
            && (id in whole.buffers <==> id in alone.buffers)
            && Buffered(whole.buffers, id) == Buffered(alone.buffers, id)
            && (id in whole.times <==> id in alone.times)
            && (id in whole.completed <==> id in alone.completed)
            && Charges(codec, streams, s, msgs, id) == Charges(codec, streams, s, Mine(msgs, id), id)
  {
    if msgs != [] {
      var n := |msgs| - 1;
      var init := Mine(msgs[..n], id);
      Isolation(codec, streams, s, msgs[..n], id);
      if msgs[n].id == id {
        assert (init + [msgs[n]])[..|init|] == init;
      } else {
        assert Mine(msgs, id) == init;
        assert Charges(codec, streams, s, msgs, id) == Charges(codec, streams, s, msgs[..n], id);
      }
    }
  }

  function Bodies(mine: seq<Message>): Bytes {
    if mine == [] then [] else Bodies(mine[..|mine| - 1]) + mine[|mine| - 1].body
  }

  /** All messages are of request `id`, and only the last one, if any, ends the stream. */
  predicate OneResponse(mine: seq<Message>, id: int) {
    && (forall i :: 0 <= i < |mine| ==> mine[i].id == id)
    && (forall i :: 0 <= i < |mine| - 1 ==> !mine[i].eos)
  }

  lemma {:induction false} StillBuffering(codec: Codec, streams: set<int>, s: State, mine: seq<Message>, id: int)
    requires id !in streams && id !in s.buffers && OneResponse(mine, id) && (mine != [] ==> !mine[|mine| - 1].eos)
    ensures Buffered(Run(codec, streams, s, mine).buffers, id) == Bodies(mine)
    ensures Charges(codec, streams, s, mine, id) == []
    ensures id in Run(codec, streams, s, mine).completed <==> id in s.completed
  {
    if mine != [] {
      StillBuffering(codec, streams, s, mine[..|mine| - 1], id);
    }
  }

  /** However the chunks of a non-streaming response are cut and interleaved with other requests, it
      is charged the usage that its whole body reports, once, if that body decodes, names a model and
      reports any; otherwise it is charged nothing. No buffer is left. */
  lemma ResponseAssembled(codec: Codec, streams: set<int>, s: State, msgs: seq<Message>, id: int)
    requires id !in streams && id !in s.buffers
    requires var mine := Mine(msgs, id); mine != [] && OneResponse(mine, id) && mine[|mine| - 1].eos
    ensures id !in Run(codec, streams, s, msgs).buffers
    ensures var doc := codec.json(Bodies(Mine(msgs, id)));
            Charges(codec, streams, s, msgs, id)
            == if doc.Some? && doc.value.model != "" && doc.value.usage.total != 0 then [doc.value.usage] else []
  {
    var mine := Mine(msgs, id);
    var n := |mine| - 1;
    Isolation(codec, streams, s, msgs, id);
    StillBuffering(codec, streams, s, mine[..n], id);
    assert mine[n].id == id;
  }

  // ---------------------------------------------------------------------------------------
  // Streams: every grouping of events into chunks

  function Flatten(chunks: seq<seq<Event>>): seq<Event> {
    if chunks == [] then [] else Flatten(chunks[..|chunks| - 1]) + chunks[|chunks| - 1]
  }

  /** The charges of a stream that arrives in these chunks of whole events. */
  function StreamCharges(chunks: seq<seq<Event>>): seq<Usage> {
    if chunks == [] then []
    else
      var u := LastUsage(chunks[|chunks| - 1]);
      StreamCharges(chunks[..|chunks| - 1]) + if u.total != 0 then [u] else []
  }

  /** The usages of the events without choices. */
  function Reports(events: seq<Event>): seq<Usage> {
    if events == [] then []
    else
      var n := |events| - 1;
      Reports(events[..n]) + if events[n].choices == 0 then [events[n].usage] else []
  }

  predicate AllZero(r: seq<Usage>) {
    forall i :: 0 <= i < |r| ==> r[i].total == 0
  }

  /** The last event without choices carries `u`, and no event without choices before it carries
      any usage. */
  predicate LastReportOnly(events: seq<Event>, u: Usage) {
    var r := Reports(events);
    r != [] && r[|r| - 1] == u && u.total != 0 && AllZero(r[..|r| - 1])
  }

  lemma {:induction false} ReportsConcat(a: seq<Event>, b: seq<Event>)
    ensures Reports(a + b) == Reports(a) + Reports(b)
  {
    if b == [] {
      assert a + b == a;
    } else {
      var n := |b| - 1;
      assert (a + b)[..|a| + n] == a + b[..n];
      ReportsConcat(a, b[..n]);
    }
  }

  lemma {:induction false} LastUsageIsReport(events: seq<Event>)
    ensures var r := Reports(events); LastUsage(events) == if r == [] then NO_USAGE else r[|r| - 1]
  {
    if events != [] { LastUsageIsReport(events[..|events| - 1]); }
  }

  /** The reports of the last chunk come last. */
  lemma ReportsOfLast(chunks: seq<seq<Event>>)
    requires chunks != []
    ensures var n := |chunks| - 1;
            Reports(Flatten(chunks)) == Reports(Flatten(chunks[..n])) + Reports(chunks[n])
  {
    ReportsConcat(Flatten(chunks[..|chunks| - 1]), chunks[|chunks| - 1]);
  }

  lemma {:induction false} SilentStream(chunks: seq<seq<Event>>)
    requires AllZero(Reports(Flatten(chunks)))
    ensures StreamCharges(chunks) == []
  {
    if chunks != [] {
      var n := |chunks| - 1;
      var a, b := Reports(Flatten(chunks[..n])), Reports(chunks[n]);
      ReportsOfLast(chunks);
      forall i | 0 <= i < |a| ensures a[i].total == 0 { assert (a + b)[i] == a[i]; }
      forall i | 0 <= i < |b| ensures b[i].total == 0 { assert (a + b)[|a| + i] == b[i]; }
      LastUsageIsReport(chunks[n]);
      SilentStream(chunks[..n]);
    }
  }

  lemma {:induction false} ChargedOnceIfLast(chunks: seq<seq<Event>>, u: Usage)
    requires LastReportOnly(Flatten(chunks), u)
    ensures StreamCharges(chunks) == [u]
  {
    if chunks != [] {
      var n := |chunks| - 1;
      var a, b := Reports(Flatten(chunks[..n])), Reports(chunks[n]);
      ReportsOfLast(chunks);
      LastUsageIsReport(chunks[n]);
      if b == [] {
        assert a + b == a;
        ChargedOnceIfLast(chunks[..n], u);
      } else {
        var r := a + b;
        assert r[|r| - 1] == b[|b| - 1];
        forall i | 0 <= i < |a| ensures a[i].total == 0 { assert r[..|r| - 1][i] == a[i]; }
        SilentStream(chunks[..n]);
      }
    }
  }

  /** Every event in a chunk of its own. */
  function Singles(events: seq<Event>): seq<seq<Event>> {
    if events == [] then [] else Singles(events[..|events| - 1]) + [[events[|events| - 1]]]
  }

  /** The usages that are not zero. */
  function NonZero(r: seq<Usage>): seq<Usage> {
    if r == [] then []
    else NonZero(r[..|r| - 1]) + if r[|r| - 1].total != 0 then [r[|r| - 1]] else []
  }

  lemma {:induction false} SinglesCharges(events: seq<Event>)
    ensures Flatten(Singles(events)) == events
    ensures StreamCharges(Singles(events)) == NonZero(Reports(events))
  {
    if events != [] {
      var n := |events| - 1;
      SinglesCharges(events[..n]);
      var init, all := Singles(events[..n]), Singles(events);
      assert all[..|all| - 1] == init && all[|all| - 1] == [events[n]];
      assert events[..n] + [events[n]] == events;
      assert LastUsage([events[n]]) == if events[n].choices == 0 then events[n].usage else NO_USAGE by {
        assert [events[n]][..0] == [];
      }
      var r := Reports(events[..n]);
      if events[n].choices == 0 {
        assert (r + [events[n].usage])[..|r|] == r;
      } else {
        assert Reports(events) == r;
      }
    }
  }

  lemma {:induction false} NonZeroEmpty(r: seq<Usage>)
    requires NonZero(r) == []
    ensures AllZero(r)
  {
    if r != [] { NonZeroEmpty(r[..|r| - 1]); }
  }

  /** Under every grouping of the events into chunks the stream is charged `u` and nothing else. */
  ghost predicate AlwaysCharged(events: seq<Event>, u: Usage) {
    forall chunks :: Flatten(chunks) == events ==> StreamCharges(chunks) == [u]
  }

  lemma OneChunk(events: seq<Event>)
    ensures Flatten([events]) == events
    ensures StreamCharges([events]) == if LastUsage(events).total != 0 then [LastUsage(events)] else []
  {
    var one := [events];
    assert one[..0] == [];
    assert Flatten([]) == [] && StreamCharges([]) == [];
  }

  lemma AlwaysChargedMeansLast(events: seq<Event>, u: Usage)
    requires AlwaysCharged(events, u)
    ensures LastReportOnly(events, u)
  {
    var r := Reports(events);
    OneChunk(events);
    assert StreamCharges([events]) == [u];
    assert [u][0] == u && LastUsage(events) == u && u.total != 0;
    LastUsageIsReport(events);
    SinglesCharges(events);
    assert NonZero(r) == [u];
    assert NonZero(r) == NonZero(r[..|r| - 1]) + [u];
    NonZeroEmpty(r[..|r| - 1]);
  }

  /** A stream is charged exactly `u`, once, under every grouping of its events into chunks, if and
      only if its last event without choices carries `u` and the ones before it carry nothing. */
  lemma ChargedExactlyOnceIff(events: seq<Event>, u: Usage)
    ensures AlwaysCharged(events, u) <==> LastReportOnly(events, u)
  {
    if AlwaysCharged(events, u) {
      AlwaysChargedMeansLast(events, u);
    }
    if LastReportOnly(events, u) {
      forall chunks | Flatten(chunks) == events ensures StreamCharges(chunks) == [u] {
        ChargedOnceIfLast(chunks, u);
      }
    }
  }

  /** The events that a message reports: all it holds, or none if it cannot be decoded. */
  function Decoded(codec: Codec, m: Message): seq<Event> {
    if codec.sse(m.body).ok then codec.sse(m.body).events else []
  }

  function Chunks(codec: Codec, mine: seq<Message>): seq<seq<Event>> {
    if mine == [] then [] else Chunks(codec, mine[..|mine| - 1]) + [Decoded(codec, mine[|mine| - 1])]
  }

  lemma {:induction false} RunChargesChunks(codec: Codec, streams: set<int>, s: State, mine: seq<Message>, id: int)
    requires id in streams && forall i :: 0 <= i < |mine| ==> mine[i].id == id
    ensures Charges(codec, streams, s, mine, id) == StreamCharges(Chunks(codec, mine))
  {
    if mine != [] {
      var n := |mine| - 1;
      RunChargesChunks(codec, streams, s, mine[..n], id);
      var init, all := Chunks(codec, mine[..n]), Chunks(codec, mine);
      assert all[..|all| - 1] == init;
    }
  }

  /** In a run with any other requests, a stream is charged the last report of each of its messages
      that can be decoded, and nothing else. */
  lemma StreamCharged(codec: Codec, streams: set<int>, s: State, msgs: seq<Message>, id: int)
    requires id in streams
    ensures Charges(codec, streams, s, msgs, id) == StreamCharges(Chunks(codec, Mine(msgs, id)))
  {
    MineIsMine(msgs, id);
    Isolation(codec, streams, s, msgs, id);
    RunChargesChunks(codec, streams, s, Mine(msgs, id), id);
  }

  /** So a stream whose last report is its only one is charged exactly once, however its events are
      grouped into messages. */
  lemma StreamChargedOnce(codec: Codec, streams: set<int>, s: State, msgs: seq<Message>, id: int, u: Usage)
    requires id in streams && LastReportOnly(Flatten(Chunks(codec, Mine(msgs, id))), u)
    ensures Charges(codec, streams, s, msgs, id) == [u]
  {
    StreamCharged(codec, streams, s, msgs, id);
    ChargedOnceIfLast(Chunks(codec, Mine(msgs, id)), u);
  }

  lemma {:induction false} MineIsMine(msgs: seq<Message>, id: int)
    ensures forall i :: 0 <= i < |Mine(msgs, id)| ==> Mine(msgs, id)[i].id == id
  {
    if msgs != [] { MineIsMine(msgs[..|msgs| - 1], id); }
  }

  /** Two reports in one chunk lose the first, the same two in two chunks charge twice. */
  lemma GroupingMatters(u: Usage, v: Usage)
    requires u.total != 0 && v.total != 0
    ensures var a, b := Event(0, u), Event(0, v);
            && Flatten([[a, b]]) == Flatten([[a], [b]]) == [a, b]
            && StreamCharges([[a, b]]) == [v] && StreamCharges([[a], [b]]) == [u, v]
  {
    var a, b := Event(0, u), Event(0, v);
    var together, apart := [[a, b]], [[a], [b]];
    assert together[..0] == [] && apart[..1] == [[a]] && [[a]][..0] == [];
    assert Flatten([[a]]) == [a] && StreamCharges([[a]]) == [u];
  }

  // ---------------------------------------------------------------------------------------
  // Processing-time entries

  /** The whole body says that the response is over: it cannot be decoded, it names no model, or it
      reports usage. */
  predicate BodyCompletes(codec: Codec, body: Bytes) {
    var doc := codec.json(body);
    doc.None? || doc.value.model == "" || doc.value.usage.total != 0
  }

  /** Message `i` completes the response: a chunk of a stream that cannot be decoded or whose last
      event without choices reports usage, or the end of a body that says so. */
  predicate CompletesAt(codec: Codec, stream: bool, mine: seq<Message>, i: nat)
    requires i < |mine|
  {
    if stream then
      var r := codec.sse(mine[i].body);
      !r.ok || LastUsage(r.events).total != 0
    else mine[i].eos && BodyCompletes(codec, Bodies(mine[..i]) + mine[i].body)
  }

  ghost predicate AnyCompletes(codec: Codec, stream: bool, mine: seq<Message>, n: nat)
    requires n <= |mine|
  {
    exists i :: 0 <= i < n && CompletesAt(codec, stream, mine, i)
  }

  lemma AnyCompletesPrefix(codec: Codec, stream: bool, mine: seq<Message>, n: nat)
    requires n <= |mine|
    ensures AnyCompletes(codec, stream, mine[..n], n) <==> AnyCompletes(codec, stream, mine, n)
  {
    forall i | 0 <= i < n ensures CompletesAt(codec, stream, mine[..n], i) == CompletesAt(codec, stream, mine, i) {
      assert mine[..n][..i] == mine[..i];
    }
  }

  lemma {:induction false} CompletedSoFar(codec: Codec, streams: set<int>, s: State, mine: seq<Message>, id: int)
    requires id !in s.buffers && id !in s.completed && OneResponse(mine, id) && (mine != [] ==> !mine[|mine| - 1].eos)
    ensures id in Run(codec, streams, s, mine).completed <==> AnyCompletes(codec, id in streams, mine, |mine|)
  {
    if mine != [] {
      var n := |mine| - 1;
      CompletedSoFar(codec, streams, s, mine[..n], id);
      AnyCompletesPrefix(codec, id in streams, mine, n);
      LastCompletes(codec, streams, s, mine, id);
      assert Run(codec, streams, s, mine) == Step(codec, streams, Run(codec, streams, s, mine[..n]), mine[n]);
      assert AnyCompletes(codec, id in streams, mine, n + 1)
             <==> AnyCompletes(codec, id in streams, mine, n) || CompletesAt(codec, id in streams, mine, n);
    }
  }

  /** The last message completes the response if it already was, or completes it by itself. */
  lemma LastCompletes(codec: Codec, streams: set<int>, s: State, mine: seq<Message>, id: int)
    requires id !in s.buffers && OneResponse(mine, id) && mine != []
    ensures var before := Run(codec, streams, s, mine[..|mine| - 1]);
            EffectOf(codec, id in streams, Buffered(before.buffers, id), mine[|mine| - 1]).completes
            == CompletesAt(codec, id in streams, mine, |mine| - 1)
    ensures mine[|mine| - 1].id == id
  {
    if id !in streams { StillBuffering(codec, streams, s, mine[..|mine| - 1], id); }
  }

  lemma OwnEntryRemovedIff(codec: Codec, streams: set<int>, s: State, mine: seq<Message>, id: int)
    requires id !in s.buffers && id !in s.completed
    requires mine != [] && OneResponse(mine, id) && mine[|mine| - 1].eos
    ensures id !in Run(codec, streams, s, mine).times <==>
              && CompletesAt(codec, id in streams, mine, |mine| - 1)
              && !AnyCompletes(codec, id in streams, mine, |mine| - 1)
  {
    var n := |mine| - 1;
    CompletedSoFar(codec, streams, s, mine[..n], id);
    AnyCompletesPrefix(codec, id in streams, mine, n);
    LastCompletes(codec, streams, s, mine, id);
    assert Run(codec, streams, s, mine) == Step(codec, streams, Run(codec, streams, s, mine[..n]), mine[n]);
  }

  /** A processing-time entry is removed exactly when the response completes for the first time
      with its last message; a stream whose usage arrives before its last chunk keeps its entry
      for ever. */
  lemma EntryRemovedIff(codec: Codec, streams: set<int>, s: State, msgs: seq<Message>, id: int)
    requires id !in s.buffers && id !in s.completed
    requires var mine := Mine(msgs, id); mine != [] && OneResponse(mine, id) && mine[|mine| - 1].eos
    ensures var mine := Mine(msgs, id);
            id !in Run(codec, streams, s, msgs).times <==>
              && CompletesAt(codec, id in streams, mine, |mine| - 1)
              && !AnyCompletes(codec, id in streams, mine, |mine| - 1)
  {
    Isolation(codec, streams, s, msgs, id);
    OwnEntryRemovedIff(codec, streams, s, Mine(msgs, id), id);
  }

  /** A stream that reports its usage before its last chunk keeps its entry: one such stream, for any
      usage. */
  lemma EarlyUsageKeepsEntry(id: int, u: Usage, s: State) returns (codec: Codec, msgs: seq<Message>)
    requires u.total != 0 && id !in s.buffers && id !in s.completed
    ensures OneResponse(msgs, id) && msgs != [] && msgs[|msgs| - 1].eos
    ensures Charges(codec, {id}, s, msgs, id) == [u] && id in Run(codec, {id}, s, msgs).times
  {
    codec := Codec(b => Sse(if b == [] then [] else [Event(0, u)], true), _ => None);
    var first, last := Message(id, [0], false), Message(id, [], true);
    msgs := [first, last];
    assert msgs[..1] == [first] && [first][..0] == [];
    assert [Event(0, u)][..0] == [];
    assert LastUsage([Event(0, u)]) == u && LastUsage([]) == NO_USAGE;
    assert Run(codec, {id}, s, []) == s && Charges(codec, {id}, s, [], id) == [];
    var s1 := Run(codec, {id}, s, [first]);
    assert s1 == Step(codec, {id}, s, first) && id in s1.completed;
    assert Charges(codec, {id}, s, [first], id) == [u];
    assert Run(codec, {id}, s, msgs) == Step(codec, {id}, s1, last);
  }
}
