/** One external-processing stream: the loop that keeps the QoS found at the request body and uses
    it, without a nil check, when the response arrives. */
module Stream {
  import opened Wrappers
  import opened Gateway
  import opened TokenUsage

  /** How the request-body handler answered: `Admitted` when it forwards the request, otherwise an
      immediate error, with the QoS if it had been found before the error. */
  datatype Outcome = Admitted(q: UserQos) | Rejected(found: Option<UserQos>)

  /** Messages of the proxy, with what the handlers make of them. A request body holds the answer of
      its handler to each token it may be called with; a response body holds the charge it leads to,
      and whether its handler answers with an immediate error. */
  datatype Msg =
    | RequestHeaders(token: string)
    | RequestBody(answer: string -> Outcome)
    | ResponseHeaders(status: int)
    | ResponseBody(charge: Option<Usage>, failed: bool)
    | Other

  function Found(o: Outcome): Option<UserQos> { if o.Admitted? then Some(o.q) else o.found }

  datatype Local = Local(token: string, qos: Option<UserQos>, statusCode: int)

  /** A charge names the QoS it is made to. */
  datatype Charge = Charge(q: UserQos, usage: Usage)

  datatype Run = Panicked(charges: seq<Charge>) | Running(local: Local, charges: seq<Charge>)

  /** The QoS is dereferenced for a status 500 and for every response body. */
  predicate Dereferences(m: Msg) { (m.ResponseHeaders? && m.status == 500) || m.ResponseBody? }

  function Step(r: Run, m: Msg): Run
    requires r.Running?
  {
    if Dereferences(m) && r.local.qos.None? then Panicked(r.charges)
    else match m
      case RequestHeaders(token) => r.(local := r.local.(token := token))
      case RequestBody(answer) => r.(local := r.local.(qos := Found(answer(r.local.token))))
      case ResponseHeaders(status) => r.(local := r.local.(statusCode := status))
      case ResponseBody(charge, _) =>
        if r.local.statusCode == 200 && charge.Some?
        then r.(charges := r.charges + [Charge(r.local.qos.value, charge.value)])
        else r
      case Other => r
  }

  function RunFrom(r: Run, msgs: seq<Msg>): Run
    decreases |msgs|
  {
    if msgs == [] || r.Panicked? then r else RunFrom(Step(r, msgs[0]), msgs[1..])
  }

  const START := Running(Local("", None, 0), [])

  /** The receive loop. */
  method Process(msgs: seq<Msg>) returns (panicked: bool, charges: seq<Charge>)
    ensures var r := RunFrom(START, msgs); panicked == r.Panicked? && charges == r.charges
  {
    var token, qos, statusCode := "", None, 0;
    charges := [];
    panicked := false;
    var i := 0;
    while i < |msgs|
      invariant 0 <= i <= |msgs|
      invariant RunFrom(START, msgs) == RunFrom(Running(Local(token, qos, statusCode), charges), msgs[i..])
    {
      assert msgs[i..][0] == msgs[i] && msgs[i..][1..] == msgs[i + 1..];
      match msgs[i] {
        case RequestHeaders(t) =>
          token := t;
        case RequestBody(answer) =>
          match answer(token) {
            case Admitted(q) => qos := Some(q);
            case Rejected(found) => qos := found;
          }
        case ResponseHeaders(status) =>
          statusCode := status;
          if statusCode == 500 && qos.None? {
            panicked := true;
            return;
          }
        case ResponseBody(charge, _) =>
          if qos.None? {
            panicked := true;
            return;
          }
          if statusCode == 200 && charge.Some? {
            charges := charges + [Charge(qos.value, charge.value)];
          }
        case Other =>
      }
      i := i + 1;
    }
  }

  // ---------------------------------------------------------------------------------------
  // The order of messages

  datatype Stage = BeforeHeaders | BeforeBody(token: string) | BeforeResponse | InResponse(status: int)

  /** The proxy's order: headers, body, response headers, response bodies, and nothing after an
      immediate response. A request without a body skips that message. */
  predicate Ordered(stage: Stage, msgs: seq<Msg>)
    decreases |msgs|
  {
    msgs == [] ||
    var m, rest := msgs[0], msgs[1..];
    match stage
    case BeforeHeaders => m.RequestHeaders? && (if m.token == "" then rest == [] else Ordered(BeforeBody(m.token), rest))
    case BeforeBody(token) =>
      || (m.RequestBody? && (if m.answer(token).Rejected? then rest == [] else Ordered(BeforeResponse, rest)))
      || (m.ResponseHeaders? && (if m.status == 500 then rest == [] else Ordered(InResponse(m.status), rest)))
    case BeforeResponse =>
      m.ResponseHeaders? && (if m.status == 500 then rest == [] else Ordered(InResponse(m.status), rest))
    case InResponse(status) =>
      m.ResponseBody? && (if status != 200 || m.failed then rest == [] else Ordered(stage, rest))
  }

  ghost predicate HasBody(msgs: seq<Msg>) { exists i :: 0 <= i < |msgs| && msgs[i].RequestBody? }

  ghost predicate HasDereference(msgs: seq<Msg>) { exists i :: 0 <= i < |msgs| && Dereferences(msgs[i]) }

  /** What a response costs: a charge for every body with usage, in order. */
  function Bill(q: UserQos, bodies: seq<Msg>): seq<Charge> {
    if bodies == [] then []
    else
      var n := |bodies| - 1;
      Bill(q, bodies[..n])
      + if bodies[n].ResponseBody? && bodies[n].charge.Some? then [Charge(q, bodies[n].charge.value)] else []
  }

  lemma {:induction false} BillFront(q: UserQos, b: Msg, rest: seq<Msg>)
    ensures Bill(q, [b] + rest) == Bill(q, [b]) + Bill(q, rest)
  {
    if rest == [] {
      assert [b] + rest == [b];
    } else {
      var n := |rest| - 1;
      BillFront(q, b, rest[..n]);
      assert ([b] + rest)[..n + 1] == [b] + rest[..n];
    }
  }

  /** The bodies of a response, with a QoS: no panic, and they are billed if the status is 200. */
  lemma {:induction false} BodiesCharged(r: Run, bodies: seq<Msg>, q: UserQos)
    requires r.Running? && r.local.qos == Some(q) && forall i :: 0 <= i < |bodies| ==> bodies[i].ResponseBody?
    ensures var t := RunFrom(r, bodies);
            t.Running? && t.charges == r.charges + if r.local.statusCode == 200 then Bill(q, bodies) else []
    decreases |bodies|
  {
    if bodies != [] {
      var b, rest := bodies[0], bodies[1..];
      var r' := Step(r, b);
      BodiesCharged(r', rest, q);
      BillFront(q, b, rest);
      assert [b] + rest == bodies;
      assert [b][..0] == [] && Bill(q, [b]) == if b.charge.Some? then [Charge(q, b.charge.value)] else [];
    }
  }

  /** The response of an admitted request. */
  lemma ResponseCharged(r: Run, msgs: seq<Msg>, q: UserQos)
    requires r.Running? && r.local.qos == Some(q) && Ordered(BeforeResponse, msgs)
    ensures var t := RunFrom(r, msgs);
            && t.Running?
            && t.charges == r.charges + if msgs != [] && msgs[0].status == 200 then Bill(q, msgs[1..]) else []
  {
    if msgs != [] {
      var r' := Step(r, msgs[0]);
      if msgs[0].status != 500 { ResponsesOnly(msgs[0].status, msgs[1..]); }
      BodiesCharged(r', msgs[1..], q);
    }
  }

  /** In the response of a request without a body, the first dereference panics. */
  lemma WithoutAdmission(r: Run, status: int, msgs: seq<Msg>)
    requires r.Running? && r.local.qos == None && Ordered(InResponse(status), msgs)
    ensures RunFrom(r, msgs).Panicked? <==> msgs != []
    ensures RunFrom(r, msgs).charges == r.charges
  {
    if msgs != [] {
      assert RunFrom(r, msgs) == RunFrom(Step(r, msgs[0]), msgs[1..]);
    }
  }

  /** The charges of a stream: those of its response, made to the QoS found for its token, if it was
      admitted and the response has status 200; otherwise none. */
  function Due(msgs: seq<Msg>): seq<Charge> {
    if |msgs| >= 3 && msgs[0].RequestHeaders? && msgs[1].RequestBody? && msgs[1].answer(msgs[0].token).Admitted?
       && msgs[2].ResponseHeaders? && msgs[2].status == 200
    then Bill(msgs[1].answer(msgs[0].token).q, msgs[3..])
    else []
  }

  /** With a request body in the stream, the QoS is there whenever it is used, and the charges are
      exactly those due. */
  lemma ChargedAsAdmitted(msgs: seq<Msg>)
    requires Ordered(BeforeHeaders, msgs) && |msgs| >= 2 && msgs[1].RequestBody?
    ensures RunFrom(START, msgs).Running? && RunFrom(START, msgs).charges == Due(msgs)
  {
    var r1 := Step(START, msgs[0]);
    var r2 := Step(r1, msgs[1]);
    var rest := msgs[2..];
    assert msgs[1..][1..] == rest;
    assert RunFrom(START, msgs) == RunFrom(r1, msgs[1..]) == RunFrom(r2, rest);
    if msgs[1].answer(msgs[0].token).Admitted? {
      ResponseCharged(r2, rest, msgs[1].answer(msgs[0].token).q);
      if rest != [] { assert rest[1..] == msgs[3..]; }
    } else {
      assert RunFrom(r2, rest) == r2;
    }
  }

  /** In every stream in the proxy's order the charges are exactly those due. */
  lemma ChargedAsDue(msgs: seq<Msg>)
    requires Ordered(BeforeHeaders, msgs)
    ensures RunFrom(START, msgs).charges == Due(msgs)
  {
    if |msgs| >= 2 && msgs[1].RequestBody? {
      ChargedAsAdmitted(msgs);
    } else if |msgs| >= 2 {
      BodilessPanicsIff(msgs);
    } else if |msgs| == 1 {
      assert RunFrom(START, msgs) == RunFrom(Step(START, msgs[0]), msgs[1..]);
    }
  }

  /** A stream in the proxy's order panics if and only if it has no request body and its response
      has status 500 or a body. */
  lemma PanicsIff(msgs: seq<Msg>)
    requires Ordered(BeforeHeaders, msgs)
    ensures RunFrom(START, msgs).Panicked? <==> !HasBody(msgs) && HasDereference(msgs)
  {
    if |msgs| >= 2 && msgs[1].RequestBody? {
      ChargedAsAdmitted(msgs);
      assert HasBody(msgs);
    } else if |msgs| >= 2 {
      BodilessPanicsIff(msgs);
    } else if |msgs| == 1 {
      assert RunFrom(START, msgs) == RunFrom(Step(START, msgs[0]), msgs[1..]);
    }
  }

  /** Such streams exist: a request without a body whose response has one. */
  lemma BodilessStreamPanics(token: string, status: int, charge: Option<Usage>) returns (msgs: seq<Msg>)
    requires token != ""
    ensures Ordered(BeforeHeaders, msgs) && RunFrom(START, msgs).Panicked?
  {
    var headers, response := RequestHeaders(token), ResponseHeaders(status);
    if status == 500 {
      msgs := [headers, response];
      assert msgs[1..] == [response] && [response][1..] == [];
      assert Ordered(BeforeBody(token), [response]);
      assert Dereferences(msgs[1]);
    } else {
      var body := ResponseBody(charge, false);
      msgs := [headers, response, body];
      assert msgs[1..] == [response, body] && [response, body][1..] == [body] && [body][1..] == [];
      assert Ordered(InResponse(status), [body]);
      assert Ordered(BeforeBody(token), [response, body]);
      assert Dereferences(msgs[2]);
    }
    PanicsIff(msgs);
  }

  lemma BodilessPanicsIff(msgs: seq<Msg>)
    requires Ordered(BeforeHeaders, msgs) && |msgs| >= 2 && msgs[1].ResponseHeaders?
    ensures RunFrom(START, msgs).Panicked? <==> HasDereference(msgs)
    ensures !HasBody(msgs) && RunFrom(START, msgs).charges == []
  {
    var status, rest := msgs[1].status, msgs[1..][1..];
    var r1 := Step(START, msgs[0]);
    var r2 := Step(r1, msgs[1]);
    assert RunFrom(START, msgs) == RunFrom(r1, msgs[1..]) == RunFrom(r2, rest);
    assert forall i :: 0 <= i < |rest| ==> rest[i] == msgs[i + 2];
    if status == 500 {
      assert Dereferences(msgs[1]);
    } else {
      WithoutAdmission(r2, status, rest);
      ResponsesOnly(status, rest);
      assert forall i :: 2 <= i < |msgs| ==> msgs[i] == rest[i - 2];
      if rest != [] { assert Dereferences(msgs[2]); }
    }
  }

  lemma {:induction false} ResponsesOnly(status: int, msgs: seq<Msg>)
    requires Ordered(InResponse(status), msgs)
    ensures forall i :: 0 <= i < |msgs| ==> msgs[i].ResponseBody?
    decreases |msgs|
  {
    if msgs != [] && msgs[1..] != [] {
      ResponsesOnly(status, msgs[1..]);
      assert forall i :: 1 <= i < |msgs| ==> msgs[i] == msgs[1..][i - 1];
    }
  }
}
