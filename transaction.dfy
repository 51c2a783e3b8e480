/**
  The Transaction object of lib/transaction.js: client-side bookkeeping for
  one transaction at a time against the transactional endpoint.

  It keeps the open transaction's handle (`_commit`), the statements not yet
  sent (`_statements`), the statements already sent (`_appliedStatements`)
  and the events to emit once the transaction commits (`_events`).  `begin`
  and `commit` merge their statement argument into the pending queue, call
  the driver once and update the state from the driver's reply, which is a
  parameter here.

  The first half of the module says what one call does, as functions of the
  state before it (BeginStep, CommitStep); the class Transaction at the end
  does it step by step on its fields and is proved to agree with them.
 */
module Transactions {
  import opened Js
  import opened Node2Neo

  const ExistingTransactionPrefix := "Existing Open Transaction: "
  const InvalidSyntaxMessage := "Begin transaction: Invalid statement syntax"
  // `commit` calls `deferred.reject` before `var deferred` is assigned
  const UnassignedDeferredMessage := "Cannot read properties of undefined (reading 'reject')"

  /** The statement argument of `begin` and `commit`: a primitive value
      (JUndefined when it is left out), a single object, or an array. */
  datatype StatementArg = Value(v: JsValue) | Object(st: Statement) | Array(sts: seq<Statement>)

  /** A payload queued under an event name: an array, whose elements are the
      arguments of `emit` (the first one naming the event), or any other value. */
  datatype Payload = Args(args: seq<JsValue>) | Single(value: JsValue)

  /** `_events`, in the order `for (var action in _events)` visits its keys. */
  type EventQueue = seq<(string, seq<Payload>)>

  /** The argument list of one `emit` call. */
  type Emission = seq<JsValue>

  /** The four fields of a Transaction. */
  datatype State = State(handle: JsValue, pending: seq<Statement>, applied: seq<Statement>, events: EventQueue)

  /** The call a Transaction makes on its driver. */
  datatype DriverCall =
    | BeginCall(statements: seq<Statement>, options: Options)   // db.beginTransaction({statements}, options, cb)
    | CommitCall(handle: JsValue, statements: seq<Statement>)   // db.commitTransaction(handle, {statements}, cb)

  /** How a call of `begin` or `commit` ends for its caller: the promise (and
      the callback) settles once, or the call throws synchronously. */
  datatype Completion = Resolved(results: seq<ResultSet>) | Rejected(error: Error) | Threw(error: Error)

  /** One call: the state after it, the driver call it made, what it emitted
      and how it ended. */
  datatype Step = Step(next: State, call: Option<DriverCall>, emitted: seq<Emission>, completion: Completion)

  /** The state of a new Transaction, and of one whose transaction committed. */
  function Fresh(): State {
    State(JUndefined, [], [], [])
  }

  /** The options `commit` passes to `begin` when there is no open handle. */
  function CommitOptions(): Options {
    Options(JBool(true))
  }

  function ExistingMessage(handle: JsValue): string {
    ExistingTransactionPrefix + ToJsString(handle)
  }

  /** The driver's reply is a result: no error, and no non-empty `errors`. */
  predicate Succeeded(reply: Reply) {
    reply.Success? && |reply.body.errors| == 0
  }

  /** The error a reply that did not succeed rejects with. */
  function ReplyError(reply: Reply): Error
    requires !Succeeded(reply)
  {
    if reply.Failure? then reply.error else ServerErrors(reply.body.errors)
  }

  // ---------------------------------------------------------------------
  // Merging the statement argument into the pending queue

  /** The merge block shared by `begin` and `commit`; None when the argument
      has a shape neither accepts. */
  function Merge(pending: seq<Statement>, arg: StatementArg): (r: Option<seq<Statement>>)
    ensures r.Some? ==> |pending| <= |r.value| && r.value[..|pending|] == pending
    ensures r.None? <==> (arg.Value? && Truthy(arg.v) && !arg.v.JStr?) || (arg.Object? && !Truthy(arg.st.statement))
    ensures arg.Value? && !Truthy(arg.v) ==> r == Some(pending)
    ensures arg.Value? && arg.v.JStr? && arg.v.s != "" ==>
              r == Some(pending + [Statement(arg.v, Some(|pending|), map[])])
    ensures arg.Object? && Truthy(arg.st.statement) ==> r == Some(pending + [arg.st])
    ensures arg.Array? ==> r == Some(pending + arg.sts)
  {
    match arg
    case Value(v) =>
      if !Truthy(v) then Some(pending)
      else if v.JStr? then Some(pending + [Statement(v, Some(|pending|), map[])])
      else None
    case Object(st) =>
      if Truthy(st.statement) then Some(pending + [st]) else None
    case Array(sts) =>
      Some(pending + sts)
  }

  /** The pending queue after the merge block: unchanged when the shape is rejected. */
  function AfterMerge(pending: seq<Statement>, arg: StatementArg): seq<Statement> {
    match Merge(pending, arg)
    case Some(p) => p
    case None => pending
  }

  /** Whether an argument is accepted does not depend on what is pending. */
  lemma MergeValidityIgnoresPending(p: seq<Statement>, q: seq<Statement>, arg: StatementArg)
    ensures Merge(p, arg).Some? == Merge(q, arg).Some?
  {
  }

  /** A string merged twice gets the two next commandIds, n and n + 1. */
  lemma MergeStringTwice(pending: seq<Statement>, text: string)
    requires text != ""
    ensures var n := |pending|;
            var once := Merge(pending, Value(JStr(text))).value;
            Merge(once, Value(JStr(text))) ==
              Some(pending + [Statement(JStr(text), Some(n), map[]), Statement(JStr(text), Some(n + 1), map[])])
  {
    var first, second := Statement(JStr(text), Some(|pending|), map[]), Statement(JStr(text), Some(|pending| + 1), map[]);
    var once := Merge(pending, Value(JStr(text))).value;
    assert once == pending + [first];
    assert Merge(once, Value(JStr(text))) == Some(once + [second]);
    assert once + [second] == pending + [first, second];
  }

  /** Merging strings one after another into an empty queue numbers them
      0, 1, 2, ... in order. */
  function MergeAll(pending: seq<Statement>, texts: seq<string>): seq<Statement>
    decreases |texts|
  {
    if texts == [] then pending
    else MergeAll(AfterMerge(pending, Value(JStr(texts[0]))), texts[1..])
  }

  lemma {:induction false} MergeAllNumbersInOrder(pending: seq<Statement>, texts: seq<string>)
    requires forall i :: 0 <= i < |texts| ==> texts[i] != ""
    ensures var r := MergeAll(pending, texts);
            |r| == |pending| + |texts| && r[..|pending|] == pending &&
            forall i :: 0 <= i < |texts| ==>
              r[|pending| + i] == Statement(JStr(texts[i]), Some(|pending| + i), map[])
    decreases |texts|
  {
    if texts != [] {
      var next := AfterMerge(pending, Value(JStr(texts[0])));
      assert next == pending + [Statement(JStr(texts[0]), Some(|pending|), map[])];
      MergeAllNumbersInOrder(next, texts[1..]);
      var r := MergeAll(pending, texts);
      assert r == MergeAll(next, texts[1..]);
      assert r[..|pending|] == next[..|next|][..|pending|];
      forall i | 0 <= i < |texts|
        ensures r[|pending| + i] == Statement(JStr(texts[i]), Some(|pending| + i), map[])
      {
        if i > 0 {
          assert texts[1..][i - 1] == texts[i];
        } else {
          assert r[..|next|] == next;
        }
      }
    }
  }

  // ---------------------------------------------------------------------
  // Replaying the deferred events

  /** The `emit` call for one payload queued under `key`. */
  function EmissionOf(key: string, p: Payload): Emission {
    match p
    case Args(args) => args
    case Single(v) => [JStr(key), v]
  }

  /** The inner loop of the replay: one emission per payload, in list order. */
  function ReplayPayloads(key: string, ps: seq<Payload>): (r: seq<Emission>)
    ensures |r| == |ps|
    ensures forall j :: 0 <= j < |ps| ==> r[j] == EmissionOf(key, ps[j])
    decreases |ps|
  {
    if ps == [] then [] else ReplayPayloads(key, ps[..|ps| - 1]) + [EmissionOf(key, ps[|ps| - 1])]
  }

  /** The number of payloads queued, over all keys. */
  function PayloadCount(events: EventQueue): nat
    decreases |events|
  {
    if events == [] then 0 else PayloadCount(events[..|events| - 1]) + |events[|events| - 1].1|
  }

  /** Both loops of the replay: the keys in order, each key's payloads in
      order; as many emissions as payloads. */
  function Replay(events: EventQueue): (r: seq<Emission>)
    ensures |r| == PayloadCount(events)
    decreases |events|
  {
    if events == [] then []
    else
      var last := events[|events| - 1];
      Replay(events[..|events| - 1]) + ReplayPayloads(last.0, last.1)
  }

  /** The payloads of the keys before key i take the first PayloadCount(events[..i])
      places; those of key i take the next |events[i].1|. */
  lemma OffsetStep(events: EventQueue, i: nat)
    requires i < |events|
    ensures PayloadCount(events[..i + 1]) == PayloadCount(events[..i]) + |events[i].1|
  {
    assert events[..i + 1][..i] == events[..i];
  }

  lemma {:induction false} PayloadCountMonotone(events: EventQueue, a: nat, b: nat)
    requires a <= b <= |events|
    ensures PayloadCount(events[..a]) <= PayloadCount(events[..b])
    decreases b - a
  {
    if a < b {
      OffsetStep(events, a);
      PayloadCountMonotone(events, a + 1, b);
    }
  }

  /** Payload j of key i is emitted at place PayloadCount(events[..i]) + j. */
  lemma {:induction false} ReplayAt(events: EventQueue, i: nat, j: nat)
    requires i < |events| && j < |events[i].1|
    ensures PayloadCount(events[..i]) + j < |Replay(events)|
    ensures Replay(events)[PayloadCount(events[..i]) + j] == EmissionOf(events[i].0, events[i].1[j])
    decreases |events|
  {
    var init, last := events[..|events| - 1], events[|events| - 1];
    if i == |events| - 1 {
      assert events[..i] == init;
    } else {
      assert events[..i] == init[..i];
      assert init[i] == events[i];
      ReplayAt(init, i, j);
    }
  }

  /** Those places follow key order, then list order, so no two payloads share one. */
  lemma ReplayPlacesOrdered(events: EventQueue, i1: nat, j1: nat, i2: nat, j2: nat)
    requires i1 < |events| && j1 < |events[i1].1|
    requires i2 < |events| && j2 < |events[i2].1|
    requires i1 < i2 || (i1 == i2 && j1 < j2)
    ensures PayloadCount(events[..i1]) + j1 < PayloadCount(events[..i2]) + j2
  {
    if i1 < i2 {
      OffsetStep(events, i1);
      PayloadCountMonotone(events, i1 + 1, i2);
    }
  }

  /** And every place holds one of them: each payload is emitted exactly once. */
  lemma {:induction false} ReplayPlaceOf(events: EventQueue, k: nat) returns (i: nat, j: nat)
    requires k < |Replay(events)|
    ensures i < |events| && j < |events[i].1| && k == PayloadCount(events[..i]) + j
    decreases |events|
  {
    var init := events[..|events| - 1];
    if k < PayloadCount(init) {
      i, j := ReplayPlaceOf(init, k);
      assert events[..i] == init[..i];
      assert init[i] == events[i];
    } else {
      i, j := |events| - 1, k - PayloadCount(init);
      assert events[..i] == init;
    }
  }

  // ---------------------------------------------------------------------
  // One call of begin and of commit

  /** `begin(statement, options)`.  An open handle rejects, and so does a
      statement of unknown shape, but neither returns: the merge, the driver
      call and the state update on success still happen, while the result
      stays the first rejection. */
  function BeginStep(s: State, arg: StatementArg, options: Options, reply: Reply): (r: Step)
    ensures r.call == Some(BeginCall(AfterMerge(s.pending, arg), options))
    ensures Truthy(s.handle) ==> r.completion == Rejected(Neo4jError(ExistingMessage(s.handle)))
    ensures !Truthy(s.handle) && Merge(s.pending, arg).None? ==>
              r.completion == Rejected(Neo4jError(InvalidSyntaxMessage))
    ensures !Succeeded(reply) ==> r.next == s.(pending := AfterMerge(s.pending, arg)) && r.emitted == []
    ensures Succeeded(reply) ==> r.next.pending == []
    ensures Succeeded(reply) && Truthy(options.commit) ==> r.next == Fresh() && r.emitted == Replay(s.events)
    ensures Succeeded(reply) && !Truthy(options.commit) ==>
              r.next == State(reply.body.commit, [], AfterMerge(s.pending, arg), s.events) && r.emitted == []
    ensures !Truthy(s.handle) && Merge(s.pending, arg).Some? ==>
              r.completion == if Succeeded(reply) then Resolved(reply.body.results) else Rejected(ReplyError(reply))
  {
    var pending := AfterMerge(s.pending, arg);
    var early :=
      if Truthy(s.handle) then Some(Neo4jError(ExistingMessage(s.handle)))
      else if Merge(s.pending, arg).None? then Some(Neo4jError(InvalidSyntaxMessage))
      else None;
    var call := Some(BeginCall(pending, options));
    if !Succeeded(reply) then
      Step(s.(pending := pending), call, [], Rejected(if early.Some? then early.value else ReplyError(reply)))
    else
      var next := if Truthy(options.commit) then Fresh() else State(reply.body.commit, [], pending, s.events);
      var emitted := if Truthy(options.commit) then Replay(s.events) else [];
      Step(next, call, emitted, if early.Some? then Rejected(early.value) else Resolved(reply.body.results))
  }

  /** `commit(statement)`.  A statement of unknown shape throws before
      anything happens; with an open handle the driver commits it; without
      one, `commit` hands the same statement to `begin` with `{commit: true}`,
      which merges it a second time. */
  function CommitStep(s: State, arg: StatementArg, reply: Reply): (r: Step)
    ensures Merge(s.pending, arg).None? ==> r == Step(s, None, [], Threw(TypeError(UnassignedDeferredMessage)))
    ensures Merge(s.pending, arg).Some? && !Truthy(s.handle) ==>
              r == BeginStep(s.(pending := Merge(s.pending, arg).value), arg, CommitOptions(), reply)
    ensures Merge(s.pending, arg).Some? && Truthy(s.handle) ==>
              r.call == Some(CommitCall(s.handle, Merge(s.pending, arg).value))
    ensures Merge(s.pending, arg).Some? && Succeeded(reply) ==>
              r.next == Fresh() && r.emitted == Replay(s.events) && r.completion == Resolved(reply.body.results)
    ensures Merge(s.pending, arg).Some? && !Succeeded(reply) ==>
              r.next.handle == s.handle && r.next.applied == s.applied && r.next.events == s.events &&
              r.emitted == [] && r.completion == Rejected(ReplyError(reply))
    ensures Merge(s.pending, arg).Some? && !Truthy(s.handle) && !Succeeded(reply) ==>
              r.next.pending == AfterMerge(Merge(s.pending, arg).value, arg)
    ensures Merge(s.pending, arg).Some? && Truthy(s.handle) && !Succeeded(reply) ==>
              r.next == s.(pending := Merge(s.pending, arg).value)
  {
    match Merge(s.pending, arg)
    case None => Step(s, None, [], Threw(TypeError(UnassignedDeferredMessage)))
    case Some(pending) =>
      var t := s.(pending := pending);
      if !Truthy(s.handle) then
        BeginStep(t, arg, CommitOptions(), reply)
      else
        var call := Some(CommitCall(s.handle, pending));
        if !Succeeded(reply) then Step(t, call, [], Rejected(ReplyError(reply)))
        else Step(Fresh(), call, Replay(s.events), Resolved(reply.body.results))
  }

  /** Without an open handle, a string committed is sent twice, as commands
      n and n + 1. */
  lemma CommitWithoutHandleSendsStringTwice(s: State, text: string, reply: Reply)
    requires !Truthy(s.handle) && text != ""
    ensures var n := |s.pending|;
            CommitStep(s, Value(JStr(text)), reply).call ==
              Some(BeginCall(s.pending + [Statement(JStr(text), Some(n), map[]), Statement(JStr(text), Some(n + 1), map[])],
                             CommitOptions()))
  {
    MergeStringTwice(s.pending, text);
  }

  /** A second `begin` after one that opened a transaction is rejected with
      the handle the first one stored, and still calls the driver. */
  lemma BeginTwice(s: State, arg1: StatementArg, arg2: StatementArg, options: Options, body: Body, reply2: Reply)
    requires !Truthy(options.commit) && body.errors == [] && Truthy(body.commit)
    ensures var first := BeginStep(s, arg1, options, Success(body));
            var second := BeginStep(first.next, arg2, options, reply2);
            first.next.handle == body.commit &&
            second.completion == Rejected(Neo4jError(ExistingMessage(body.commit))) &&
            second.call.Some?
  {
  }

  /** Statement-free `begin` followed by statement-free `commit`, as the
      driver carries them out: the begin posts to the begin URL, and the
      commit posts to the commit URL of the id in the handle the server issued. */
  lemma BeginThenCommit(d: Driver, server: string, id: string, body: Body, reply2: Reply)
    requires IndexOf(server, TransactionMarker) == -1 && IsDecimal(id)
    requires body.errors == [] && body.commit == JStr(CommitUrl(server, id))
    ensures var first := BeginStep(Fresh(), Value(JUndefined), Options(JUndefined), Success(body));
            first.call == Some(BeginCall([], Options(JUndefined))) &&
            PrepareBegin(d, Some([]), Some(Options(JUndefined))) ==
              Send(Request(Post, d.server + "/db/data/transaction", Statements([]))) &&
            var second := CommitStep(first.next, Value(JUndefined), reply2);
            second.call == Some(CommitCall(body.commit, [])) &&
            PrepareCommit(d, body.commit, Some([])) ==
              Send(Request(Post, CommitUrl(d.server, id), Statements([])))
  {
    CommitOfIssuedHandle(d, server, id, Some([]));
  }

  /** The reply a Node2Neo driver gives to the Transaction's call; None when
      the driver throws instead.  A driver reply that succeeds never carries
      errors, and a commit on a truthy handle never throws. */
  function DriverReply(d: Driver, call: DriverCall, outcome: HttpOutcome): (r: Option<Reply>)
    ensures call.BeginCall? ==> r == Some(Classify(outcome))
    ensures call.CommitCall? && Truthy(call.handle) ==> r.Some?
    ensures call.CommitCall? ==>
              var p := PrepareCommit(d, call.handle, Some(call.statements));
              (p.Raise? ==> r.None?) &&
              (p.Refuse? ==> r == Some(Failure(ClientError(NonNumericIdMessage)))) &&
              (p.Send? ==> r == Some(Classify(outcome)))
    ensures r.Some? && r.value.Success? ==> r.value.body.errors == []
  {
    match call
    case BeginCall(statements, options) => Deliver(PrepareBegin(d, Some(statements), Some(options)), outcome)
    case CommitCall(handle, statements) => Deliver(PrepareCommit(d, handle, Some(statements)), outcome)
  }

  // ---------------------------------------------------------------------
  // The Transaction object

  class Transaction {
    var handle: JsValue                   // `_commit`
    var statements: seq<Statement>        // `_statements`
    var appliedStatements: seq<Statement> // `_appliedStatements`
    var events: EventQueue                // `_events`
    var emitted: seq<Emission>            // the `emit` calls made so far, in order

    function Snapshot(): State
      reads this
    {
      State(handle, statements, appliedStatements, events)
    }

    /** `new Transaction(db)`: no handle, nothing pending or applied, no events. */
    constructor ()
      ensures Snapshot() == Fresh() && emitted == []
    {
      handle := JUndefined;
      statements := [];
      appliedStatements := [];
      events := [];
      emitted := [];
    }

    /** The merge block at the head of `begin` and `commit`. */
    method MergeStatement(arg: StatementArg) returns (valid: bool)
      modifies this`statements
      ensures valid == Merge(old(statements), arg).Some?
      ensures statements == AfterMerge(old(statements), arg)
    {
      valid := true;
      match arg {
        case Value(v) =>
          if Truthy(v) {
            if v.JStr? {
              statements := statements + [Statement(v, Some(|statements|), map[])];
            } else {
              valid := false;
            }
          }
        case Object(st) =>
          if Truthy(st.statement) {
            statements := statements + [st];
          } else {
            valid := false;
          }
        case Array(sts) =>
          statements := statements + sts;
      }
    }

    /** The two nested loops that emit every queued payload. */
    method ReplayEvents()
      modifies this`emitted
      ensures emitted == old(emitted) + Replay(events)
    {
      var i := 0;
      while i < |events|
        invariant 0 <= i <= |events|
        invariant emitted == old(emitted) + Replay(events[..i])
      {
        var action, payloads := events[i].0, events[i].1;
        var j := 0;
        while j < |payloads|
          invariant 0 <= j <= |payloads|
          invariant emitted == old(emitted) + Replay(events[..i]) + ReplayPayloads(action, payloads[..j])
        {
          match payloads[j] {
            case Args(args) => emitted := emitted + [args];
            case Single(v) => emitted := emitted + [[JStr(action), v]];
          }
          assert payloads[..j + 1][..j] == payloads[..j];
          j := j + 1;
        }
        assert payloads[..j] == payloads;
        assert events[..i + 1][..i] == events[..i];
        i := i + 1;
      }
      assert events[..i] == events;
    }

    /** `begin(statement, options)` with the driver's reply. */
    method Begin(arg: StatementArg, options: Options, reply: Reply) returns (call: DriverCall, result: Completion)
      modifies this
      ensures var step := BeginStep(old(Snapshot()), arg, options, reply);
              Snapshot() == step.next && Some(call) == step.call &&
              emitted == old(emitted) + step.emitted && result == step.completion
    {
      var early: Option<Error> := None;
      if Truthy(handle) {
        early := Some(Neo4jError(ExistingMessage(handle)));
      }
      var valid := MergeStatement(arg);
      if !valid && early.None? {
        early := Some(Neo4jError(InvalidSyntaxMessage));
      }
      call := BeginCall(statements, options);
      var settled: Completion;
      match reply {
        case Failure(e) =>
          settled := Rejected(e);
        case Success(response) =>
          if |response.errors| > 0 {
            settled := Rejected(ServerErrors(response.errors));
          } else {
            if Truthy(options.commit) {
              ReplayEvents();
              events := [];
              statements := [];
              appliedStatements := [];
              handle := JUndefined;
            } else {
              appliedStatements := statements;
              statements := [];
              handle := response.commit;
            }
            settled := Resolved(response.results);
          }
      }
      result := if early.Some? then Rejected(early.value) else settled;
    }

    /** `commit(statement)` with the driver's reply. */
    method Commit(arg: StatementArg, reply: Reply) returns (call: Option<DriverCall>, result: Completion)
      modifies this
      ensures var step := CommitStep(old(Snapshot()), arg, reply);
              Snapshot() == step.next && call == step.call &&
              emitted == old(emitted) + step.emitted && result == step.completion
    {
      var valid := MergeStatement(arg);
      if !valid {
        call, result := None, Threw(TypeError(UnassignedDeferredMessage));
        return;
      }
      if Truthy(handle) {
        call := Some(CommitCall(handle, statements));
        match reply {
          case Failure(e) =>
            result := Rejected(e);
          case Success(response) =>
            if |response.errors| > 0 {
              result := Rejected(ServerErrors(response.errors));
            } else {
              statements := [];
              appliedStatements := [];
              ReplayEvents();
              events := [];
              handle := JUndefined;
              result := Resolved(response.results);
            }
        }
      } else {
        var c;
        c, result := Begin(arg, CommitOptions(), reply);
        call := Some(c);
      }
    }
  }
}
