/**
  The driver of lib/index.js: a client for the transactional HTTP endpoint
  of the Neo4j REST API.  What is modelled is everything the driver computes
  before and after the HTTP exchange: the base URL, the transaction id taken
  from a commit URL, the checks that refuse a call before any request is
  made, the request (verb, URL and JSON body) each operation sends, and the
  classification of what comes back.  The exchange itself is an input
  (HttpOutcome).
 */
module Node2Neo {
  import opened Js

  const DefaultServer := "http://localhost:7474"
  const TransactionMarker := "/transaction"
  const NoStatementMessage := "You need to provide at least one cypher statement"
  const NonNumericIdMessage := "You must provide a numeric transaction id."

  /** The errors a caller can receive, one constructor per origin. */
  datatype Error =
    | ClientError(message: string)        // `new Error(message)` in the driver
    | Neo4jError(message: string)         // `new Neo4jError(message)` in the transaction
    | TransportError(reason: string)      // the HTTP layer's `err`
    | ServerErrors(errors: seq<ServerError>)  // a response's whole `errors` array
    | TypeError(message: string)          // raised by the JavaScript runtime

  datatype ServerError = ServerError(code: string, message: string)

  /** One Cypher statement as sent on the wire: `{statement, commandId?, parameters?}`. */
  datatype Statement = Statement(statement: JsValue, commandId: Option<int>, parameters: map<string, JsValue>)

  /** One entry of a response's `results` array. */
  datatype ResultSet = ResultSet(columns: seq<string>, rows: seq<seq<JsValue>>)

  /** A response body `{results, errors, commit}`; `commit` is absent (JUndefined) once committed. */
  datatype Body = Body(results: seq<ResultSet>, errors: seq<ServerError>, commit: JsValue)

  /** What the HTTP layer hands to a request's callback. */
  datatype HttpOutcome = TransportFailure(reason: string) | Response(body: Body)

  /** What an operation of the driver hands to its own callback: `(err)` or `(null, body)`. */
  datatype Reply = Failure(error: Error) | Success(body: Body)

  /** An options object; only its `commit` property is read. */
  datatype Options = Options(commit: JsValue)

  datatype Verb = Post | Delete

  /** The `json` of a request: a statements object, or the literal `true`. */
  datatype Json = Statements(statements: seq<Statement>) | JsonTrue

  datatype Request = Request(verb: Verb, url: string, json: Json)

  /** How an operation proceeds up to the HTTP call: it throws, it hands an
      error to its callback without a request, or it sends a request. */
  datatype Prepared = Raise(error: Error) | Refuse(error: Error) | Send(request: Request)

  /** A synchronous JavaScript computation: a value, or an exception. */
  datatype Try<T> = Returns(value: T) | Throws(error: Error)

  /** A `Node2Neo` object; `server` is its base URL. */
  datatype Driver = Driver(server: string)

  /** `s.replace(/\/$/, '')`: drops one '/' at the very end, and nothing else. */
  function RemoveTrailingSlash(s: string): (r: string)
    ensures |s| > 0 && s[|s| - 1] == '/' ==> r + "/" == s
    ensures (|s| == 0 || s[|s| - 1] != '/') ==> r == s
    ensures |s| - 1 <= |r| <= |s| && r == s[..|r|]
  {
    if |s| > 0 && s[|s| - 1] == '/' then s[..|s| - 1] else s
  }

  /** `new Node2Neo(server)`: a falsy server is replaced by the default, and
      one trailing '/' is removed (`replace(/\/$/, '')`); a truthy server that
      is not a string has no `replace` and throws. */
  function NewDriver(server: JsValue): (r: Try<Driver>)
    ensures !Truthy(server) ==> r == Returns(Driver(DefaultServer))
    ensures Truthy(server) && server.JStr? ==>
              r.Returns? &&
              var s := server.s;
              if s[|s| - 1] == '/' then r.value.server + "/" == s else r.value.server == s
    ensures Truthy(server) && !server.JStr? ==> r.Throws? && r.error.TypeError?
  {
    if !Truthy(server) then Returns(Driver(RemoveTrailingSlash(DefaultServer)))
    else if server.JStr? then Returns(Driver(RemoveTrailingSlash(server.s)))
    else Throws(TypeError("server.replace is not a function"))
  }

  /** `isNumber(o)`: `!isNaN(o - 0) && o !== null && o !== '' && o !== false`. */
  function IsNumber(o: JsValue): (r: bool)
    ensures o == JUndefined || o == JNull || o == JStr("") || o == JBool(false) ==> !r
    ensures o.JNum? || o == JBool(true) ==> r
    ensures o.JStr? ==> (r <==> IsDecimal(o.s))
  {
    ToNumber(o).Some? && o != JNull && o != JStr("") && o != JBool(false)
  }

  /** `getTransactionId(commit)`: a numeric value is the id itself; of a
      string, the part from 13 characters after the first '/transaction' up
      to 7 characters before the end; anything else has no `slice` and throws. */
  function GetTransactionId(commit: JsValue): (r: Try<JsValue>)
    ensures IsNumber(commit) ==> r == Returns(commit)
    ensures commit.JStr? ==> r.Returns? && r.value.JStr?
    ensures !IsNumber(commit) && !commit.JStr? ==> r.Throws? && r.error.TypeError?
  {
    if IsNumber(commit) then Returns(commit)
    else match commit
      case JStr(s) => Returns(JStr(Slice(s, IndexOf(s, TransactionMarker) + 13, -7)))
      case JBool(_) => Throws(TypeError("commit.indexOf is not a function"))
      case _ => Throws(TypeError("Cannot read properties of " + ToJsString(commit) + " (reading 'slice')"))
  }

  /** The id that GetTransactionId extracts from a non-numeric string, in
      terms of the first occurrence of '/transaction' (start 12 when there is
      none) and the string's length. */
  lemma IdOfString(s: string)
    requires !IsDecimal(s)
    ensures var p := IndexOf(s, TransactionMarker);
            var start := if p == -1 then 12 else p + 13;
            GetTransactionId(JStr(s)) == Returns(JStr(if start < |s| - 7 then s[start..|s| - 7] else ""))
  {
  }

  function TransactionUrl(server: string, id: string): string {
    server + "/db/data/transaction/" + id
  }

  function CommitUrl(server: string, id: string): string {
    TransactionUrl(server, id) + "/commit"
  }

  /** In a commit URL built on a server that does not mention '/transaction',
      the first '/transaction' is the one the driver put there. */
  lemma {:induction false} MarkerInCommitUrl(server: string, id: string)
    requires IndexOf(server, TransactionMarker) == -1
    ensures IndexOf(CommitUrl(server, id), TransactionMarker) == |server| + 8
  {
    var rest := "/db/data/transaction/" + id + "/commit";
    var url, n := CommitUrl(server, id), |server|;
    assert url == server + rest;
    assert rest[..21] == "/db/data/transaction/";
    assert rest[0] == '/';
    assert url[n + 8..n + 20] == rest[8..20] == TransactionMarker;
    assert OccursAt(url, TransactionMarker, n + 8);
    forall k | 0 <= k < n + 8
      ensures !OccursAt(url, TransactionMarker, k)
    {
      if k + 12 <= n {
        NoMarkerWithinServer(server, rest, k);
      } else if k < n {
        NoMarkerAcrossServerEnd(server, rest, k);
      } else {
        NoMarkerInPathHead(server, rest, k - n);
      }
    }
  }

  lemma NoMarkerWithinServer(server: string, rest: string, k: nat)
    requires IndexOf(server, TransactionMarker) == -1 && k + 12 <= |server|
    ensures !OccursAt(server + rest, TransactionMarker, k)
  {
    assert (server + rest)[k..k + 12] == server[k..k + 12];
    assert !OccursAt(server, TransactionMarker, k);
  }

  /** The '/' that starts the path would have to be one of the marker's letters. */
  lemma NoMarkerAcrossServerEnd(server: string, rest: string, k: nat)
    requires k < |server| < k + 12 && |rest| > 0 && rest[0] == '/'
    ensures !OccursAt(server + rest, TransactionMarker, k)
  {
    var url, n := server + rest, |server|;
    if k + 12 <= |url| {
      assert url[k..k + 12][n - k] == url[n] == '/';
      assert TransactionMarker[n - k] != '/';
    }
  }

  /** Before position 8 of the path, no '/' is followed by a 't'. */
  lemma NoMarkerInPathHead(server: string, rest: string, o: nat)
    requires o < 8 && |rest| >= 21 && rest[..21] == "/db/data/transaction/"
    ensures !OccursAt(server + rest, TransactionMarker, |server| + o)
  {
    var url, k := server + rest, |server| + o;
    assert url[k] == rest[o] && url[k + 1] == rest[o + 1];
    assert rest[o] == "/db/data/transaction/"[o] && rest[o + 1] == "/db/data/transaction/"[o + 1];
    assert rest[o] != '/' || rest[o + 1] != 't';
    assert url[k..k + 12][0] != TransactionMarker[0] || url[k..k + 12][1] != TransactionMarker[1];
  }

  /** Round trip: the id the driver puts into a commit URL is the id that
      GetTransactionId takes out of it. */
  lemma {:induction false} CommitUrlRoundTrip(server: string, id: string)
    requires IndexOf(server, TransactionMarker) == -1
    ensures GetTransactionId(JStr(CommitUrl(server, id))) == Returns(JStr(id))
  {
    var url := CommitUrl(server, id);
    MarkerInCommitUrl(server, id);
    assert url[|server|] == '/';
    assert !IsDecimal(url);
    assert |url| == |server| + 21 + |id| + 7;
    assert url[|server| + 21..|url| - 7] == id;
  }

  /** The default base URL does not mention '/transaction'. */
  lemma DefaultServerHasNoMarker()
    ensures IndexOf(DefaultServer, TransactionMarker) == -1
  {
    var s, m := DefaultServer, TransactionMarker;
    forall k | 0 <= k
      ensures !OccursAt(s, m, k)
    {
      if k + 12 <= |s| {
        assert s[k..k + 12][0] == s[k] && s[k..k + 12][1] == s[k + 1];
        assert s[k] != '/' || s[k + 1] != 't';
      }
    }
  }

  /** `options && options.commit`. */
  predicate CommitRequested(options: Option<Options>) {
    options.Some? && Truthy(options.value.commit)
  }

  /** `beginTransaction(statements, options, callback)` up to the request.
      `statements` is None when the first argument is the callback;
      `options` is None when no options object is passed. */
  function PrepareBegin(d: Driver, statements: Option<seq<Statement>>, options: Option<Options>): (r: Prepared)
    ensures !r.Raise?
    ensures r.Refuse? <==> statements.None?
    ensures r.Refuse? ==> r.error == ClientError(NoStatementMessage)
    ensures r.Send? ==> r.request.verb == Post && r.request.json == Statements(statements.value)
    ensures r.Send? && CommitRequested(options) ==> r.request.url == d.server + "/db/data/transaction/commit"
    ensures r.Send? && !CommitRequested(options) ==> r.request.url == d.server + "/db/data/transaction"
  {
    if statements.None? then Refuse(ClientError(NoStatementMessage))
    else
      var commit := if CommitRequested(options) then "/commit" else "";
      Send(Request(Post, d.server + "/db/data/transaction" + commit, Statements(statements.value)))
  }

  /** `executeStatement(transId, statements, callback)` up to the request.
      Without statements the body is an empty statements list, which only
      extends the transaction's lifetime. */
  function PrepareExecute(d: Driver, transId: JsValue, statements: Option<seq<Statement>>): (r: Prepared)
    ensures r.Raise? <==> GetTransactionId(transId).Throws?
    ensures r.Raise? ==> r.error == GetTransactionId(transId).error
    ensures r.Refuse? <==> GetTransactionId(transId).Returns? && !IsNumber(GetTransactionId(transId).value)
    ensures r.Refuse? ==> r.error == ClientError(NonNumericIdMessage)
    ensures r.Send? ==>
              var id := GetTransactionId(transId).value;
              IsNumber(id) && r.request.verb == Post &&
              r.request.url == d.server + "/db/data/transaction/" + ToJsString(id)
    ensures r.Send? ==> r.request.json == Statements(if statements.Some? then statements.value else [])
  {
    match GetTransactionId(transId)
    case Throws(e) => Raise(e)
    case Returns(id) =>
      if !IsNumber(id) then Refuse(ClientError(NonNumericIdMessage))
      else
        var body := if statements.Some? then statements.value else [];
        Send(Request(Post, TransactionUrl(d.server, ToJsString(id)), Statements(body)))
  }

  /** `commitTransaction(transId, statements, callback)` up to the request.
      Without statements the body is `true` (`statements || true`). */
  function PrepareCommit(d: Driver, transId: JsValue, statements: Option<seq<Statement>>): (r: Prepared)
    ensures r.Raise? <==> GetTransactionId(transId).Throws?
    ensures r.Raise? ==> r.error == GetTransactionId(transId).error
    ensures r.Refuse? <==> GetTransactionId(transId).Returns? && !IsNumber(GetTransactionId(transId).value)
    ensures r.Refuse? ==> r.error == ClientError(NonNumericIdMessage)
    ensures r.Send? ==>
              var id := GetTransactionId(transId).value;
              IsNumber(id) && r.request.verb == Post &&
              r.request.url == d.server + "/db/data/transaction/" + ToJsString(id) + "/commit"
    ensures r.Send? ==> r.request.json == if statements.Some? then Statements(statements.value) else JsonTrue
  {
    match GetTransactionId(transId)
    case Throws(e) => Raise(e)
    case Returns(id) =>
      if !IsNumber(id) then Refuse(ClientError(NonNumericIdMessage))
      else
        var body := if statements.Some? then Statements(statements.value) else JsonTrue;
        Send(Request(Post, CommitUrl(d.server, ToJsString(id)), body))
  }

  /** `removeTransaction(transId, callback)` up to the request: a DELETE of
      the transaction's URL. */
  function PrepareRemove(d: Driver, transId: JsValue): (r: Prepared)
    ensures r.Raise? <==> GetTransactionId(transId).Throws?
    ensures r.Raise? ==> r.error == GetTransactionId(transId).error
    ensures r.Refuse? <==> GetTransactionId(transId).Returns? && !IsNumber(GetTransactionId(transId).value)
    ensures r.Refuse? ==> r.error == ClientError(NonNumericIdMessage)
    ensures r.Send? ==>
              var id := GetTransactionId(transId).value;
              IsNumber(id) && r.request == Request(Delete, d.server + "/db/data/transaction/" + ToJsString(id), JsonTrue)
  {
    match GetTransactionId(transId)
    case Throws(e) => Raise(e)
    case Returns(id) =>
      if !IsNumber(id) then Refuse(ClientError(NonNumericIdMessage))
      else Send(Request(Delete, TransactionUrl(d.server, ToJsString(id)), JsonTrue))
  }

  /** The callback of every request: a transport error is passed on, a body
      with a non-empty `errors` array fails with that whole array, and any
      other body is the result. */
  function Classify(outcome: HttpOutcome): (r: Reply)
    ensures r.Failure? <==> outcome.TransportFailure? || |outcome.body.errors| > 0
    ensures outcome.TransportFailure? ==> r.error == TransportError(outcome.reason)
    ensures outcome.Response? && r.Failure? ==> r.error == ServerErrors(outcome.body.errors)
    ensures r.Success? ==> r.body == outcome.body && r.body.errors == []
  {
    match outcome
    case TransportFailure(reason) => Failure(TransportError(reason))
    case Response(body) =>
      if |body.errors| > 0 then Failure(ServerErrors(body.errors)) else Success(body)
  }

  /** What an operation's callback receives: None when the operation throws
      instead; a refused call never looks at the outcome of the exchange,
      because there is none. */
  function Deliver(p: Prepared, outcome: HttpOutcome): (r: Option<Reply>)
    ensures r.None? <==> p.Raise?
    ensures p.Refuse? ==> r == Some(Failure(p.error))
    ensures p.Send? ==> r == Some(Classify(outcome))
    ensures r.Some? && r.value.Success? ==> p.Send? && r.value.body.errors == []
  {
    match p
    case Raise(_) => None
    case Refuse(e) => Some(Failure(e))
    case Send(_) => Some(Classify(outcome))
  }

  /** A commit URL that the server issued for a numeric id makes the driver
      post to the commit URL of that id on its own base URL. */
  lemma CommitOfIssuedHandle(d: Driver, server: string, id: string, statements: Option<seq<Statement>>)
    requires IndexOf(server, TransactionMarker) == -1
    requires IsDecimal(id)
    ensures PrepareCommit(d, JStr(CommitUrl(server, id)), statements).Send?
    ensures PrepareCommit(d, JStr(CommitUrl(server, id)), statements).request.url == CommitUrl(d.server, id)
  {
    CommitUrlRoundTrip(server, id);
  }

  /** The same for a numeric id the driver spelled itself. */
  lemma NumericIdRoundTrip(server: string, n: nat)
    requires IndexOf(server, TransactionMarker) == -1
    ensures var id := GetTransactionId(JStr(CommitUrl(server, ToJsString(JNum(n)))));
            id == Returns(JStr(NatToDecimal(n))) && IsNumber(id.value)
  {
    CommitUrlRoundTrip(server, NatToDecimal(n));
  }

  /** A base URL that itself contains '/transaction' is not ruled out by the
      driver, but breaks the round trip: the id of a commit URL issued on
      `http://h/transaction` is cut after the server's own '/transaction', so
      it is not numeric and every commit of that handle is refused. */
  lemma MarkedServerBreaksRoundTrip(d: Driver, statements: Option<seq<Statement>>)
    ensures var url := CommitUrl("http://h/transaction", "5");
            GetTransactionId(JStr(url)) == Returns(JStr("db/data/transaction/5")) &&
            !IsNumber(JStr("db/data/transaction/5")) &&
            PrepareCommit(d, JStr(url), statements) == Refuse(ClientError(NonNumericIdMessage))
  {
    var url := CommitUrl("http://h/transaction", "5");
    MarkedServerId(url);
    assert !IsDigit("db/data/transaction/5"[0]);
  }

  lemma MarkedServerId(url: string)
    requires url == CommitUrl("http://h/transaction", "5")
    ensures GetTransactionId(JStr(url)) == Returns(JStr("db/data/transaction/5"))
  {
    MarkerAtEight(url);
    assert !IsNumber(JStr(url)) by { assert !IsDigit(url[0]); }
    assert |url| == 49;
    var id := url[21..42];
    assert id == "db/data/transaction/5";
    assert Slice(url, 21, -7) == id;
  }

  lemma MarkerAtEight(url: string)
    requires url == CommitUrl("http://h/transaction", "5")
    ensures IndexOf(url, TransactionMarker) == 8
  {
    var m := TransactionMarker;
    assert url[8..20] == m;
    assert OccursAt(url, m, 8);
    forall k | 0 <= k < 8
      ensures !OccursAt(url, m, k)
    {
      assert url[k..k + 12][0] == url[k] && url[k..k + 12][1] == url[k + 1];
      assert url[k] != '/' || url[k + 1] != 't';
    }
  }
}
