/** The pictures service: the route table filled at load time, the three
    handlers that bracket one db operation between `connect` and
    `disconnect`, and `main`, which turns the lookup result and the
    handler's fate into a response. The db is abstract: every call is
    recorded, and its answer comes from a reply function, so any call may
    fail. */
module Pictures {
  import opened Values
  import opened Routes

  datatype Handler = GetPictureHandler | PostPictureHandler | LikePictureHandler

  /** An incoming request; `body` is what `json(req)` settles with. */
  datatype Request = Request(verb: string, url: string, body: Result<Value>)

  /** What `send(res, status, body)` puts on the wire. */
  datatype Response = Response(status: int, body: Value)

  /** How a handler ends: it sent a response, or it threw. */
  datatype Outcome = Sent(response: Response) | Threw(error: Error)

  /** A call a handler makes on the db. */
  datatype DbCall =
    | Connect
    | Disconnect
    | GetImage(id: Value)
    | SaveImage(image: Value)
    | LikeImage(id: Value)

  /** The answer the db gives to the call it receives at a given position. */
  type Replies = (nat, DbCall) -> Result<Value>

  // ---------------------------------------------------------------------
  // The route key
  // ---------------------------------------------------------------------

  /** `toUpperCase` on one character (ASCII letters only). */
  function UpperChar(c: char): char {
    if 'a' <= c <= 'z' then (c as int - 32) as char else c
  }

  function ToUpper(s: string): (u: string)
    ensures |u| == |s|
    ensures forall i :: 0 <= i < |s| ==> u[i] == UpperChar(s[i])
    decreases |s|
  {
    if s == [] then [] else [UpperChar(s[0])] + ToUpper(s[1..])
  }

  /** Upper-casing leaves no lower-case letter, and doing it twice changes nothing. */
  lemma ToUpperIdempotent(s: string)
    ensures forall i :: 0 <= i < |s| ==> !('a' <= ToUpper(s)[i] <= 'z')
    ensures ToUpper(ToUpper(s)) == ToUpper(s)
  {
  }

  /** The key looked up for a request: the upper-cased method, one space, the raw url. */
  function RouteKey(verb: string, url: string): (key: string)
    ensures |key| == |verb| + 1 + |url|
    ensures key[..|verb|] == ToUpper(verb) && key[|verb|] == ' ' && key[|verb| + 1..] == url
  {
    ToUpper(verb) + " " + url
  }

  /** A key cut at its first space. */
  function SplitKey(key: string): (string, string)
    decreases |key|
  {
    if key == [] then ("", "")
    else if key[0] == ' ' then ("", key[1..])
    else
      var (m, u) := SplitKey(key[1..]);
      ([key[0]] + m, u)
  }

  lemma {:induction false} SplitKeyAt(m: string, u: string)
    requires ' ' !in m
    ensures SplitKey(m + " " + u) == (m, u)
    decreases |m|
  {
    var key := m + " " + u;
    if m == [] {
      assert key[0] == ' ' && key[1..] == u;
    } else {
      assert m[0] in m;
      assert key[0] == m[0] && key[1..] == m[1..] + " " + u;
      SplitKeyAt(m[1..], u);
      assert [m[0]] + m[1..] == m;
    }
  }

  /** The key determines the upper-cased method and the url, for a method without spaces. */
  lemma RouteKeyRoundTrip(verb: string, url: string)
    requires ' ' !in verb
    ensures SplitKey(RouteKey(verb, url)) == (ToUpper(verb), url)
  {
    assert ' ' !in ToUpper(verb) by {
      forall i | 0 <= i < |verb| ensures ToUpper(verb)[i] != ' ' {
        assert verb[i] in verb;
      }
    }
    SplitKeyAt(ToUpper(verb), url);
  }

  // ---------------------------------------------------------------------
  // The route table
  // ---------------------------------------------------------------------

  const GetPattern := "GET /:id"
  const PostPattern := "POST /"
  const LikePattern := "POST /:id/like"

  /** The routes the service registers, in registration order. */
  function Registered(): seq<Route<Handler>> {
    [ Route([Literal("GET "), Param("id")], GetPictureHandler),
      Route([Literal("POST "), Literal("")], PostPictureHandler),
      Route([Literal("POST "), Param("id"), Literal("like")], LikePictureHandler) ]
  }

  /** The three pattern strings parse to the registered segment lists. */
  lemma ParsedPatterns()
    ensures ParsePattern(GetPattern) == Registered()[0].pattern
    ensures ParsePattern(PostPattern) == Registered()[1].pattern
    ensures ParsePattern(LikePattern) == Registered()[2].pattern
  {
    ParsedGetPattern();
    ParsedPostPattern();
    ParsedLikePattern();
  }

  lemma ParsedGetPattern()
    ensures ParsePattern(GetPattern) == [Literal("GET "), Param("id")]
  {
    var g := ["GET ", ":id"];
    assert g[1..] == [":id"];
    assert Join(g) == GetPattern;
    ParseJoined(g);
    assert ":id"[1..] == "id";
  }

  lemma ParsedPostPattern()
    ensures ParsePattern(PostPattern) == [Literal("POST "), Literal("")]
  {
    var p := ["POST ", ""];
    assert p[1..] == [""];
    assert Join(p) == PostPattern;
    ParseJoined(p);
  }

  lemma ParsedLikePattern()
    ensures ParsePattern(LikePattern) == [Literal("POST "), Param("id"), Literal("like")]
  {
    var l := ["POST ", ":id", "like"];
    assert l[1..] == [":id", "like"] && l[1..][1..] == ["like"];
    assert Join(l) == LikePattern;
    ParseJoined(l);
    assert ":id"[1..] == "id";
  }

  /** Parsing segments glued with '/' parses each segment. */
  lemma ParseJoined(segs: seq<string>)
    requires |segs| >= 1 && forall i :: 0 <= i < |segs| ==> '/' !in segs[i]
    ensures ParsePattern(Join(segs)) == seq(|segs|, i requires 0 <= i < |segs| => ParseSegment(segs[i]))
  {
    SplitJoin(segs);
  }

  /** No key fits two registered patterns, so the order of the routes
      does not decide which handler runs. */
  lemma RegisteredDisjoint(key: string)
    ensures forall i, j :: 0 <= i < j < |Registered()| ==>
      !(Fits(Registered()[i].pattern, Split(key)) && Fits(Registered()[j].pattern, Split(key)))
  {
  }

  /** The route table as the service builds it at load time. */
  method LoadRoutes() returns (table: RouteTable<Handler>)
    ensures fresh(table) && table.routes == Registered()
  {
    table := new RouteTable();
    table.Set(GetPattern, GetPictureHandler);
    table.Set(PostPattern, PostPictureHandler);
    table.Set(LikePattern, LikePictureHandler);
    ParsedPatterns();
  }

  lemma UpperFreeOf(verb: string, c: char)
    requires c !in verb && !('a' <= c <= 'z') && !('A' <= c <= 'Z')
    ensures c !in ToUpper(verb)
  {
    forall i | 0 <= i < |verb| ensures ToUpper(verb)[i] != c {
      assert verb[i] in verb;
    }
  }

  /** `GET /<id>` reaches the picture getter with that id. */
  lemma RouteGetPicture(verb: string, id: string)
    requires ToUpper(verb) == "GET" && id != "" && '/' !in id
    ensures Lookup(Registered(), RouteKey(verb, "/" + id)) == Found(GetPictureHandler, map["id" := id])
  {
    var key := RouteKey(verb, "/" + id);
    assert key == "GET " + "/" + id;
    SplitAtSlash("GET ", id);
    SplitNoSlash(id);
    var segs := Split(key);
    assert segs == ["GET ", id];
    var routes := Registered();
    assert Fits(routes[0].pattern, segs);
    LookupFirstFit(routes, key, 0);
    assert MatchSegments(routes[0].pattern, segs).value == map["id" := id];
  }

  /** `POST /` reaches the picture creator with no parameters. */
  lemma RoutePostPicture(verb: string)
    requires ToUpper(verb) == "POST"
    ensures Lookup(Registered(), RouteKey(verb, "/")) == Found(PostPictureHandler, map[])
  {
    var key := RouteKey(verb, "/");
    assert key == "POST " + "/" + "";
    SplitAtSlash("POST ", "");
    SplitNoSlash("");
    var segs := Split(key);
    assert segs == ["POST ", ""];
    var routes := Registered();
    assert !SegmentFits(routes[0].pattern[0], segs[0]) by {
      assert |"GET "| != |"POST "|;
    }
    assert Fits(routes[1].pattern, segs);
    LookupFirstFit(routes, key, 1);
    assert MatchSegments(routes[1].pattern, segs).value == map[];
  }

  /** `POST /<id>/like` reaches the liker with that id. */
  lemma RouteLikePicture(verb: string, id: string)
    requires ToUpper(verb) == "POST" && id != "" && '/' !in id
    ensures Lookup(Registered(), RouteKey(verb, "/" + id + "/like")) == Found(LikePictureHandler, map["id" := id])
  {
    var key := RouteKey(verb, "/" + id + "/like");
    LikeKeySegments(verb, id);
    var segs := Split(key);
    var routes := Registered();
    assert !SegmentFits(routes[0].pattern[0], segs[0]) by {
      assert |"GET "| != |"POST "|;
    }
    assert |routes[1].pattern| != |segs|;
    assert Fits(routes[2].pattern, segs);
    LookupFirstFit(routes, key, 2);
    assert MatchSegments(routes[2].pattern, segs).value == map["id" := id];
  }

  lemma LikeKeySegments(verb: string, id: string)
    requires ToUpper(verb) == "POST" && '/' !in id
    ensures Split(RouteKey(verb, "/" + id + "/like")) == ["POST ", id, "like"]
  {
    assert RouteKey(verb, "/" + id + "/like") == "POST " + "/" + (id + "/" + "like");
    SplitAtSlash("POST ", id + "/" + "like");
    SplitAtSlash(id, "like");
    SplitNoSlash("like");
  }

  lemma FirstWordDiffers(m: string, p: string, w: string)
    requires ' ' !in m && ' ' !in w && m != w
    ensures m + " " + p != w + " "
  {
    var k := m + " " + p;
    var v := w + " ";
    if |m| < |w| {
      assert k[|m|] != v[|m|] by {
        assert w[|m|] in w;
      }
    } else if |m| > |w| {
      assert k[|w|] != v[|w|] by {
        assert m[|w|] in m;
      }
    } else {
      assert k[..|m|] == m && v[..|m|] == w;
    }
  }

  /** A method other than GET and POST (such as DELETE) finds no handler, whatever the url. */
  lemma RouteUnknownMethod(verb: string, url: string)
    requires ToUpper(verb) != "GET" && ToUpper(verb) != "POST"
    requires ' ' !in verb && '/' !in verb
    ensures Lookup(Registered(), RouteKey(verb, url)) == NoHandler
  {
    KeyHead(verb, url);
    UpperFreeOf(verb, ' ');
    HeadNotRegistered(ToUpper(verb), Split(url)[0]);
    NoRouteFits(RouteKey(verb, url));
  }

  lemma HeadNotRegistered(m: string, p: string)
    requires ' ' !in m && m != "GET" && m != "POST"
    ensures m + " " + p != "GET " && m + " " + p != "POST "
  {
    FirstWordDiffers(m, p, "GET");
    FirstWordDiffers(m, p, "POST");
    assert "GET" + " " == "GET " && "POST" + " " == "POST ";
  }

  /** The first segment of a key is the upper-cased method, a space, and the url's first segment. */
  lemma KeyHead(verb: string, url: string)
    requires '/' !in verb
    ensures Split(RouteKey(verb, url))[0] == ToUpper(verb) + " " + Split(url)[0]
  {
    var m := ToUpper(verb);
    UpperFreeOf(verb, '/');
    assert '/' !in m + " ";
    assert RouteKey(verb, url) == (m + " ") + url;
    SplitHead(m + " ", url);
  }

  lemma NoRouteFits(key: string)
    requires Split(key)[0] != "GET " && Split(key)[0] != "POST "
    ensures Lookup(Registered(), key) == NoHandler
  {
    var routes := Registered();
    forall i | 0 <= i < |routes| ensures !Fits(routes[i].pattern, Split(key)) {
      assert routes[i].pattern[0] == Literal("GET ") || routes[i].pattern[0] == Literal("POST ");
      assert !SegmentFits(routes[i].pattern[0], Split(key)[0]);
    }
  }

  // ---------------------------------------------------------------------
  // Handlers as a reference definition
  // ---------------------------------------------------------------------

  /** `params.name`: undefined when the route bound no such parameter. */
  function ParamValue(params: map<string, string>, name: string): Value {
    if name in params then Str(params[name]) else Undefined
  }

  /** The one db operation a handler performs; the picture creator first
      needs the parsed body and throws its parse error. */
  function Operation(h: Handler, params: map<string, string>, body: Result<Value>): (op: Result<DbCall>)
    ensures op.Failure? <==> h == PostPictureHandler && body.Failure?
    ensures op.Failure? ==> op.error == body.error
    ensures op.Success? ==> !op.value.Connect? && !op.value.Disconnect?
    ensures op.Success? ==> (op.value.GetImage? <==> h == GetPictureHandler)
    ensures op.Success? ==> (op.value.SaveImage? <==> h == PostPictureHandler)
    ensures op.Success? ==> (op.value.LikeImage? <==> h == LikePictureHandler)
    ensures op.Success? && !op.value.SaveImage? ==> op.value.id == ParamValue(params, "id")
    ensures op.Success? && op.value.SaveImage? ==> body.Success? && op.value.image == body.value
  {
    match h
    case GetPictureHandler => Success(GetImage(ParamValue(params, "id")))
    case PostPictureHandler => if body.Success? then Success(SaveImage(body.value)) else Failure(body.error)
    case LikePictureHandler => Success(LikeImage(ParamValue(params, "id")))
  }

  /** The status a handler sends on success: 201 for creation, 200 otherwise. */
  function SuccessStatus(h: Handler): (status: int)
    ensures 200 <= status < 300
    ensures status == 201 <==> h == PostPictureHandler
  {
    if h == PostPictureHandler then 201 else 200
  }

  /** The calls a handler makes when nothing fails, in order. */
  function Bracket(op: DbCall): seq<DbCall> {
    [Connect, op, Disconnect]
  }

  /** Awaiting calls one after another: all of them answer, or the first
      rejection stops the rest. */
  datatype Run = Completed(values: seq<Value>) | Stopped(at: nat, error: Error)

  function RunCalls(calls: seq<DbCall>, from: nat, reply: Replies): (r: Run)
    ensures r.Completed? ==> |r.values| == |calls|
    ensures r.Completed? ==> forall i :: 0 <= i < |calls| ==> reply(from + i, calls[i]) == Success(r.values[i])
    ensures r.Stopped? ==> r.at < |calls| && reply(from + r.at, calls[r.at]) == Failure(r.error)
    ensures r.Stopped? ==> forall i :: 0 <= i < r.at ==> reply(from + i, calls[i]).Success?
    decreases |calls|
  {
    if calls == [] then Completed([])
    else
      match reply(from, calls[0])
      case Failure(e) => Stopped(0, e)
      case Success(v) =>
        match RunCalls(calls[1..], from + 1, reply)
        case Completed(vs) => Completed([v] + vs)
        case Stopped(k, e) => Stopped(k + 1, e)
  }

  /** A handler's fate together with the calls it made. */
  datatype Trace = Trace(outcome: Outcome, calls: seq<DbCall>)

  /** A handler that performs `op` bracketed by connect and disconnect and
      then sends `status` with what `op` returned. */
  function RunHandler(op: Result<DbCall>, status: int, from: nat, reply: Replies): (t: Trace)
    ensures op.Failure? ==> t == Trace(Threw(op.error), [])
    ensures op.Success? ==> 1 <= |t.calls| <= 3 && t.calls == Bracket(op.value)[..|t.calls|]
    ensures t.outcome.Sent? ==>
      op.Success? && t.calls == Bracket(op.value)
      && reply(from, Connect).Success? && reply(from + 1, op.value).Success? && reply(from + 2, Disconnect).Success?
      && t.outcome.response == Response(status, reply(from + 1, op.value).value)
    ensures op.Success? && t.outcome.Threw? ==>
      reply(from + |t.calls| - 1, t.calls[|t.calls| - 1]) == Failure(t.outcome.error)
  {
    match op
    case Failure(e) => Trace(Threw(e), [])
    case Success(c) =>
      var plan := Bracket(c);
      assert plan[0] == Connect && plan[1] == c && plan[2] == Disconnect && from + 0 == from;
      match RunCalls(plan, from, reply)
      case Completed(vs) => Trace(Sent(Response(status, vs[1])), plan)
      case Stopped(k, e) => Trace(Threw(e), plan[..k + 1])
  }

  function Handle(h: Handler, params: map<string, string>, body: Result<Value>, from: nat, reply: Replies): (t: Trace)
    ensures t.outcome.Sent? ==> t.outcome.response.status == SuccessStatus(h) && |t.calls| == 3
    ensures t.calls == [] <==> Operation(h, params, body).Failure?
    ensures t.calls != [] ==> t.calls[0] == Connect
  {
    RunHandler(Operation(h, params, body), SuccessStatus(h), from, reply)
  }

  /** The strict order of a handler: connect, the operation, disconnect,
      send. Each failure ends the handler with that failure, and no later
      call is made. */
  lemma {:induction false} BracketOrder(op: DbCall, status: int, from: nat, reply: Replies)
    ensures var t := RunHandler(Success(op), status, from, reply);
      var r0 := reply(from, Connect);
      var r1 := reply(from + 1, op);
      var r2 := reply(from + 2, Disconnect);
      if r0.Failure? then t == Trace(Threw(r0.error), [Connect])
      else if r1.Failure? then t == Trace(Threw(r1.error), [Connect, op])
      else if r2.Failure? then t == Trace(Threw(r2.error), [Connect, op, Disconnect])
      else t == Trace(Sent(Response(status, r1.value)), [Connect, op, Disconnect])
  {
    var plan := Bracket(op);
    var r := RunCalls(plan, from, reply);
    assert plan[0] == Connect && plan[1] == op && plan[2] == Disconnect;
    assert from + 0 == from;
    if r.Stopped? {
      assert plan[..1] == [Connect] && plan[..2] == [Connect, op] && plan[..3] == plan;
    }
  }

  /** Where the db is left: a successful connect sets the flag, a
      successful disconnect clears it, anything else leaves it. */
  function Step(connected: bool, call: DbCall, r: Result<Value>): bool {
    if r.Failure? then connected
    else if call == Connect then true
    else if call == Disconnect then false
    else connected
  }

  function ConnectedAfter(connected: bool, calls: seq<DbCall>, from: nat, reply: Replies): bool
    decreases |calls|
  {
    if calls == [] then connected
    else ConnectedAfter(Step(connected, calls[0], reply(from, calls[0])), calls[1..], from + 1, reply)
  }

  lemma {:induction false} ConnectedAfterSnoc(connected: bool, calls: seq<DbCall>, c: DbCall, from: nat, reply: Replies)
    ensures ConnectedAfter(connected, calls + [c], from, reply)
      == Step(ConnectedAfter(connected, calls, from, reply), c, reply(from + |calls|, c))
    decreases |calls|
  {
    if calls == [] {
      assert [c][1..] == [];
    } else {
      assert (calls + [c])[0] == calls[0] && (calls + [c])[1..] == calls[1..] + [c];
      ConnectedAfterSnoc(Step(connected, calls[0], reply(from, calls[0])), calls[1..], c, from + 1, reply);
    }
  }

  // ---------------------------------------------------------------------
  // Main as a reference definition, and what it guarantees
  // ---------------------------------------------------------------------

  function ErrorBody(message: string): Value {
    Obj(map["error" := Str(message)])
  }

  const NotFound := Response(404, ErrorBody("route not found"))

  /** What `main` sends once a handler ran. */
  function Respond(out: Outcome): (r: Response)
    ensures out.Sent? ==> r == out.response
    ensures out.Threw? ==> r.status == 500 && Prop(r.body, "error") == Str(out.error.message)
  {
    match out
    case Sent(r) => r
    case Threw(e) => Response(500, ErrorBody(e.message))
  }

  /** The response to a request and the db calls made for it. */
  datatype Served = Served(response: Response, calls: seq<DbCall>)

  function Serve(routes: seq<Route<Handler>>, req: Request, from: nat, reply: Replies): (s: Served)
    ensures |s.calls| <= 3
    ensures s.calls != [] ==> s.calls[0] == Connect && Lookup(routes, RouteKey(req.verb, req.url)).Found?
    ensures s.response.status in {200, 201, 404, 500}
  {
    match Lookup(routes, RouteKey(req.verb, req.url))
    case NoHandler => Served(NotFound, [])
    case Found(h, params) =>
      var t := Handle(h, params, req.body, from, reply);
      Served(Respond(t.outcome), t.calls)
  }

  /** The status a request gets: 404 exactly when no route fits, 500
      exactly when the handler threw (whatever the failure), and otherwise
      the handler's own success status with the operation's result. */
  lemma ServeStatus(routes: seq<Route<Handler>>, req: Request, from: nat, reply: Replies)
    ensures var s := Serve(routes, req, from, reply);
      var m := Lookup(routes, RouteKey(req.verb, req.url));
      && (s.response.status == 404 <==> m.NoHandler?)
      && (m.NoHandler? ==> s == Served(NotFound, []))
      && (s.response.status == 500 <==> m.Found? && Handle(m.handler, m.params, req.body, from, reply).outcome.Threw?)
      && (m.Found? && Handle(m.handler, m.params, req.body, from, reply).outcome.Threw? ==>
            s.response == Response(500, ErrorBody(Handle(m.handler, m.params, req.body, from, reply).outcome.error.message)))
      && (m.Found? && Handle(m.handler, m.params, req.body, from, reply).outcome.Sent? ==>
            && s.response.status == SuccessStatus(m.handler)
            && s.calls == Bracket(Operation(m.handler, m.params, req.body).value)
            && s.response.body == reply(from + 1, Operation(m.handler, m.params, req.body).value).value)
  {
    var m := Lookup(routes, RouteKey(req.verb, req.url));
    if m.Found? {
      var op := Operation(m.handler, m.params, req.body);
      if op.Success? {
        BracketOrder(op.value, SuccessStatus(m.handler), from, reply);
      }
    }
  }

  /** A request that no route fits makes no db call at all. */
  lemma NoRouteNoDbCall(routes: seq<Route<Handler>>, req: Request, from: nat, reply: Replies, connected: bool)
    requires Lookup(routes, RouteKey(req.verb, req.url)).NoHandler?
    ensures Serve(routes, req, from, reply).calls == []
    ensures ConnectedAfter(connected, Serve(routes, req, from, reply).calls, from, reply) == connected
  {
  }

  /** When the operation fails, disconnect is never called, no success is
      sent, and the db stays connected. */
  lemma FailingOperationSkipsDisconnect(h: Handler, params: map<string, string>, body: Result<Value>,
                                        from: nat, reply: Replies, connected: bool)
    requires Operation(h, params, body).Success?
    requires reply(from, Connect).Success?
    requires reply(from + 1, Operation(h, params, body).value).Failure?
    ensures var t := Handle(h, params, body, from, reply);
      && t.calls == [Connect, Operation(h, params, body).value]
      && Disconnect !in t.calls
      && t.outcome == Threw(reply(from + 1, Operation(h, params, body).value).error)
      && ConnectedAfter(connected, t.calls, from, reply)
  {
    var op := Operation(h, params, body).value;
    BracketOrder(op, SuccessStatus(h), from, reply);
    ConnectedAfterSnoc(connected, [Connect], op, from, reply);
    ConnectedAfterSnoc(connected, [], Connect, from, reply);
    assert [] + [Connect] == [Connect] && [Connect] + [op] == [Connect, op];
  }

  /** When connect fails, nothing else is called and the connection state is as before. */
  lemma FailingConnectStopsHandler(h: Handler, params: map<string, string>, body: Result<Value>,
                                   from: nat, reply: Replies, connected: bool)
    requires Operation(h, params, body).Success?
    requires reply(from, Connect).Failure?
    ensures var t := Handle(h, params, body, from, reply);
      && t.calls == [Connect]
      && t.outcome == Threw(reply(from, Connect).error)
      && ConnectedAfter(connected, t.calls, from, reply) == connected
  {
    BracketOrder(Operation(h, params, body).value, SuccessStatus(h), from, reply);
    ConnectedAfterSnoc(connected, [], Connect, from, reply);
    assert [] + [Connect] == [Connect];
  }

  /** A handler that sends its success made all three calls and left the db disconnected. */
  lemma SuccessfulHandlerDisconnects(h: Handler, params: map<string, string>, body: Result<Value>,
                                     from: nat, reply: Replies, connected: bool)
    requires Handle(h, params, body, from, reply).outcome.Sent?
    ensures Operation(h, params, body).Success?
    ensures var t := Handle(h, params, body, from, reply);
      && t.calls == Bracket(Operation(h, params, body).value)
      && !ConnectedAfter(connected, t.calls, from, reply)
  {
    var op := Operation(h, params, body).value;
    BracketOrder(op, SuccessStatus(h), from, reply);
    ConnectedAfterSnoc(connected, [Connect, op], Disconnect, from, reply);
    assert [Connect, op] + [Disconnect] == Bracket(op);
  }

  /** The picture creator parses the body before touching the db; a parse
      error is thrown and no db call is made. */
  lemma ParseErrorBeforeDb(params: map<string, string>, body: Result<Value>, from: nat, reply: Replies)
    requires body.Failure?
    ensures Handle(PostPictureHandler, params, body, from, reply) == Trace(Threw(body.error), [])
  {
  }

  // ---------------------------------------------------------------------
  // The imperative service
  // ---------------------------------------------------------------------

  /** The db a handler talks to: it records each call and answers it
      with `reply`, and tracks whether it is connected. */
  class DbClient {
    var connected: bool
    var calls: seq<DbCall>
    const reply: Replies

    constructor (reply: Replies)
      ensures !connected && calls == [] && this.reply == reply
    {
      connected := false;
      calls := [];
      this.reply := reply;
    }

    /** One awaited call on the db. */
    method Invoke(c: DbCall) returns (r: Result<Value>)
      modifies this
      ensures calls == old(calls) + [c]
      ensures r == reply(|old(calls)|, c)
      ensures connected == Step(old(connected), c, r)
    {
      r := reply(|calls|, c);
      connected := Step(connected, c, r);
      calls := calls + [c];
    }
  }

  /** Between the two states, the db received exactly `made`, in order, and
      its connection state is what those calls produce. */
  twostate predicate Followed(db: DbClient, made: seq<DbCall>)
    reads db
  {
    && db.calls == old(db.calls) + made
    && db.connected == ConnectedAfter(old(db.connected), made, |old(db.calls)|, db.reply)
  }

  /** Connect, run `op`, disconnect, then send `status` with the result of `op`. */
  method Bracketed(db: DbClient, op: DbCall, status: int) returns (out: Outcome)
    modifies db
    ensures var t := RunHandler(Success(op), status, old(|db.calls|), db.reply);
      out == t.outcome && Followed(db, t.calls)
  {
    ghost var from := |db.calls|;
    ghost var c0 := db.connected;
    BracketOrder(op, status, from, db.reply);
    BracketConnected(c0, op, from, db.reply);
    var c := db.Invoke(Connect);
    if c.Failure? {
      return Threw(c.error);
    }
    var image := db.Invoke(op);
    if image.Failure? {
      return Threw(image.error);
    }
    var d := db.Invoke(Disconnect);
    if d.Failure? {
      return Threw(d.error);
    }
    out := Sent(Response(status, image.value));
  }

  /** The connection state after each prefix of a bracketed handler. */
  lemma BracketConnected(connected: bool, op: DbCall, from: nat, reply: Replies)
    ensures ConnectedAfter(connected, [Connect], from, reply)
      == Step(connected, Connect, reply(from, Connect))
    ensures ConnectedAfter(connected, [Connect, op], from, reply)
      == Step(Step(connected, Connect, reply(from, Connect)), op, reply(from + 1, op))
    ensures ConnectedAfter(connected, [Connect, op, Disconnect], from, reply)
      == Step(Step(Step(connected, Connect, reply(from, Connect)), op, reply(from + 1, op)), Disconnect, reply(from + 2, Disconnect))
  {
    ConnectedAfterSnoc(connected, [], Connect, from, reply);
    assert [] + [Connect] == [Connect];
    ConnectedAfterSnoc(connected, [Connect], op, from, reply);
    assert [Connect] + [op] == [Connect, op];
    ConnectedAfterSnoc(connected, [Connect, op], Disconnect, from, reply);
    assert [Connect, op] + [Disconnect] == [Connect, op, Disconnect];
  }

  /** `GET /:id`: connect, `getImage(params.id)`, disconnect, send 200. */
  method GetPicture(db: DbClient, params: map<string, string>) returns (out: Outcome)
    modifies db
    ensures var t := RunHandler(Success(GetImage(ParamValue(params, "id"))), 200, old(|db.calls|), db.reply);
      out == t.outcome && Followed(db, t.calls)
  {
    var id := ParamValue(params, "id");
    out := Bracketed(db, GetImage(id), 200);
  }

  /** `POST /`: parse the body, connect, `saveImage(body)`, disconnect, send 201. */
  method PostPicture(db: DbClient, parsed: Result<Value>) returns (out: Outcome)
    modifies db
    ensures var t := RunHandler(if parsed.Success? then Success(SaveImage(parsed.value)) else Failure(parsed.error),
                                201, old(|db.calls|), db.reply);
      out == t.outcome && Followed(db, t.calls)
  {
    if parsed.Failure? {
      return Threw(parsed.error);
    }
    out := Bracketed(db, SaveImage(parsed.value), 201);
  }

  /** `POST /:id/like`: connect, `likeImage(params.id)`, disconnect, send 200. */
  method LikePicture(db: DbClient, params: map<string, string>) returns (out: Outcome)
    modifies db
    ensures var t := RunHandler(Success(LikeImage(ParamValue(params, "id"))), 200, old(|db.calls|), db.reply);
      out == t.outcome && Followed(db, t.calls)
  {
    var id := ParamValue(params, "id");
    out := Bracketed(db, LikeImage(id), 200);
  }

  /** Looks the request up, runs the handler it finds, and answers 500
      with the error's message when the handler throws, or 404 when no
      route fits. */
  method Dispatch(req: Request, table: RouteTable<Handler>, db: DbClient) returns (resp: Response)
    modifies db
    ensures var s := Serve(table.routes, req, old(|db.calls|), db.reply);
      resp == s.response && Followed(db, s.calls)
  {
    var m := table.Get(RouteKey(req.verb, req.url));
    match m {
      case NoHandler =>
        resp := NotFound;
      case Found(h, params) =>
        var out: Outcome;
        match h {
          case GetPictureHandler =>
            out := GetPicture(db, params);
          case PostPictureHandler =>
            out := PostPicture(db, req.body);
          case LikePictureHandler =>
            out := LikePicture(db, params);
        }
        resp := Respond(out);
    }
  }
}
