/** The route table the dispatcher fills at load time and consults per
    request. A route key is split on '/'; a pattern segment written
    `:name` binds one non-empty segment, any other segment must match
    literally. */
module Routes {
  import opened Values

  /** The segments of `s` between its '/' characters (`String.split('/')`). */
  function Split(s: string): (segs: seq<string>)
    ensures |segs| >= 1
    ensures forall i :: 0 <= i < |segs| ==> '/' !in segs[i]
    decreases |s|
  {
    if s == [] then [""]
    else if s[0] == '/' then [""] + Split(s[1..])
    else
      var rest := Split(s[1..]);
      [[s[0]] + rest[0]] + rest[1..]
  }

  /** The segments glued back with '/' between them. */
  function Join(segs: seq<string>): string
    requires |segs| >= 1
    decreases |segs|
  {
    if |segs| == 1 then segs[0] else segs[0] + "/" + Join(segs[1..])
  }

  lemma {:induction false} JoinSplit(s: string)
    ensures Join(Split(s)) == s
    decreases |s|
  {
    if s == [] {
    } else if s[0] == '/' {
      JoinSplit(s[1..]);
      var tail := Split(s[1..]);
      var segs := [""] + tail;
      assert Split(s) == segs;
      assert segs[0] == "" && segs[1..] == tail;
      assert Join(segs) == "" + "/" + Join(tail);
      assert s == [s[0]] + s[1..];
    } else {
      JoinSplit(s[1..]);
      var rest := Split(s[1..]);
      var segs := [[s[0]] + rest[0]] + rest[1..];
      assert Split(s) == segs;
      assert s == [s[0]] + s[1..];
      JoinConsChar(s[0], rest);
    }
  }

  /** Gluing a character onto the first segment glues it onto the whole. */
  lemma JoinConsChar(c: char, rest: seq<string>)
    requires |rest| >= 1
    ensures Join([[c] + rest[0]] + rest[1..]) == [c] + Join(rest)
  {
    var segs := [[c] + rest[0]] + rest[1..];
    if |rest| > 1 {
      assert segs[1..] == rest[1..];
      assert Join(segs) == ([c] + rest[0]) + "/" + Join(rest[1..]);
    }
  }

  lemma {:induction false} SplitNoSlash(a: string)
    requires '/' !in a
    ensures Split(a) == [a]
    decreases |a|
  {
    if a != [] {
      assert a[0] in a;
      SplitNoSlash(a[1..]);
      assert [a[0]] + a[1..] == a;
    }
  }

  lemma {:induction false} SplitAtSlash(a: string, t: string)
    requires '/' !in a
    ensures Split(a + "/" + t) == [a] + Split(t)
    decreases |a|
  {
    var x := a + "/" + t;
    if a == [] {
      assert x[0] == '/' && x[1..] == t;
    } else {
      assert a[0] in a;
      assert x[0] == a[0] && x[1..] == a[1..] + "/" + t;
      SplitAtSlash(a[1..], t);
      var rest := Split(x[1..]);
      assert rest == [a[1..]] + Split(t);
      assert rest[0] == a[1..] && rest[1..] == Split(t);
      assert [a[0]] + a[1..] == a;
    }
  }

  lemma {:induction false} SplitJoin(segs: seq<string>)
    requires |segs| >= 1
    requires forall i :: 0 <= i < |segs| ==> '/' !in segs[i]
    ensures Split(Join(segs)) == segs
    decreases |segs|
  {
    if |segs| == 1 {
      SplitNoSlash(segs[0]);
    } else {
      SplitJoin(segs[1..]);
      SplitAtSlash(segs[0], Join(segs[1..]));
    }
  }

  /** The first segment of `a + t` when `a` holds no '/'. */
  lemma {:induction false} SplitHead(a: string, t: string)
    requires '/' !in a
    ensures Split(a + t)[0] == a + Split(t)[0]
    decreases |a|
  {
    if a == [] {
      assert a + t == t;
    } else {
      assert (a + t)[1..] == a[1..] + t;
      SplitHead(a[1..], t);
    }
  }

  datatype Segment = Literal(text: string) | Param(name: string)

  function ParseSegment(seg: string): Segment {
    if |seg| > 0 && seg[0] == ':' then Param(seg[1..]) else Literal(seg)
  }

  /** A pattern string as a list of segments. */
  function ParsePattern(pattern: string): (pat: seq<Segment>)
    ensures |pat| == |Split(pattern)|
    ensures forall i :: 0 <= i < |pat| ==> pat[i] == ParseSegment(Split(pattern)[i])
    ensures forall i :: 0 <= i < |pat| ==>
      (pat[i].Param? <==> Split(pattern)[i] != "" && Split(pattern)[i][0] == ':')
    ensures forall i :: 0 <= i < |pat| && pat[i].Param? ==> pat[i].name == Split(pattern)[i][1..]
    ensures forall i :: 0 <= i < |pat| && pat[i].Literal? ==> pat[i].text == Split(pattern)[i]
  {
    var segs := Split(pattern);
    seq(|segs|, i requires 0 <= i < |segs| => ParseSegment(segs[i]))
  }

  predicate SegmentFits(p: Segment, seg: string) {
    match p
    case Literal(t) => t == seg
    case Param(_) => seg != ""
  }

  /** The key's segments fit the pattern position by position. */
  predicate Fits(pat: seq<Segment>, segs: seq<string>) {
    |pat| == |segs| && forall i :: 0 <= i < |pat| ==> SegmentFits(pat[i], segs[i])
  }

  /** Matches segments against a pattern, binding each parameter to its
      segment (the leftmost binding wins for a repeated name). */
  function MatchSegments(pat: seq<Segment>, segs: seq<string>): (r: Option<map<string, string>>)
    ensures r.Some? <==> Fits(pat, segs)
    ensures r.Some? ==> forall i :: 0 <= i < |pat| && pat[i].Param? ==> pat[i].name in r.value
    ensures r.Some? ==>
      forall n :: n in r.value ==> exists i :: 0 <= i < |pat| && pat[i] == Param(n) && segs[i] == r.value[n]
    decreases |pat|
  {
    if |pat| != |segs| then None
    else if pat == [] then Some(map[])
    else
      match MatchSegments(pat[1..], segs[1..])
      case None => None
      case Some(ps) =>
        match pat[0]
        case Literal(t) => if t == segs[0] then Some(ps) else None
        case Param(n) => if segs[0] != "" then Some(ps[n := segs[0]]) else None
  }

  datatype Route<H> = Route(pattern: seq<Segment>, handler: H)

  /** What `hash.get(key)` yields: a handler with its parameters, or none. */
  datatype Match<H> = Found(handler: H, params: map<string, string>) | NoHandler

  /** The first route whose pattern fits the key. */
  function Lookup<H>(routes: seq<Route<H>>, key: string): (m: Match<H>)
    ensures m.NoHandler? <==> forall i :: 0 <= i < |routes| ==> !Fits(routes[i].pattern, Split(key))
    ensures m.Found? ==>
      exists i :: 0 <= i < |routes| && routes[i].handler == m.handler && MatchSegments(routes[i].pattern, Split(key)) == Some(m.params)
    decreases |routes|
  {
    if routes == [] then NoHandler
    else
      match MatchSegments(routes[0].pattern, Split(key))
      case Some(ps) => Found(routes[0].handler, ps)
      case None =>
        var m := Lookup(routes[1..], key);
        assert forall i :: 0 < i < |routes| ==> routes[i] == routes[1..][i - 1];
        m
  }

  /** The route chosen is the first one whose pattern fits the key. */
  lemma {:induction false} LookupFirstFit<H>(routes: seq<Route<H>>, key: string, i: nat)
    requires i < |routes| && Fits(routes[i].pattern, Split(key))
    requires forall j :: 0 <= j < i ==> !Fits(routes[j].pattern, Split(key))
    ensures Lookup(routes, key) == Found(routes[i].handler, MatchSegments(routes[i].pattern, Split(key)).value)
    decreases i
  {
    if i > 0 {
      assert !Fits(routes[0].pattern, Split(key));
      assert forall j :: 0 <= j < i - 1 ==> routes[1..][j] == routes[j + 1];
      LookupFirstFit(routes[1..], key, i - 1);
    }
  }

  /** The route table, filled by successive `set` calls. */
  class RouteTable<H> {
    var routes: seq<Route<H>>

    constructor ()
      ensures routes == []
    {
      routes := [];
    }

    /** `hash.set(pattern, handler)` */
    method Set(pattern: string, handler: H)
      modifies this
      ensures routes == old(routes) + [Route(ParsePattern(pattern), handler)]
    {
      routes := routes + [Route(ParsePattern(pattern), handler)];
    }

    /** `hash.get(key)` */
    function Get(key: string): (m: Match<H>)
      reads this
      ensures m.NoHandler? <==> forall i :: 0 <= i < |routes| ==> !Fits(routes[i].pattern, Split(key))
      ensures m.Found? ==> exists i ::
        0 <= i < |routes| && routes[i].handler == m.handler && MatchSegments(routes[i].pattern, Split(key)) == Some(m.params)
    {
      Lookup(routes, key)
    }
  }
}
