/**
 * Browse results in pages (OPC UA Part 4, sections 5.8.2 and 5.8.3): the continuation points of a session and
 * the paging parts of the browse handlers (opcua/server/session.go and server_service_set.go).
 */
module BrowsePaging {
  import opened Bytes

  datatype Description = Description(target: nat, forward: bool, name: string)

  datatype Point = Point(data: seq<Description>, max: nat)

  /** The continuation points of a session. There is no limit when `limit` is not positive. */
  datatype Session = Session(points: map<u32, Point>, last: u32, limit: int)

  datatype Status = Good | NoContinuationPoints | ContinuationPointInvalid | Panic

  datatype Result = Result(status: Status, point: seq<byte>, references: seq<Description>)

  // ------------------------------------------------------------------ session

  predicate Full(s: Session)
  {
    s.limit > 0 && |s.points| >= s.limit
  }

  /** `addBrowseContinuationPoint`, when there is room. */
  function Stored(s: Session, p: Point): (s': Session)
  {
    var id := Inc32(s.last);
    s.(last := id, points := s.points[id := p])
  }

  /** `removeBrowseContinuationPoint` */
  function Taken(s: Session, id: u32): (s': Session)
  {
    s.(points := s.points - {id})
  }

  // ------------------------------------------------------------------ handlers

  /** The first page of `data`, and a continuation point for the rest. */
  function Paged(s: Session, data: seq<Description>, max: nat): (r: (Session, Result))
  {
    if |data| > max then
      if Full(s) then (s, Result(NoContinuationPoints, [], []))
      else (Stored(s, Point(data[max..], max)), Result(Good, PutU32(Inc32(s.last)), data[..max]))
    else (s, Result(Good, [], data))
  }

  /** The end of `handleBrowse` for one node; a maximum of zero asks for everything. */
  function Browse(s: Session, data: seq<Description>, max: nat): (r: (Session, Result))
  {
    if max > 0 then Paged(s, data, max) else (s, Result(Good, [], data))
  }

  /** `handleBrowseNext` for one continuation point; a point of one to three bytes makes the decoding fail. */
  function BrowseNext(s: Session, cp: seq<byte>, release: bool): (r: (Session, Result))
  {
    if |cp| == 0 then (s, Result(Good, [], []))
    else if |cp| < 4 then (s, Result(Panic, [], []))
    else
      var id := GetU32(cp);
      if id !in s.points then (s, Result(ContinuationPointInvalid, [], []))
      else
        var p, s1 := s.points[id], Taken(s, id);
        if release then (s1, Result(Good, [], [])) else Paged(s1, p.data, p.max)
  }

  // ------------------------------------------------------------------ single calls

  /** A maximum of zero asks for the whole list at once: no point is used, whatever the session holds. */
  lemma WholeList(s: Session, data: seq<Description>)
    ensures Browse(s, data, 0) == (s, Result(Good, [], data))
  {
  }

  /** With a maximum a list is refused exactly when it is too long for one page and no point is free. */
  lemma BrowseRefusedIff(s: Session, data: seq<Description>, max: nat)
    requires max > 0
    ensures var (s', r) := Browse(s, data, max);
            && (r.status == Good || r.status == NoContinuationPoints)
            && (r.status != Good <==> |data| > max && 0 < s.limit <= |s.points|)
            && (r.status != Good ==> s' == s && r.references == [] && r.point == [])
            && (r.status == Good ==> r.references == if |data| <= max then data else data[..max])
            && (r.status == Good && |data| <= max ==> s' == s && r.point == [])
  {
  }

  /** Releasing a point gives its slot back and returns nothing; the point cannot be used again. */
  lemma ReleaseFrees(s: Session, id: u32, release: bool)
    requires id in s.points
    ensures var (s', r) := BrowseNext(s, PutU32(id), true);
            && r == Result(Good, [], []) && |s'.points| == |s.points| - 1 && id !in s'.points
            && (forall k :: k in s.points && k != id ==> k in s'.points && s'.points[k] == s.points[k])
            && s'.last == s.last && s'.limit == s.limit
            && BrowseNext(s', PutU32(id), release) == (s', Result(ContinuationPointInvalid, [], []))
  {
    hide PutU32, GetU32;
    GetPutU32(id);
    assert s.points.Keys == (s.points - {id}).Keys + {id};
    assert |s.points.Keys| == |s.points| && |(s.points - {id}).Keys| == |s.points - {id}|;
  }

  /** Which points are refused, and how; whatever is refused changes nothing. */
  lemma PointRefusedIff(s: Session, cp: seq<byte>, release: bool)
    ensures var (s', r) := BrowseNext(s, cp, release);
            && (r.status == ContinuationPointInvalid <==> |cp| >= 4 && GetU32(cp) !in s.points)
            && (r.status == Panic <==> 1 <= |cp| <= 3)
            && (r.status == ContinuationPointInvalid || r.status == Panic ==>
                s' == s && r.references == [] && r.point == [])
            && (cp == [] ==> s' == s && r == Result(Good, [], []))
  {
    hide GetU32;
  }

  // ------------------------------------------------------------------ a chain returns the list once, in order

  /** The pages of a list. */
  function Pages(data: seq<Description>, max: nat): (pages: seq<seq<Description>>)
    requires max > 0
    ensures |pages| >= 1
    decreases |data|
  {
    if |data| <= max then [data] else [data[..max]] + Pages(data[max..], max)
  }

  function Concat(pages: seq<seq<Description>>): (r: seq<Description>)
  {
    if pages == [] then [] else pages[0] + Concat(pages[1..])
  }

  /** They hold the list exactly once and in order; all but the last are full, and no page is too long. */
  lemma {:induction false} PagesSplit(data: seq<Description>, max: nat)
    requires max > 0
    ensures var pages := Pages(data, max);
            && Concat(pages) == data
            && (forall i :: 0 <= i < |pages| ==> |pages[i]| <= max)
            && (forall i :: 0 <= i < |pages| - 1 ==> |pages[i]| == max)
            && (data != [] ==> forall i :: 0 <= i < |pages| ==> pages[i] != [])
    decreases |data|
  {
    if |data| > max {
      PagesSplit(data[max..], max);
      var pages, rest := Pages(data, max), Pages(data[max..], max);
      assert pages[1..] == rest;
      assert forall i :: 1 <= i < |pages| ==> pages[i] == rest[i - 1];
      assert data == data[..max] + data[max..];
    } else {
      assert Pages(data, max)[1..] == [];
    }
  }

  /** The session and the result after Browse and then `n` times BrowseNext with the point just returned. */
  function Chain(s: Session, data: seq<Description>, max: nat, n: nat): (r: (Session, Result))
  {
    if n == 0 then Browse(s, data, max)
    else
      var (s1, r1) := Chain(s, data, max, n - 1);
      BrowseNext(s1, r1.point, false)
  }

  function IdAfter(s: Session, n: nat): (id: u32)
  {
    (s.last + n) % U32_LIMIT
  }

  /** None of the next `n` point ids is still held. */
  ghost predicate Unused(s: Session, n: nat)
  {
    forall k :: 1 <= k <= n ==> IdAfter(s, k) !in s.points
  }

  /** The chain stands at `rest` after `n` points: the session holds one more point, if there is more to come. */
  ghost predicate Stands(s: Session, rest: seq<Description>, max: nat, n: nat, s': Session, r: Result)
    requires max > 0
  {
    && s'.limit == s.limit && r.status == Good
    && r.references == (if |rest| <= max then rest else rest[..max])
    && if |rest| <= max then
         r.point == [] && s'.points == s.points && s'.last == IdAfter(s, n)
       else
         && r.point == PutU32(IdAfter(s, n + 1)) && s'.last == IdAfter(s, n + 1)
         && s'.points == s.points[IdAfter(s, n + 1) := Point(rest[max..], max)]
  }

  lemma NextId(s: Session, n: nat)
    ensures Inc32(IdAfter(s, n)) == IdAfter(s, n + 1)
    ensures IdAfter(s, 0) == s.last
    ensures GetU32(PutU32(IdAfter(s, n))) == IdAfter(s, n)
  {
    hide GetU32, PutU32;
    var x := s.last + n;
    assert x == U32_LIMIT * (x / U32_LIMIT) + x % U32_LIMIT;
    GetPutU32(IdAfter(s, n));
  }

  /** A page is cut from the front of `rest` by a session like `s` that has used `n` ids. */
  lemma PagedStands(s: Session, rest: seq<Description>, max: nat, n: nat, s1: Session)
    requires max > 0 && (|rest| > max ==> !Full(s)) && s1 == s.(last := IdAfter(s, n))
    ensures var (s', r) := Paged(s1, rest, max); Stands(s, rest, max, n, s', r)
  {
    hide IdAfter, Inc32, PutU32;
    NextId(s, n);
  }

  /** BrowseNext takes the point it is given before it stores another, so there is always room. */
  lemma NextStands(s: Session, rest: seq<Description>, max: nat, n: nat, s1: Session, r1: Result)
    requires max > 0 && !Full(s) && |rest| > max && IdAfter(s, n + 1) !in s.points
    requires Stands(s, rest, max, n, s1, r1)
    ensures var (s2, r2) := BrowseNext(s1, r1.point, false); Stands(s, rest[max..], max, n + 1, s2, r2)
  {
    hide IdAfter, Inc32, PutU32, GetU32, Full, Paged, Stands;
    StandsWithPoint(s, rest, max, n, s1, r1);
    NextId(s, n + 1);
    var id := IdAfter(s, n + 1);
    var s2 := Taken(s1, id);
    assert s2.points == s.points;
    assert s2 == s.(last := id);
    PagedStands(s, rest[max..], max, n + 1, s2);
  }

  lemma StandsWithPoint(s: Session, rest: seq<Description>, max: nat, n: nat, s': Session, r: Result)
    requires max > 0 && |rest| > max && Stands(s, rest, max, n, s', r)
    ensures s'.limit == s.limit && s'.last == IdAfter(s, n + 1) && r.point == PutU32(IdAfter(s, n + 1))
    ensures s'.points == s.points[IdAfter(s, n + 1) := Point(rest[max..], max)]
  {
    hide IdAfter, PutU32;
  }

  /** What is left of the list after `n` pages. */
  function After(data: seq<Description>, max: nat, n: nat): (rest: seq<Description>)
    requires max > 0
  {
    if n == 0 then data
    else
      var before := After(data, max, n - 1);
      if |before| <= max then [] else before[max..]
  }

  /** Page `n` of the list is the first page of what is left after `n` pages, and the last one if that is short. */
  lemma {:induction false} PageAfter(data: seq<Description>, max: nat, n: nat)
    requires max > 0
    ensures var pages, rest := Pages(data, max), After(data, max, n);
            n < |pages| ==> (pages[n] == if |rest| <= max then rest else rest[..max])
                            && (n == |pages| - 1 <==> |rest| <= max)
    decreases n
  {
    if n > 0 {
      if |data| > max {
        PageAfter(data[max..], max, n - 1);
        AfterFirst(data, max, n);
      }
    }
  }

  lemma {:induction false} AfterFirst(data: seq<Description>, max: nat, n: nat)
    requires max > 0 && |data| > max && n > 0
    ensures After(data, max, n) == After(data[max..], max, n - 1)
    decreases n
  {
    if n > 1 {
      AfterFirst(data, max, n - 1);
    } else {
      assert After(data, max, 0) == data;
    }
  }

  /**
   * Followed without interleaving, a chain returns the pages of the list one by one, never runs out of slots,
   * and leaves the continuation points as they were when it ends. Ids may wrap around, as long as they do not
   * run into points that are still held.
   */
  lemma {:induction false} ChainReturnsPages(s: Session, data: seq<Description>, max: nat, n: nat)
    requires max > 0 && (|data| > max ==> !Full(s)) && Unused(s, |Pages(data, max)|)
    ensures var pages, (s', r) := Pages(data, max), Chain(s, data, max, n);
            n < |pages| ==>
              && Stands(s, After(data, max, n), max, n, s', r) && r.references == pages[n]
              && (r.point == [] <==> n == |pages| - 1) && (r.point == [] ==> s'.points == s.points)
    decreases n
  {
    hide IdAfter, Inc32, PutU32, GetU32, Full, Paged, BrowseNext, Pages, After, Stands;
    PageAfter(data, max, n);
    if n == 0 {
      NextId(s, 0);
      AfterNone(data, max);
      PagedStands(s, data, max, 0, s);
      StandsReturns(s, data, max, 0, Browse(s, data, max).0, Browse(s, data, max).1);
    } else if n < |Pages(data, max)| {
      OnePage(data, max);
      ChainReturnsPages(s, data, max, n - 1);
      PageAfter(data, max, n - 1);
      var (s1, r1) := Chain(s, data, max, n - 1);
      var rest := After(data, max, n - 1);
      NextStands(s, rest, max, n - 1, s1, r1);
      AfterMore(data, max, n);
      var (s2, r2) := Chain(s, data, max, n);
      StandsReturns(s, After(data, max, n), max, n, s2, r2);
    }
  }

  lemma OnePage(data: seq<Description>, max: nat)
    requires max > 0
    ensures |data| <= max ==> |Pages(data, max)| == 1
  {
  }

  lemma AfterNone(data: seq<Description>, max: nat)
    requires max > 0
    ensures After(data, max, 0) == data
  {
  }

  lemma AfterMore(data: seq<Description>, max: nat, n: nat)
    requires max > 0 && n > 0 && |After(data, max, n - 1)| > max
    ensures After(data, max, n) == After(data, max, n - 1)[max..]
  {
  }

  lemma StandsReturns(s: Session, rest: seq<Description>, max: nat, n: nat, s': Session, r: Result)
    requires max > 0 && Stands(s, rest, max, n, s', r)
    ensures r.references == (if |rest| <= max then rest else rest[..max])
    ensures (r.point == [] <==> |rest| <= max) && (r.point == [] ==> s'.points == s.points)
  {
    hide IdAfter;
  }

  // ------------------------------------------------------------------ points under any interleaving

  /** Points are stored and taken under the session's lock, one at a time, by handlers that run in parallel. */
  datatype Event = Store(point: Point) | Take(cp: seq<byte>)

  /** `created` lists the points that were stored and `used` the ids that were taken; both are only history. */
  datatype State = State(session: Session, created: seq<Point>, used: set<int>)

  function Step(t: State, e: Event): (t': State)
  {
    var s := t.session;
    match e
    case Store(p) => if Full(s) then t else t.(session := Stored(s, p), created := t.created + [p])
    case Take(cp) =>
      if |cp| >= 4 && GetU32(cp) in s.points
      then t.(session := Taken(s, GetU32(cp)), used := t.used + {GetU32(cp)}) else t
  }

  function Run(limit: int, es: seq<Event>): (t: State)
  {
    if es == [] then State(Session(map[], 0, limit), [], {})
    else Step(Run(limit, es[..|es| - 1]), es[|es| - 1])
  }

  /** Every point stored is held under its own id until it is taken. */
  ghost predicate Exact(t: State)
  {
    && t.session.last == |t.created|
    && (forall id :: id in t.used ==> 1 <= id <= |t.created|)
    && (forall id: u32 :: id in t.session.points <==> 1 <= id <= |t.created| && id !in t.used)
    && forall id: u32 :: id in t.session.points ==> t.session.points[id] == t.created[id - 1]
  }

  ghost predicate Inv(t: State)
  {
    && (t.session.limit > 0 ==> |t.session.points| <= t.session.limit)
    && (|t.created| < U32_LIMIT ==> Exact(t))
  }

  lemma StepKeeps(t: State, e: Event)
    requires Inv(t)
    ensures Inv(Step(t, e)) && Step(t, e).session.limit == t.session.limit
  {
    hide GetU32, Exact;
    match e
    case Store(p) =>
      if !Full(t.session) && |t.created| + 1 < U32_LIMIT {
        StoreExact(t, p);
      }
      OneMore(t.session.points, Inc32(t.session.last), p);
    case Take(cp) =>
      if |cp| >= 4 && GetU32(cp) in t.session.points {
        var id := GetU32(cp);
        OneLess(t.session.points, id);
        if |t.created| < U32_LIMIT {
          TakeExact(t, id);
        }
      }
  }

  lemma StoreExact(t: State, p: Point)
    requires Exact(t) && |t.created| + 1 < U32_LIMIT
    ensures Exact(t.(session := Stored(t.session, p), created := t.created + [p]))
  {
  }

  lemma TakeExact(t: State, id: u32)
    requires Exact(t) && id in t.session.points
    ensures Exact(t.(session := Taken(t.session, id), used := t.used + {id}))
  {
  }

  lemma OneMore(points: map<u32, Point>, id: u32, p: Point)
    ensures |points[id := p]| <= |points| + 1
  {
    assert points[id := p].Keys == points.Keys + {id};
    assert |points.Keys + {id}| <= |points.Keys| + 1;
  }

  lemma OneLess(points: map<u32, Point>, id: u32)
    requires id in points
    ensures |points - {id}| < |points|
  {
    assert (points - {id}).Keys == points.Keys - {id};
  }

  lemma {:induction false} RunKeeps(limit: int, es: seq<Event>)
    ensures Inv(Run(limit, es)) && Run(limit, es).session.limit == limit
    decreases |es|
  {
    if es != [] {
      hide Step, Inv;
      RunKeeps(limit, es[..|es| - 1]);
      StepKeeps(Run(limit, es[..|es| - 1]), es[|es| - 1]);
    }
  }

  /**
   * However browse requests interleave, the session never holds more points than its limit; and as long as
   * fewer than 2^32 points have been created, a point is accepted exactly when it was created and has not been
   * used, and gives back what was stored under it.
   */
  lemma UsableOnce(limit: int, es: seq<Event>, id: u32)
    ensures var t := Run(limit, es);
            && (limit > 0 ==> |t.session.points| <= limit)
            && (|t.created| < U32_LIMIT ==>
                  && (id in t.session.points <==> 1 <= id <= |t.created| && id !in t.used)
                  && (id in t.session.points ==> t.session.points[id] == t.created[id - 1]))
  {
    hide Run;
    RunKeeps(limit, es);
  }

  // ------------------------------------------------------------------ the program

  /** `Session`, as far as continuation points go. */
  class BrowseSession {
    var points: map<u32, Point>
    var last: u32
    const limit: int

    ghost function Contents(): (s: Session)
      reads this
    {
      Session(points, last, limit)
    }

    constructor (limit: int)
      ensures Contents() == Session(map[], 0, limit)
    {
      points, last, this.limit := map[], 0, limit;
    }

    method AddBrowseContinuationPoint(data: seq<Description>, max: nat) returns (cp: seq<byte>, ok: bool)
      modifies this
      ensures ok <==> !Full(old(Contents()))
      ensures ok ==> Contents() == Stored(old(Contents()), Point(data, max)) && cp == PutU32(last)
      ensures !ok ==> Contents() == old(Contents())
    {
      if limit > 0 && |points| >= limit {
        return [], false;
      }
      last := Inc32(last);
      points := points[last := Point(data, max)];
      return PutU32(last), true;
    }

    /** Decoding a point of one to three bytes fails at run time. */
    method RemoveBrowseContinuationPoint(cp: seq<byte>) returns (p: Point, status: Status)
      modifies this
      ensures status == if 1 <= |cp| < 4 then Panic
                        else if |cp| >= 4 && GetU32(cp) in old(points) then Good else ContinuationPointInvalid
      ensures status == Good ==> p == old(points)[GetU32(cp)] && Contents() == Taken(old(Contents()), GetU32(cp))
      ensures status != Good ==> Contents() == old(Contents())
    {
      p := Point([], 0);
      if |cp| == 0 {
        return p, ContinuationPointInvalid;
      }
      if |cp| < 4 {
        return p, Panic;
      }
      var id := GetU32(cp);
      if id !in points {
        return p, ContinuationPointInvalid;
      }
      p, status := points[id], Good;
      points := points - {id};
    }

    method Page(data: seq<Description>, max: nat) returns (r: Result)
      modifies this
      ensures (Contents(), r) == Paged(old(Contents()), data, max)
    {
      if |data| > max {
        var cp, ok := AddBrowseContinuationPoint(data[max..], max);
        if !ok {
          return Result(NoContinuationPoints, [], []);
        }
        return Result(Good, cp, data[..max]);
      }
      return Result(Good, [], data);
    }

    method HandleBrowse(data: seq<Description>, max: nat) returns (r: Result)
      modifies this
      ensures (Contents(), r) == Browse(old(Contents()), data, max)
    {
      if max > 0 {
        r := Page(data, max);
      } else {
        r := Result(Good, [], data);
      }
    }

    method HandleBrowseNext(cp: seq<byte>, release: bool) returns (r: Result)
      modifies this
      ensures (Contents(), r) == BrowseNext(old(Contents()), cp, release)
    {
      if |cp| == 0 {
        return Result(Good, [], []);
      }
      var p, status := RemoveBrowseContinuationPoint(cp);
      if status != Good {
        return Result(status, [], []);
      }
      if release {
        return Result(Good, [], []);
      }
      r := Page(p.data, p.max);
    }
  }
}
