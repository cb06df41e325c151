/**
 * The publish requests of a session: a queue of at most 64, and the answers that have been written
 * (OPC UA Part 4, section 5.13.5), from opcua/server/session.go and the handlers that use it.
 */
module Sessions {
  import opened Bytes
  import opened Options

  const MAX_PUBLISH_REQUESTS := 64

  /** `number` is the position at which the server received the request; no branch looks at it. */
  datatype Request = Request(number: nat, handle: u32, timestamp: int, timeoutHint: nat)

  datatype Reply = TooManyPublishRequests | Timeout | NoSubscription | StatusChange | Publication

  datatype Answer = Answer(request: Request, reply: Reply)

  /** `answered` lists the responses written so far. */
  datatype State = State(received: nat, queue: seq<Request>, answered: seq<Answer>)

  predicate Expired(r: Request, now: int)
  {
    now > r.timestamp + r.timeoutHint
  }

  function Write(s: State, r: Request, reply: Reply): (s': State)
  {
    s.(answered := s.answered + [Answer(r, reply)])
  }

  /** `addPublishRequest`: the oldest requests give way to the new one. */
  function Add(s: State, r: Request): (s': State)
    decreases |s.queue|
  {
    if |s.queue| < MAX_PUBLISH_REQUESTS then s.(queue := s.queue + [r])
    else Add(Write(s.(queue := s.queue[1..]), s.queue[0], TooManyPublishRequests), r)
  }

  /** `removePublishRequest`: what is left after expired requests have been answered and one has been taken. */
  function Remove(s: State, now: int): (s': State)
    decreases |s.queue|
  {
    if s.queue == [] then s
    else
      var rest := s.(queue := s.queue[1..]);
      if Expired(s.queue[0], now) then Remove(Write(rest, s.queue[0], Timeout), now) else rest
  }

  /** The request that it takes: the oldest one that has not expired. */
  function Removed(queue: seq<Request>, now: int): (r: Option<Request>)
    ensures r.Some? ==> r.value in queue && !Expired(r.value, now)
    ensures r.None? <==> forall x :: x in queue ==> Expired(x, now)
  {
    if queue == [] then None
    else if Expired(queue[0], now) then Removed(queue[1..], now) else Some(queue[0])
  }

  /** The drain of `handleDeleteSubscriptions` when the session has no subscription left. */
  function Drain(s: State, now: int): (s': State)
    decreases |s.queue|
  {
    match Removed(s.queue, now)
    case None => Remove(s, now)
    case Some(r) =>
      RemoveShortens(s, now);
      Drain(Write(Remove(s, now), r, NoSubscription), now)
  }

  lemma {:induction false} RemoveShortens(s: State, now: int)
    ensures |Remove(s, now).queue| <= |s.queue|
    ensures s.queue != [] ==> |Remove(s, now).queue| < |s.queue|
    decreases |s.queue|
  {
    if s.queue != [] && Expired(s.queue[0], now) {
      RemoveShortens(Write(s.(queue := s.queue[1..]), s.queue[0], Timeout), now);
    }
  }

  // ------------------------------------------------------------------ the runs of a session

  /** How a new publish request is dealt with, and what else happens to the queue. */
  datatype Event =
    | Arrive(request: Request, outcome: Outcome) // handlePublish
    | Publish(now: int) // a subscription asks for a request and answers it if it gets one
    | DeleteLast(now: int) // the last subscription is deleted

  /** What `handlePublish` finds: a status change, no subscription at all, a late one, or none of these. */
  datatype Outcome = ChangePending | NoneOnServer | LateSubscription | Wait

  function Take(s: State, now: int): (s': State)
  {
    match Removed(s.queue, now)
    case None => Remove(s, now)
    case Some(r) => Write(Remove(s, now), r, Publication)
  }

  function Handle(s: State, r: Request, outcome: Outcome): (s': State)
  {
    match outcome
    case ChangePending => Write(s, r, StatusChange)
    case NoneOnServer => Write(s, r, NoSubscription)
    case LateSubscription => Write(s, r, Publication)
    case Wait => Add(s, r)
  }

  function Step(s: State, e: Event): (s': State)
  {
    match e
    case Arrive(r, outcome) => Handle(s.(received := s.received + 1), r.(number := s.received), outcome)
    case Publish(now) => Take(s, now)
    case DeleteLast(now) => Drain(s, now)
  }

  function Run(s: State, es: seq<Event>): (s': State)
  {
    if es == [] then s else Step(Run(s, es[..|es| - 1]), es[|es| - 1])
  }

  const INITIAL := State(0, [], [])

  // ------------------------------------------------------------------ every request is queued or answered, once

  function Numbers(queue: seq<Request>): (m: multiset<nat>)
  {
    if queue == [] then multiset{} else multiset{queue[0].number} + Numbers(queue[1..])
  }

  function AnsweredNumbers(answered: seq<Answer>): (m: multiset<nat>)
  {
    if answered == [] then multiset{}
    else AnsweredNumbers(answered[..|answered| - 1]) + multiset{answered[|answered| - 1].request.number}
  }

  /** The requests that are queued or answered, with multiplicity. */
  function Accounted(s: State): (m: multiset<nat>)
  {
    Numbers(s.queue) + AnsweredNumbers(s.answered)
  }

  function FirstNumbers(n: nat): (m: multiset<nat>)
    ensures forall k: nat :: m[k] == if k < n then 1 else 0
  {
    if n == 0 then multiset{} else FirstNumbers(n - 1) + multiset{n - 1}
  }

  ghost predicate Inv(s: State)
  {
    && Accounted(s) == FirstNumbers(s.received)
    && |s.queue| <= MAX_PUBLISH_REQUESTS
    && InOrder(s.queue)
  }

  /** Requests wait in the order in which they were received. */
  ghost predicate InOrder(queue: seq<Request>)
  {
    forall i, j :: 0 <= i < j < |queue| ==> queue[i].number < queue[j].number
  }

  lemma WriteAccounts(s: State, r: Request, reply: Reply)
    ensures Accounted(Write(s, r, reply)) == Accounted(s) + multiset{r.number}
  {
    assert (s.answered + [Answer(r, reply)])[..|s.answered|] == s.answered;
  }

  lemma {:induction false} NumbersAppend(queue: seq<Request>, r: Request)
    ensures Numbers(queue + [r]) == Numbers(queue) + multiset{r.number}
  {
    if queue != [] {
      assert (queue + [r])[1..] == queue[1..] + [r];
      NumbersAppend(queue[1..], r);
    }
  }

  /** What adding a request does: at the limit the oldest is answered, otherwise nothing is. */
  lemma AddOnce(s: State, r: Request)
    requires |s.queue| <= MAX_PUBLISH_REQUESTS
    ensures |s.queue| < MAX_PUBLISH_REQUESTS ==> Add(s, r) == s.(queue := s.queue + [r])
    ensures |s.queue| == MAX_PUBLISH_REQUESTS ==>
              Add(s, r) == Write(s.(queue := s.queue[1..] + [r]), s.queue[0], TooManyPublishRequests)
    ensures Accounted(Add(s, r)) == Accounted(s) + multiset{r.number}
  {
    if |s.queue| < MAX_PUBLISH_REQUESTS {
      NumbersAppend(s.queue, r);
    } else {
      var s1 := Write(s.(queue := s.queue[1..]), s.queue[0], TooManyPublishRequests);
      assert Add(s, r) == Add(s1, r);
      assert Add(s1, r) == s1.(queue := s1.queue + [r]);
      NumbersAppend(s1.queue, r);
      WriteAccounts(s.(queue := s.queue[1..]), s.queue[0], TooManyPublishRequests);
    }
  }

  lemma FrontAccounts(s: State)
    requires s.queue != []
    ensures Accounted(s) == Accounted(s.(queue := s.queue[1..])) + multiset{s.queue[0].number}
  {
    hide AnsweredNumbers;
  }

  lemma {:induction false} RemoveKeeps(s: State, now: int)
    ensures var s', r := Remove(s, now), Removed(s.queue, now);
            && s'.received == s.received
            && (r.None? ==> Accounted(s') == Accounted(s) && s'.queue == [])
            && (r.Some? ==> Accounted(s') + multiset{r.value.number} == Accounted(s))
    decreases |s.queue|
  {
    hide Accounted;
    if s.queue != [] {
      FrontAccounts(s);
      if Expired(s.queue[0], now) {
        var s1 := s.(queue := s.queue[1..]);
        WriteAccounts(s1, s.queue[0], Timeout);
        RemoveKeeps(Write(s1, s.queue[0], Timeout), now);
      }
    }
  }

  predicate IsSuffix<T(==)>(a: seq<T>, b: seq<T>)
  {
    |a| <= |b| && a == b[|b| - |a|..]
  }

  lemma {:induction false} RemoveFromFront(s: State, now: int)
    ensures IsSuffix(Remove(s, now).queue, s.queue)
    decreases |s.queue|
  {
    if s.queue != [] && Expired(s.queue[0], now) {
      RemoveFromFront(Write(s.(queue := s.queue[1..]), s.queue[0], Timeout), now);
    }
  }

  /** The number of expired requests at the front. */
  function Overdue(queue: seq<Request>, now: int): (k: nat)
    ensures k <= |queue|
  {
    if queue == [] || !Expired(queue[0], now) then 0 else 1 + Overdue(queue[1..], now)
  }

  function Replies(queue: seq<Request>, now: int, reply: Reply): (r: seq<Answer>)
    ensures |r| == |queue|
  {
    seq(|queue|, i requires 0 <= i < |queue| => Answer(queue[i], if Expired(queue[i], now) then Timeout else reply))
  }

  lemma RepliesFirst(queue: seq<Request>, now: int, reply: Reply, answered: seq<Answer>)
    requires queue != []
    ensures answered + Replies(queue, now, reply)
            == answered + [Answer(queue[0], if Expired(queue[0], now) then Timeout else reply)]
               + Replies(queue[1..], now, reply)
  {
    assert Replies(queue, now, reply) == [Answer(queue[0], if Expired(queue[0], now) then Timeout else reply)]
                                         + Replies(queue[1..], now, reply);
  }

  /** In closed form: exactly the expired requests in front of the one taken are answered, with a timeout. */
  lemma {:induction false} RemoveIs(s: State, now: int)
    ensures var q, k := s.queue, Overdue(s.queue, now);
            && Remove(s, now) == s.(queue := if k < |q| then q[k + 1..] else [],
                                    answered := s.answered + Replies(q[..k], now, Publication))
            && Removed(q, now) == if k < |q| then Some(q[k]) else None
    decreases |s.queue|
  {
    hide Replies;
    var q, k := s.queue, Overdue(s.queue, now);
    if k == 0 {
      assert q[..k] == [] && Replies([], now, Publication) == [];
      assert s.answered + [] == s.answered;
    } else {
      var s1 := Write(s.(queue := q[1..]), q[0], Timeout);
      RemoveIs(s1, now);
      RepliesFirst(q[..k], now, Publication, s.answered);
      assert q[..k][0] == q[0] && q[..k][1..] == q[1..][..k - 1] && Expired(q[0], now);
      assert k < |q| ==> q[1..][k - 1] == q[k] && q[1..][k..] == q[k + 1..];
    }
  }

  /** The drain answers all that waited, in order: expired requests with a timeout, others with no subscription. */
  lemma {:induction false} DrainIs(s: State, now: int)
    ensures Drain(s, now) == s.(queue := [], answered := s.answered + Replies(s.queue, now, NoSubscription))
    decreases |s.queue|
  {
    hide Replies, Removed;
    var q := s.queue;
    if q == [] {
      assert Replies([], now, NoSubscription) == [];
      assert s.answered + [] == s.answered;
      RemoveIs(s, now);
    } else {
      RepliesFirst(q, now, NoSubscription, s.answered);
      DrainFirst(s, now);
      var reply := if Expired(q[0], now) then Timeout else NoSubscription;
      DrainIs(Write(s.(queue := q[1..]), q[0], reply), now);
    }
  }

  lemma DrainFirst(s: State, now: int)
    requires s.queue != []
    ensures var reply := if Expired(s.queue[0], now) then Timeout else NoSubscription;
            Drain(s, now) == Drain(Write(s.(queue := s.queue[1..]), s.queue[0], reply), now)
  {
  }

  lemma TakeKeeps(s: State, now: int)
    ensures var s' := Take(s, now);
            s'.received == s.received && Accounted(s') == Accounted(s) && IsSuffix(s'.queue, s.queue)
  {
    hide Accounted, Remove, Removed, IsSuffix;
    RemoveKeeps(s, now);
    RemoveFromFront(s, now);
    var r := Removed(s.queue, now);
    if r.Some? {
      WriteAccounts(Remove(s, now), r.value, Publication);
    }
  }

  /** After the drain nothing waits, and every request that waited has been answered. */
  lemma {:induction false} DrainKeeps(s: State, now: int)
    ensures var s' := Drain(s, now);
            s'.received == s.received && Accounted(s') == Accounted(s) && s'.queue == []
    decreases |s.queue|
  {
    hide Accounted, Remove, Removed;
    RemoveKeeps(s, now);
    var r := Removed(s.queue, now);
    if r.Some? {
      RemoveShortens(s, now);
      WriteAccounts(Remove(s, now), r.value, NoSubscription);
      DrainKeeps(Write(Remove(s, now), r.value, NoSubscription), now);
    }
  }

  lemma AppendInOrder(s: State, r: Request)
    requires Inv(s) && r.number == s.received
    ensures InOrder(s.queue + [r]) && (s.queue != [] ==> InOrder(s.queue[1..] + [r]))
  {
    hide FirstNumbers;
    forall i | 0 <= i < |s.queue|
      ensures s.queue[i].number < s.received
    {
      NumberIn(s.queue, i);
      assert s.queue[i].number in Accounted(s);
    }
  }

  lemma {:induction false} NumberIn(queue: seq<Request>, i: nat)
    requires i < |queue|
    ensures queue[i].number in Numbers(queue)
  {
    if i > 0 {
      NumberIn(queue[1..], i - 1);
    }
  }

  lemma StepKeeps(s: State, e: Event)
    requires Inv(s)
    ensures Inv(Step(s, e))
  {
    hide Add, Remove, Removed, Drain, Take, Numbers, AnsweredNumbers, Accounted, FirstNumbers;
    match e
    case Publish(now) => TakeKeeps(s, now);
    case DeleteLast(now) => DrainKeeps(s, now);
    case Arrive(r, outcome) =>
      ArriveKeeps(s, r, outcome);
  }

  lemma ArriveKeeps(s: State, r: Request, outcome: Outcome)
    requires Inv(s)
    ensures Inv(Step(s, Arrive(r, outcome)))
  {
    hide Add, Numbers, AnsweredNumbers, Accounted, FirstNumbers, InOrder;
    var s1, r1 := s.(received := s.received + 1), r.(number := s.received);
    SameAccount(s, s1);
    AppendInOrder(s, r1);
    OneMore(s.received);
    match outcome
    case Wait => AddOnce(s1, r1);
    case ChangePending => WriteAccounts(s1, r1, StatusChange);
    case NoneOnServer => WriteAccounts(s1, r1, NoSubscription);
    case LateSubscription => WriteAccounts(s1, r1, Publication);
  }

  lemma OneMore(n: nat)
    ensures FirstNumbers(n + 1) == FirstNumbers(n) + multiset{n}
  {
  }

  lemma SameAccount(s: State, s': State)
    requires s'.queue == s.queue && s'.answered == s.answered
    ensures Accounted(s') == Accounted(s)
  {
  }

  lemma {:induction false} RunKeeps(es: seq<Event>)
    ensures Inv(Run(INITIAL, es))
    decreases |es|
  {
    if es == [] {
      assert Accounted(INITIAL) == FirstNumbers(0);
    } else {
      RunKeeps(es[..|es| - 1]);
      StepKeeps(Run(INITIAL, es[..|es| - 1]), es[|es| - 1]);
    }
  }

  /**
   * In every run the k-th request received is still queued or has been answered, never both, and has been
   * answered at most once.
   */
  lemma QueuedOrAnsweredOnce(es: seq<Event>, k: nat)
    ensures var s := Run(INITIAL, es);
            && |s.queue| <= MAX_PUBLISH_REQUESTS
            && Numbers(s.queue)[k] + AnsweredNumbers(s.answered)[k] == if k < s.received then 1 else 0
  {
    RunKeeps(es);
    var s := Run(INITIAL, es);
    assert Accounted(s)[k] == Numbers(s.queue)[k] + AnsweredNumbers(s.answered)[k];
  }

  /** The number of requests received is the number of arrivals in the run. */
  lemma {:induction false} ReceivedCounts(es: seq<Event>)
    ensures Run(INITIAL, es).received == Arrivals(es)
    decreases |es|
  {
    hide Accounted, Remove, Removed, Add, Drain, Take, IsSuffix;
    if es != [] {
      var s, e := Run(INITIAL, es[..|es| - 1]), es[|es| - 1];
      ReceivedCounts(es[..|es| - 1]);
      RunKeeps(es[..|es| - 1]);
      match e
      case Publish(now) => TakeKeeps(s, now);
      case DeleteLast(now) => DrainKeeps(s, now);
      case Arrive(r, outcome) => AddOnce(s.(received := s.received + 1), r.(number := s.received));
    }
  }

  /**
   * Which answer a step gives to whom. A timeout is given only to a request whose hint has passed since it was
   * stamped; a request whose hint has not passed gets a publication, or the lack of a subscription.
   */
  ghost predicate Justified(s: State, e: Event, a: Answer)
  {
    match a.reply
    case Timeout =>
      (e.Publish? || e.DeleteLast?) && a.request in s.queue && e.now > a.request.timestamp + a.request.timeoutHint
    case Publication =>
      || (e.Publish? && a.request in s.queue && e.now <= a.request.timestamp + a.request.timeoutHint)
      || (e.Arrive? && e.outcome == LateSubscription && a.request == e.request.(number := s.received))
    case NoSubscription =>
      || (e.DeleteLast? && a.request in s.queue && e.now <= a.request.timestamp + a.request.timeoutHint)
      || (e.Arrive? && e.outcome == NoneOnServer && a.request == e.request.(number := s.received))
    case TooManyPublishRequests =>
      && e.Arrive? && e.outcome == Wait && |s.queue| == MAX_PUBLISH_REQUESTS && a.request == s.queue[0]
    case StatusChange => e.Arrive? && e.outcome == ChangePending && a.request == e.request.(number := s.received)
  }

  lemma AnswersJustified(s: State, e: Event, i: nat)
    requires |s.queue| <= MAX_PUBLISH_REQUESTS
    ensures s.answered <= Step(s, e).answered
    ensures |s.answered| <= i < |Step(s, e).answered| ==> Justified(s, e, Step(s, e).answered[i])
  {
    hide Add, Remove, Removed, Drain, Replies;
    match e
    case Publish(now) =>
      RemoveIs(s, now);
      FrontExpired(s.queue, now);
      RepliesAre(s.queue[..Overdue(s.queue, now)], now, Publication);
    case DeleteLast(now) =>
      DrainIs(s, now);
      RepliesAre(s.queue, now, NoSubscription);
    case Arrive(r, outcome) =>
      AddOnce(s.(received := s.received + 1), r.(number := s.received));
  }

  lemma RepliesAre(queue: seq<Request>, now: int, reply: Reply)
    ensures forall i :: 0 <= i < |queue| ==>
              Replies(queue, now, reply)[i]
              == Answer(queue[i], if now > queue[i].timestamp + queue[i].timeoutHint then Timeout else reply)
  {
  }

  lemma {:induction false} FrontExpired(queue: seq<Request>, now: int)
    ensures var k := Overdue(queue, now);
            && (forall i :: 0 <= i < k ==> now > queue[i].timestamp + queue[i].timeoutHint)
            && (k < |queue| ==> now <= queue[k].timestamp + queue[k].timeoutHint)
    decreases |queue|
  {
    if queue != [] && Expired(queue[0], now) {
      FrontExpired(queue[1..], now);
      var k := Overdue(queue, now);
      assert forall i :: 1 <= i < k ==> queue[i] == queue[1..][i - 1];
    }
  }

  function Arrivals(es: seq<Event>): (n: nat)
  {
    if es == [] then 0 else Arrivals(es[..|es| - 1]) + if es[|es| - 1].Arrive? then 1 else 0
  }

  // ------------------------------------------------------------------ the program

  /** `Session`, as far as publish requests go. */
  class Session {
    var received: nat
    var queue: seq<Request>
    var answered: seq<Answer>

    ghost function Contents(): (s: State)
      reads this
    {
      State(received, queue, answered)
    }

    constructor ()
      ensures Contents() == INITIAL
    {
      received, queue, answered := 0, [], [];
    }

    method WriteAnswer(r: Request, reply: Reply)
      modifies this`answered
      ensures Contents() == Write(old(Contents()), r, reply)
    {
      answered := answered + [Answer(r, reply)];
    }

    method AddPublishRequest(r: Request)
      modifies this`queue, this`answered
      ensures Contents() == Add(old(Contents()), r)
    {
      while |queue| >= MAX_PUBLISH_REQUESTS
        invariant Add(Contents(), r) == Add(old(Contents()), r)
      {
        var op := queue[0];
        queue := queue[1..];
        WriteAnswer(op, TooManyPublishRequests);
      }
      queue := queue + [r];
    }

    method RemovePublishRequest(now: int) returns (r: Option<Request>)
      modifies this`queue, this`answered
      ensures Contents() == Remove(old(Contents()), now)
      ensures r == Removed(old(queue), now)
    {
      while |queue| > 0
        invariant Remove(Contents(), now) == Remove(old(Contents()), now)
        invariant Removed(queue, now) == Removed(old(queue), now)
      {
        var op := queue[0];
        queue := queue[1..];
        if Expired(op, now) {
          WriteAnswer(op, Timeout);
          continue;
        }
        return Some(op);
      }
      return None;
    }

    method DrainPublishRequests(now: int)
      modifies this`queue, this`answered
      ensures Contents() == Drain(old(Contents()), now)
    {
      hide Remove;
      var r := RemovePublishRequest(now);
      ghost var start, before := old(Contents()), old(Contents());
      while r.Some?
        invariant Removed(before.queue, now) == r && Contents() == Remove(before, now)
        invariant Drain(before, now) == Drain(start, now)
        decreases |before.queue|
      {
        RemoveShortens(before, now);
        WriteAnswer(r.value, NoSubscription);
        before := Contents();
        r := RemovePublishRequest(now);
      }
    }
  }
}
