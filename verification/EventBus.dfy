/**
 bus.go: the in-memory publish/subscribe bus. Every subscriber has its own bounded queue;
 a publish that finds a queue full is dropped for that subscriber only. Bus operations
 are taken as atomic.
 */
module EventBus {
  import Decimal

  const CAPACITY := 64

  // ---- One lossy queue ------------------------------------------------------

  /**
   A subscriber's channel and its past: `offered` is everything published to it, `taken`
   what its consumer has received, `overran` whether a publish ever found it full.
   */
  datatype Queue<P> = Queue(buffer: seq<P>, closed: bool, offered: seq<P>, taken: seq<P>, overran: bool) {
    function Offer(x: P): Queue<P> {
      if |buffer| < CAPACITY
      then this.(buffer := buffer + [x], offered := offered + [x])
      else this.(offered := offered + [x], overran := true)
    }

    function Take(): Queue<P> {
      if buffer == [] then this else this.(buffer := buffer[1..], taken := taken + [buffer[0]])
    }

    function Close(): Queue<P> {
      this.(closed := true)
    }
  }

  function NewQueue<P>(): Queue<P> {
    Queue([], false, [], [], false)
  }

  /** `a` is obtained from `b` by leaving elements out, order kept. */
  ghost predicate Subsequence<P>(a: seq<P>, b: seq<P>) {
    a == [] || (b != [] &&
      ((a[|a| - 1] == b[|b| - 1] && Subsequence(a[..|a| - 1], b[..|b| - 1])) || Subsequence(a, b[..|b| - 1])))
  }

  lemma SubsequenceExtends<P>(a: seq<P>, b: seq<P>, x: P)
    requires Subsequence(a, b)
    ensures Subsequence(a + [x], b + [x]) && Subsequence(a, b + [x])
  {
    assert (a + [x])[..|a|] == a && (b + [x])[..|b|] == b;
  }

  /** Received and buffered together are what was published, in order, minus what was dropped. */
  ghost predicate QueueOk<P>(q: Queue<P>) {
    && |q.buffer| <= CAPACITY
    && Subsequence(q.taken + q.buffer, q.offered)
    && (!q.overran <==> q.taken + q.buffer == q.offered)
    && |q.taken + q.buffer| <= |q.offered|
  }

  lemma OfferOk<P>(q: Queue<P>, x: P)
    requires QueueOk(q)
    ensures QueueOk(q.Offer(x))
  {
    SubsequenceExtends(q.taken + q.buffer, q.offered, x);
    assert q.taken + (q.buffer + [x]) == (q.taken + q.buffer) + [x];
    assert (q.offered + [x])[..|q.offered|] == q.offered;
    assert ((q.taken + q.buffer) + [x])[..|q.taken + q.buffer|] == q.taken + q.buffer;
  }

  lemma TakeOk<P>(q: Queue<P>)
    requires QueueOk(q)
    ensures QueueOk(q.Take())
  {
    if q.buffer != [] {
      assert (q.taken + [q.buffer[0]]) + q.buffer[1..] == q.taken + q.buffer;
    }
  }

  // ---- The bus as a product of queues ---------------------------------------

  /** Which subscriptions each topic lists; every subscription's topic and queue, by number. */
  datatype BusView<P> = BusView(lists: map<string, seq<nat>>, topics: seq<string>, queues: seq<Queue<P>>) {
    function Listed(topic: string): seq<nat> {
      if topic in lists then lists[topic] else []
    }

    function Subscribe(topic: string): BusView<P> {
      BusView(lists[topic := Listed(topic) + [|queues|]], topics + [topic], queues + [NewQueue()])
    }

    function Publish(topic: string, x: P): BusView<P> {
      this.(queues := seq(|queues|, i requires 0 <= i < |queues| =>
        if i in Listed(topic) then queues[i].Offer(x) else queues[i]))
    }

    function Unsubscribe(topic: string, n: nat): BusView<P> {
      if n in Listed(topic) && n < |queues| then
        this.(lists := lists[topic := Without(Listed(topic), n)], queues := queues[n := queues[n].Close()])
      else this
    }

    function Receive(n: nat): BusView<P> {
      if n < |queues| then this.(queues := queues[n := queues[n].Take()]) else this
    }

    /** A topic lists open subscriptions of its own. */
    ghost predicate ListOk(t: string) {
      && (forall n | n in Listed(t) :: n < |queues| && n < |topics| && topics[n] == t && !queues[n].closed)
      && Distinct(Listed(t))
    }

    ghost predicate Proper() {
      |topics| == |queues| && forall t :: ListOk(t)
    }
  }

  predicate Distinct(list: seq<nat>) {
    forall i, j | 0 <= i < j < |list| :: list[i] != list[j]
  }

  /** The list without the first occurrence of `n`. */
  function Without(list: seq<nat>, n: nat): (r: seq<nat>)
    ensures forall k | k in list && k != n :: k in r
    ensures forall k | k in r :: k in list
  {
    if list == [] then []
    else if list[0] == n then list[1..]
    else [list[0]] + Without(list[1..], n)
  }

  lemma {:induction false} WithoutAt(list: seq<nat>, i: nat)
    requires i < |list| && forall k | 0 <= k < i :: list[k] != list[i]
    ensures Without(list, list[i]) == list[..i] + list[i + 1..]
  {
    if i > 0 {
      assert list[1..][i - 1] == list[i];
      WithoutAt(list[1..], i - 1);
      assert [list[0]] + (list[1..][..i - 1] + list[1..][i..]) == list[..i] + list[i + 1..];
    }
  }

  datatype Op<P> = Subscribe(topic: string) | Publish(topic: string, x: P) | Unsubscribe(topic: string, n: nat)
    | Receive(n: nat)

  function Apply<P>(v: BusView<P>, op: Op<P>): BusView<P> {
    match op
    case Subscribe(t) => v.Subscribe(t)
    case Publish(t, x) => v.Publish(t, x)
    case Unsubscribe(t, n) => v.Unsubscribe(t, n)
    case Receive(n) => v.Receive(n)
  }

  function Run<P>(v: BusView<P>, ops: seq<Op<P>>): BusView<P>
    decreases |ops|
  {
    if ops == [] then v else Run(Apply(v, ops[0]), ops[1..])
  }

  /** What one operation means to subscription `n` of `topic`, told without any other subscriber. */
  function OwnStep<P>(q: Queue<P>, topic: string, n: nat, op: Op<P>): Queue<P> {
    match op
    case Publish(t, x) => if t == topic && !q.closed then q.Offer(x) else q
    case Unsubscribe(t, m) => if t == topic && m == n && !q.closed then q.Close() else q
    case Receive(m) => if m == n then q.Take() else q
    case Subscribe(_) => q
  }

  function Own<P>(q: Queue<P>, topic: string, n: nat, ops: seq<Op<P>>): Queue<P>
    decreases |ops|
  {
    if ops == [] then q else Own(OwnStep(q, topic, n, ops[0]), topic, n, ops[1..])
  }

  /** Subscription `n` belongs to `topic` and is listed exactly while it is open. */
  ghost predicate Belongs<P>(v: BusView<P>, topic: string, n: nat) {
    n < |v.queues| == |v.topics| && v.topics[n] == topic && (n in v.Listed(topic) <==> !v.queues[n].closed)
  }

  lemma SubscribeProper<P>(v: BusView<P>, topic: string)
    requires v.Proper()
    ensures v.Subscribe(topic).Proper()
    ensures Belongs(v.Subscribe(topic), topic, |v.queues|)
  {
    var u := v.Subscribe(topic);
    forall t ensures u.ListOk(t) {
      assert v.ListOk(t);
      forall i | 0 <= i < |v.Listed(t)| ensures v.Listed(t)[i] < |v.queues| {
        assert v.Listed(t)[i] in v.Listed(t);
      }
    }
    assert u.Listed(topic)[|v.Listed(topic)|] == |v.queues|;
  }

  lemma PublishProper<P>(v: BusView<P>, topic: string, x: P)
    requires v.Proper()
    ensures v.Publish(topic, x).Proper()
  {
    forall t ensures v.Publish(topic, x).ListOk(t) {
      assert v.ListOk(t);
    }
  }

  lemma WithoutDistinct(list: seq<nat>, n: nat)
    requires Distinct(list)
    ensures n !in Without(list, n) && Distinct(Without(list, n))
  {
    if list != [] && list[0] != n {
      WithoutDistinct(list[1..], n);
      assert list[0] !in list[1..];
      assert list[0] !in Without(list[1..], n);
    }
  }

  lemma UnsubscribeProper<P>(v: BusView<P>, topic: string, n: nat)
    requires v.Proper()
    ensures v.Unsubscribe(topic, n).Proper()
    ensures n !in v.Unsubscribe(topic, n).Listed(topic)
  {
    assert v.ListOk(topic);
    WithoutDistinct(v.Listed(topic), n);
    forall t ensures v.Unsubscribe(topic, n).ListOk(t) {
      assert v.ListOk(t);
    }
  }

  lemma StepBelongs<P>(v: BusView<P>, op: Op<P>, topic: string, n: nat)
    requires v.Proper() && Belongs(v, topic, n)
    ensures Apply(v, op).Proper() && Belongs(Apply(v, op), topic, n)
  {
    match op {
      case Subscribe(t) =>
        SubscribeProper(v, t);
        assert forall k | k in v.Subscribe(t).Listed(topic) :: k in v.Listed(topic) || k == |v.queues|;
        assert forall k | k in v.Listed(topic) :: k in v.Subscribe(t).Listed(topic) by {
          forall k | k in v.Listed(topic) ensures k in v.Subscribe(t).Listed(topic) {
          }
        }
      case Publish(t, x) => PublishProper(v, t, x);
      case Unsubscribe(t, m) =>
        UnsubscribeProper(v, t, m);
        assert v.ListOk(t) && v.ListOk(topic);
      case Receive(m) =>
        forall t ensures v.Receive(m).ListOk(t) {
          assert v.ListOk(t);
        }
    }
  }

  lemma StepOwn<P>(v: BusView<P>, op: Op<P>, topic: string, n: nat)
    requires v.Proper() && Belongs(v, topic, n)
    ensures n < |Apply(v, op).queues| && Apply(v, op).queues[n] == OwnStep(v.queues[n], topic, n, op)
  {
    if op.Publish? || op.Unsubscribe? {
      assert v.ListOk(op.topic);
    }
  }

  /**
   Independence: over every run of the whole bus a subscription's queue is what its own
   operations and the publishes on its topic make of it. Nothing other subscribers do shows.
   */
  lemma {:induction false} QueuesIndependent<P>(v: BusView<P>, ops: seq<Op<P>>, topic: string, n: nat)
    requires v.Proper() && Belongs(v, topic, n)
    ensures n < |Run(v, ops).queues| && Run(v, ops).queues[n] == Own(v.queues[n], topic, n, ops)
    decreases |ops|
  {
    if ops != [] {
      StepOwn(v, ops[0], topic, n);
      StepBelongs(v, ops[0], topic, n);
      QueuesIndependent(Apply(v, ops[0]), ops[1..], topic, n);
    }
  }

  lemma {:induction false} OwnOk<P>(q: Queue<P>, topic: string, n: nat, ops: seq<Op<P>>)
    requires QueueOk(q)
    ensures QueueOk(Own(q, topic, n, ops))
    decreases |ops|
  {
    if ops != [] {
      match ops[0] {
        case Publish(t, x) => OfferOk(q, x);
        case Receive(m) => TakeOk(q);
        case _ =>
      }
      OwnOk(OwnStep(q, topic, n, ops[0]), topic, n, ops[1..]);
    }
  }

  /** The events published on a topic in a run, up to the run's own unsubscription of `n`. */
  function Published<P>(ops: seq<Op<P>>, topic: string, n: nat): seq<P>
    decreases |ops|
  {
    if ops == [] then []
    else match ops[0]
      case Publish(t, x) => (if t == topic then [x] else []) + Published(ops[1..], topic, n)
      case Unsubscribe(t, m) => if t == topic && m == n then [] else Published(ops[1..], topic, n)
      case _ => Published(ops[1..], topic, n)
  }

  /** No publish of the run that reaches subscription `n` finds its buffer full. */
  ghost predicate NeverFull<P>(v: BusView<P>, ops: seq<Op<P>>, topic: string, n: nat)
    decreases |ops|
  {
    ops != [] ==>
      && (ops[0].Publish? && ops[0].topic == topic && n in v.Listed(topic) && n < |v.queues| ==>
            |v.queues[n].buffer| < CAPACITY)
      && NeverFull(Apply(v, ops[0]), ops[1..], topic, n)
  }

  lemma {:induction false} OfferedIsPublished<P>(q: Queue<P>, topic: string, n: nat, ops: seq<Op<P>>)
    ensures Own(q, topic, n, ops).offered == q.offered + (if q.closed then [] else Published(ops, topic, n))
    decreases |ops|
  {
    if ops != [] {
      var p := OwnStep(q, topic, n, ops[0]);
      OfferedIsPublished(p, topic, n, ops[1..]);
      if !q.closed && ops[0].Publish? && ops[0].topic == topic {
        assert (q.offered + [ops[0].x]) + Published(ops[1..], topic, n)
            == q.offered + ([ops[0].x] + Published(ops[1..], topic, n));
      }
    }
  }

  lemma {:induction false} OverranIsFull<P>(v: BusView<P>, ops: seq<Op<P>>, topic: string, n: nat)
    requires v.Proper() && Belongs(v, topic, n)
    ensures n < |Run(v, ops).queues|
    ensures Run(v, ops).queues[n].overran <==> v.queues[n].overran || !NeverFull(v, ops, topic, n)
    decreases |ops|
  {
    if ops != [] {
      StepOwn(v, ops[0], topic, n);
      StepBelongs(v, ops[0], topic, n);
      OverranIsFull(Apply(v, ops[0]), ops[1..], topic, n);
    }
  }

  /**
   Delivery: what a subscriber received plus what it has buffered is an in-order subsequence
   of the events published on its topic since it subscribed and until it unsubscribed, and
   all of them exactly when its buffer was never full at a publish.
   */
  lemma Delivery<P>(v: BusView<P>, topic: string, ops: seq<Op<P>>)
    requires v.Proper()
    ensures var n, end := |v.queues|, Run(v.Subscribe(topic), ops);
      && n < |end.queues|
      && var q := end.queues[n];
      && Subsequence(q.taken + q.buffer, Published(ops, topic, n))
      && (q.taken + q.buffer == Published(ops, topic, n) <==> NeverFull(v.Subscribe(topic), ops, topic, n))
      && |q.buffer| <= 64
  {
    var n := |v.queues|;
    SubscribeProper(v, topic);
    QueuesIndependent(v.Subscribe(topic), ops, topic, n);
    assert QueueOk(NewQueue<P>());
    OwnOk(NewQueue<P>(), topic, n, ops);
    OfferedIsPublished(NewQueue<P>(), topic, n, ops);
    assert [] + Published(ops, topic, n) == Published(ops, topic, n);
    OverranIsFull(v.Subscribe(topic), ops, topic, n);
  }

  // ---- Subscriber ids -------------------------------------------------------

  /** The digits still to be written. */
  function Digits(n: nat): string {
    if n == 0 then "" else Decimal.Print(n)
  }

  /** Part-way through printing `n`: what is written is the numeral's end, `rest` its beginning. */
  ghost predicate Midway(n: int, rest: int, tail: string) {
    && |tail| <= 19
    && if n <= 0 then rest == n && tail == "" else rest >= 0 && Decimal.Print(n) == Digits(rest) + tail
  }

  lemma Start(n: int)
    ensures Midway(n, n, "")
  {
    if n > 0 {
      assert Digits(n) + "" == Digits(n);
    }
  }

  lemma MoveDigit(rest: nat, tail: string)
    requires rest > 0
    ensures Digits(rest) + tail == Digits(rest / 10) + ([Decimal.DigitChar(rest % 10)] + tail)
  {
    var d := [Decimal.DigitChar(rest % 10)];
    assert Digits(rest) == Digits(rest / 10) + d;
  }

  /** One more digit, and there is room for it. */
  lemma OneDigit(n: int, rest: int, tail: string)
    requires Midway(n, rest, tail) && rest > 0 && n <= Decimal.MAX_INT
    ensures |tail| <= 18 && Midway(n, rest / 10, [Decimal.DigitChar(rest % 10)] + tail)
  {
    Decimal.PrintFits(n);
    assert |Digits(rest) + tail| <= 19 && |Digits(rest)| > 0;
    MoveDigit(rest, tail);
  }

  lemma AllWritten(n: int, rest: int, tail: string)
    requires Midway(n, rest, tail) && rest <= 0 && n != 0
    ensures tail == if n < 0 then "" else Decimal.Print(n)
  {
  }

  /** Writing in front of what the buffer's end holds. */
  method PutBefore(buf: array<char>, pos: nat, c: char)
    requires 0 < pos <= buf.Length
    modifies buf
    ensures buf[pos - 1..] == [c] + old(buf[pos..])
  {
    buf[pos - 1] := c;
  }

  /** The decimal printer: fills a 20-byte buffer from the back. Negative numbers print as nothing. */
  method Itoa(n: int) returns (s: string)
    requires Decimal.MIN_INT <= n <= Decimal.MAX_INT
    ensures s == if n < 0 then "" else Decimal.Print(n)
  {
    if n == 0 {
      return "0";
    }
    var buf := new char[20];
    var pos, rest := buf.Length, n;
    ghost var tail := "";
    Start(n);
    while rest > 0
      invariant Midway(n, rest, tail) && pos == buf.Length - |tail| && buf[pos..] == tail
    {
      OneDigit(n, rest, tail);
      var c := Decimal.DigitChar(rest % 10);
      PutBefore(buf, pos, c);
      tail := [c] + tail;
      pos := pos - 1;
      rest := rest / 10;
    }
    AllWritten(n, rest, tail);
    s := buf[pos..];
  }

  function SubscriberId(topic: string, number: nat): string {
    topic + ":" + Decimal.Print(number)
  }

  /** Subscribers of one topic never share an id. */
  lemma IdsDistinct(topic: string, m: nat, n: nat)
    requires SubscriberId(topic, m) == SubscriberId(topic, n)
    ensures m == n
  {
    var a, b := SubscriberId(topic, m), SubscriberId(topic, n);
    assert a[|topic| + 1..] == Decimal.Print(m) && b[|topic| + 1..] == Decimal.Print(n);
    Decimal.PrintInjective(m, n);
  }

  // ---- The bus itself -------------------------------------------------------

  class Subscriber<P> {
    const id: string
    ghost const topic: string
    ghost const number: nat  // the bus's counter when it subscribed
    var buffer: seq<P>
    var closed: bool
    ghost var offered: seq<P>
    ghost var taken: seq<P>
    ghost var overran: bool

    constructor (id: string, ghost topic: string, ghost number: nat)
      ensures this.id == id && this.topic == topic && this.number == number && View() == NewQueue()
      ensures buffer == [] && !closed
    {
      this.id, this.topic, this.number := id, topic, number;
      buffer, closed, offered, taken, overran := [], false, [], [], false;
    }

    ghost function View(): Queue<P>
      reads this
    {
      Queue(buffer, closed, offered, taken, overran)
    }

    /** A non-blocking send; sending on a closed channel would panic. */
    method TrySend(x: P)
      requires !closed
      modifies this
      ensures View() == old(View()).Offer(x)
      ensures buffer == if |old(buffer)| < 64 then old(buffer) + [x] else old(buffer)
      ensures unchanged(`closed, `taken) && offered == old(offered) + [x]
      ensures overran <==> old(overran) || |old(buffer)| >= 64
    {
      if |buffer| < CAPACITY {
        buffer := buffer + [x];
      } else {
        overran := true;
      }
      offered := offered + [x];
    }

    /** Closing twice would panic. */
    method Close()
      requires !closed
      modifies this
      ensures View() == old(View()).Close() && closed
      ensures unchanged(`buffer, `offered, `taken, `overran)
    {
      closed := true;
    }

    /** The consumer's receive from a non-empty channel. */
    method Receive() returns (x: P)
      requires buffer != []
      modifies this
      ensures x == old(buffer[0]) && View() == old(View()).Take()
      ensures buffer == old(buffer)[1..] && taken == old(taken) + [x] && unchanged(`closed, `offered, `overran)
    {
      x := buffer[0];
      buffer, taken := buffer[1..], taken + [x];
    }
  }

  class Bus<P> {
    var subscribers: map<string, seq<Subscriber<P>>>
    var counter: nat
    ghost var all: seq<Subscriber<P>>  // in the order they subscribed

    ghost predicate Numbered()
      reads this, all
    {
      counter == |all|
      && forall i | 0 <= i < |all| :: all[i].number == i && all[i].id == SubscriberId(all[i].topic, i + 1)
    }

    ghost predicate ListOk(t: string)
      reads this, all
    {
      && (forall s | s in Listed(t) :: s.number < |all| && all[s.number] == s && s.topic == t && !s.closed)
      && (forall i, j | 0 <= i < j < |Listed(t)| :: Listed(t)[i] != Listed(t)[j])
    }

    ghost predicate Valid()
      reads this, all
    {
      Numbered() && forall t :: ListOk(t)
    }

    function Listed(topic: string): seq<Subscriber<P>>
      reads this
    {
      if topic in subscribers then subscribers[topic] else []
    }

    /** `v` is this bus as a product of queues. */
    ghost predicate Shows(v: BusView<P>)
      reads this, all
    {
      && |v.queues| == |v.topics| == |all|
      && (forall i | 0 <= i < |all| :: v.queues[i] == all[i].View() && v.topics[i] == all[i].topic)
      && forall t :: ShowsList(v, t)
    }

    ghost predicate ShowsList(v: BusView<P>, t: string)
      reads this
    {
      |v.Listed(t)| == |Listed(t)| && forall i | 0 <= i < |Listed(t)| :: v.Listed(t)[i] == Listed(t)[i].number
    }

    constructor ()
      ensures Valid() && subscribers == map[] && all == []
    {
      subscribers, counter, all := map[], 0, [];
    }

    /** `v`, here and below, is any view of the bus; the operation takes it to the view's own operation. */
    method Subscribe(topic: string, ghost v: BusView<P>) returns (sub: Subscriber<P>)
      requires Valid() && counter < Decimal.MAX_INT && Shows(v)
      modifies this
      ensures Valid() && fresh(sub) && all == old(all) + [sub] && sub.topic == topic && sub.View() == NewQueue()
      ensures subscribers == old(subscribers)[topic := old(Listed(topic)) + [sub]]
      ensures sub.id == topic + ":" + Decimal.Print(old(counter) + 1) && counter == old(counter) + 1
      ensures Shows(v.Subscribe(topic))
    {
      var n := Itoa(counter + 1);
      sub := new Subscriber(topic + ":" + n, topic, counter);
      Enlist(sub, topic);
      forall t ensures ShowsList(v.Subscribe(topic), t) {
        assert old(ShowsList(v, t));
      }
    }

    /** Counts the new subscriber in and lists it last. */
    method Enlist(sub: Subscriber<P>, topic: string)
      requires Valid() && sub !in all && sub.number == counter && sub.topic == topic && !sub.closed
      requires sub.id == SubscriberId(topic, counter + 1)
      modifies this
      ensures Valid() && all == old(all) + [sub]
      ensures subscribers == old(subscribers)[topic := old(Listed(topic)) + [sub]]
    {
      var was := Listed(topic);
      assert ListOk(topic);
      assert sub !in was;
      counter := counter + 1;
      subscribers := subscribers[topic := was + [sub]];
      all := all + [sub];
      forall t ensures ListOk(t) {
        assert old(ListOk(t));
        if t == topic {
          assert Listed(t) == was + [sub];
          assert forall i | 0 <= i < |was| :: was[i] in was;
        }
      }
    }

    /** The publishing loop: every listed subscriber is offered the event; every other one is untouched. */
    method OfferEach(topic: string, x: P)
      requires Valid()
      modifies Listed(topic)
      ensures Valid()
      ensures forall s | s in all :: s.View() == if s in Listed(topic) then old(s.View()).Offer(x) else old(s.View())
    {
      var subs := Listed(topic);
      assert ListOk(topic);
      for i := 0 to |subs|
        invariant forall k | 0 <= k < |subs| ::
          subs[k].View() == if k < i then old(subs[k].View()).Offer(x) else old(subs[k].View())
        invariant forall s | s in all && s !in subs :: s.View() == old(s.View())
        invariant forall s | s in all :: s.closed == old(s.closed)
      {
        assert subs[i] in subs && old(!subs[i].closed);
        subs[i].TrySend(x);
      }
      forall t ensures ListOk(t) {
        assert old(ListOk(t));
      }
    }

    method Publish(topic: string, x: P, ghost v: BusView<P>)
      requires Valid() && Shows(v)
      modifies Listed(topic)
      ensures Valid()
      ensures forall s | s in all :: s.View() == if s in Listed(topic) then old(s.View()).Offer(x) else old(s.View())
      ensures Shows(v.Publish(topic, x))
    {
      OfferEach(topic, x);
      assert old(ShowsList(v, topic));
      forall i | 0 <= i < |all| ensures v.Publish(topic, x).queues[i] == all[i].View() {
        NumberListed(v, topic, i);
      }
      forall t ensures ShowsList(v.Publish(topic, x), t) {
        assert old(ShowsList(v, t));
      }
    }

    lemma NumberListed(v: BusView<P>, topic: string, i: nat)
      requires Valid() && ShowsList(v, topic) && i < |all|
      ensures i in v.Listed(topic) <==> all[i] in Listed(topic)
    {
      assert ListOk(topic);
      if all[i] in Listed(topic) {
        var k :| 0 <= k < |Listed(topic)| && Listed(topic)[k] == all[i];
        assert v.Listed(topic)[k] == i;
      }
      if i in v.Listed(topic) {
        var k :| 0 <= k < |Listed(topic)| && v.Listed(topic)[k] == i;
        assert Listed(topic)[k] in Listed(topic);
      }
    }

    /** The first listed subscriber with this id is closed and unlisted; `n` is its number. */
    method CloseMatch(topic: string, id: string) returns (closed: bool, ghost n: nat, ghost at: nat)
      requires Valid()
      modifies this, Listed(topic)
      ensures Valid() && all == old(all) && counter == old(counter)
      ensures closed <==> exists k :: 0 <= k < |old(Listed(topic))| && old(Listed(topic))[k].id == id
      ensures forall s | s in all ::
        s.View() == if s in old(Listed(topic)) && s.id == id then old(s.View()).Close() else old(s.View())
      ensures forall s :: s in Listed(topic) <==> s in old(Listed(topic)) && s.id != id
      ensures forall t | t != topic :: Listed(t) == old(Listed(t))
      ensures closed ==>
        && at < |old(Listed(topic))| && old(Listed(topic))[at].id == id && old(Listed(topic))[at].number == n
        && Listed(topic) == old(Listed(topic))[..at] + old(Listed(topic))[at + 1..]
    {
      var subs := Listed(topic);
      assert ListOk(topic);
      closed, n, at := false, 0, 0;
      for i := 0 to |subs|
        invariant forall k | 0 <= k < i :: subs[k].id != id
      {
        if subs[i].id == id {
          OneMatch(topic, i);
          assert subs[i] in subs;
          subs[i].Close();
          forall t | t != topic ensures ListOk(t) {
            assert old(ListOk(t));
          }
          Unlist(topic, i);
          return true, subs[i].number, i;
        }
      }
    }

    /** What `unsub` runs with its captured topic and id. A second call finds nothing and does nothing. */
    method Unsubscribe(topic: string, id: string, ghost v: BusView<P>) returns (closed: bool, ghost n: nat)
      requires Valid() && Shows(v)
      modifies this, Listed(topic)
      ensures Valid() && all == old(all) && counter == old(counter)
      ensures closed <==> exists k :: 0 <= k < |old(Listed(topic))| && old(Listed(topic))[k].id == id
      ensures forall s | s in all ::
        s.View() == if s in old(Listed(topic)) && s.id == id then old(s.View()).Close() else old(s.View())
      ensures forall s :: s in Listed(topic) <==> s in old(Listed(topic)) && s.id != id
      ensures forall t | t != topic :: Listed(t) == old(Listed(t))
      ensures closed ==> Shows(v.Unsubscribe(topic, n))
    {
      ghost var at;
      ghost var was := Listed(topic);
      ListedNumbers(topic);
      assert ShowsList(v, topic) && |v.queues| == |all|;
      closed, n, at := CloseMatch(topic, id);
      if closed {
        assert was[at] in was && all[n] == was[at];
        UnlistedView(v, topic, was, at, v.Unsubscribe(topic, n));
        forall t ensures ShowsList(v.Unsubscribe(topic, n), t) {
          assert old(ShowsList(v, t));
        }
      }
    }

    /** Listed subscribers are numbered, each by its own number. */
    lemma ListedNumbers(topic: string)
      requires Valid()
      ensures forall k | 0 <= k < |Listed(topic)| ::
        Listed(topic)[k].number < |all| && all[Listed(topic)[k].number] == Listed(topic)[k]
      ensures forall j, k | 0 <= j < |Listed(topic)| && 0 <= k < |Listed(topic)| && j != k ::
        Listed(topic)[j].number != Listed(topic)[k].number
    {
      var subs := Listed(topic);
      assert ListOk(topic);
      forall k | 0 <= k < |subs| ensures subs[k].number < |all| && all[subs[k].number] == subs[k] {
        assert subs[k] in subs;
      }
      forall j, k | 0 <= j < |subs| && 0 <= k < |subs| && j != k ensures subs[j] != subs[k] {
        assert if j < k then subs[j] != subs[k] else subs[k] != subs[j];
      }
    }

    /** Dropping position `at` from the listed subscribers is dropping its number from the view. */
    lemma UnlistedView(v: BusView<P>, topic: string, was: seq<Subscriber<P>>, at: nat, u: BusView<P>)
      requires at < |was| && |v.Listed(topic)| == |was| && was[at].number < |v.queues|
      requires forall i | 0 <= i < |was| :: v.Listed(topic)[i] == was[i].number
      requires forall i | 0 <= i < |was| && i != at :: was[i].number != was[at].number
      requires Listed(topic) == was[..at] + was[at + 1..]
      requires u == v.Unsubscribe(topic, was[at].number)
      ensures ShowsList(u, topic)
    {
      assert v.Listed(topic)[at] == was[at].number;
      WithoutAt(v.Listed(topic), at);
    }

    /** Drops the i-th listed subscriber, which has just been closed. */
    method Unlist(topic: string, i: nat)
      requires i < |Listed(topic)| && Numbered() && Listed(topic)[i] in all
      requires forall t | t != topic :: ListOk(t)
      requires forall s | s in Listed(topic) :: s.number < |all| && all[s.number] == s && s.topic == topic
      requires forall k | 0 <= k < |Listed(topic)| && k != i :: !Listed(topic)[k].closed
      requires forall j, k | 0 <= j < k < |Listed(topic)| :: Listed(topic)[j] != Listed(topic)[k]
      modifies this`subscribers
      ensures Valid() && Listed(topic) == old(Listed(topic))[..i] + old(Listed(topic))[i + 1..]
      ensures forall s :: s in Listed(topic) <==> s in old(Listed(topic)) && s != old(Listed(topic))[i]
      ensures forall t | t != topic :: Listed(t) == old(Listed(t))
      ensures subscribers.Keys == old(subscribers).Keys && topic in subscribers
    {
      var subs := Listed(topic);
      subscribers := subscribers[topic := subs[..i] + subs[i + 1..]];
      forall s | s in subs && s != subs[i] ensures s in Listed(topic) {
        var k :| 0 <= k < |subs| && subs[k] == s;
        assert Listed(topic)[if k < i then k else k - 1] == s;
      }
      forall t ensures ListOk(t) {
        assert t != topic ==> old(ListOk(t));
      }
    }

    /** An id names one listed subscriber. */
    lemma OneMatch(topic: string, i: nat)
      requires Valid() && i < |Listed(topic)|
      ensures forall k | 0 <= k < |Listed(topic)| && k != i :: Listed(topic)[k].id != Listed(topic)[i].id
    {
      var subs := Listed(topic);
      assert ListOk(topic);
      forall k | 0 <= k < |subs| && k != i ensures subs[k].id != subs[i].id {
        if subs[k].id == subs[i].id {
          assert subs[k] in subs && subs[i] in subs;
          IdsDistinct(topic, subs[k].number + 1, subs[i].number + 1);
        }
      }
    }
  }
}
