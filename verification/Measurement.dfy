/**
 The ping/pong clock measurement (link/measurement.go, median in
 link/engine.go): the messages, the estimator and its accuracy.
 */
module Measurement {
  import opened Rounding
  import opened Tempos
  import opened Wire
  import opened NodeIds

  // ----- Messages -----

  function MicrosEntry(key: nat, t: Micros): Entry {
    Entry(key, EncodeInt64(t))
  }

  function DecodeMicros(value: Bytes): Result<Micros> {
    if |value| != 8 then Err else Ok(DecodeInt64(value))
  }

  /** A ping carries the sender's host time and, unless it is 0, the peer's last ghost time. */
  function PingEntries(host: Micros, prevGhost: Micros): seq<Entry> {
    [MicrosEntry(KEY_HOST_TIME, host)] + if prevGhost != 0 then [MicrosEntry(KEY_PREV_GHOST_TIME, prevGhost)] else []
  }

  /** A pong carries the session and ghost time of the responder and the ping's payload, byte for byte. */
  function PongMessage(sessionId: NodeId, ghostTime: Micros, pingPayload: Bytes): Bytes {
    EncodeLinkMessage(LINK_PONG, PongHead(sessionId, ghostTime)) + pingPayload
  }

  datatype Pong = Pong(
    sessionId: NodeId,
    ghostTime: Micros,
    prevGhost: Micros,
    prevHost: Micros,
    hasPrevGhost: bool,
    hasPrevHost: bool)

  const NO_PONG := Pong(ZERO_ID, 0, 0, 0, false, false)

  function ApplyPongEntry(p: Pong, e: Entry): Result<Pong> {
    if e.key == KEY_SESSION then
      if |e.value| != 8 then Err else Ok(p.(sessionId := RawId(e.value)))
    else if e.key in {KEY_GHOST_TIME, KEY_PREV_GHOST_TIME, KEY_HOST_TIME} then
      match DecodeMicros(e.value)
      case Ok(t) => Ok(
        if e.key == KEY_GHOST_TIME then p.(ghostTime := t)
        else if e.key == KEY_PREV_GHOST_TIME then p.(prevGhost := t, hasPrevGhost := true)
        else p.(prevHost := t, hasPrevHost := true))
      case Err => Err
    else Ok(p)
  }

  function ApplyPongEntries(p: Pong, es: seq<Entry>): Result<Pong>
    decreases |es|
  {
    if es == [] then Ok(p)
    else
      match ApplyPongEntry(p, es[0])
      case Ok(next) => ApplyPongEntries(next, es[1..])
      case Err => Err
  }

  function DecodePong(payload: Bytes): Result<Pong> {
    match ParseEntries(payload)
    case Ok(es) => ApplyPongEntries(NO_PONG, es)
    case Err => Err
  }

  lemma {:induction false} ApplyAppended(p: Pong, a: seq<Entry>, b: seq<Entry>)
    requires ApplyPongEntries(p, a).Ok?
    ensures ApplyPongEntries(p, a + b) == ApplyPongEntries(ApplyPongEntries(p, a).value, b)
    decreases |a|
  {
    if a == [] {
      assert a + b == b;
    } else {
      assert (a + b)[1..] == a[1..] + b;
      ApplyAppended(ApplyPongEntry(p, a[0]).value, a[1..], b);
    }
  }

  function PongHead(sessionId: NodeId, ghostTime: Micros): seq<Entry> {
    [Entry(KEY_SESSION, sessionId.bytes), MicrosEntry(KEY_GHOST_TIME, ghostTime)]
  }

  lemma HeadApplies(sessionId: NodeId, ghostTime: Micros)
    requires IsInt64(ghostTime)
    ensures ApplyPongEntries(NO_PONG, PongHead(sessionId, ghostTime)) == Ok(NO_PONG.(sessionId := sessionId, ghostTime := ghostTime))
  {
    Int64RoundTrip(ghostTime);
    hide EncodeInt64, DecodeInt64;
    var head := PongHead(sessionId, ghostTime);
    assert head[1..] == [head[1]] && head[1..][1..] == [];
    var p := NO_PONG.(sessionId := sessionId);
    assert ApplyPongEntry(NO_PONG, head[0]) == Ok(p);
    assert ApplyPongEntry(p, head[1]) == Ok(p.(ghostTime := ghostTime));
    assert ApplyPongEntries(NO_PONG, head) == ApplyPongEntries(p, head[1..]);
  }

  lemma PingApplies(p: Pong, host: Micros, prevGhost: Micros)
    requires IsInt64(host) && IsInt64(prevGhost) && !p.hasPrevGhost && p.prevGhost == 0
    ensures ApplyPongEntries(p, PingEntries(host, prevGhost))
      == Ok(p.(prevHost := host, hasPrevHost := true, prevGhost := prevGhost, hasPrevGhost := prevGhost != 0))
  {
    Int64RoundTrip(host);
    Int64RoundTrip(prevGhost);
    hide EncodeInt64, DecodeInt64;
    var ping := PingEntries(host, prevGhost);
    var q := p.(prevHost := host, hasPrevHost := true);
    assert ApplyPongEntry(p, ping[0]) == Ok(q);
    assert ApplyPongEntries(p, ping) == ApplyPongEntries(q, ping[1..]);
    if prevGhost != 0 {
      assert ping[1..] == [ping[1]] && ping[1..][1..] == [];
      assert ApplyPongEntry(q, ping[1]) == Ok(q.(prevGhost := prevGhost, hasPrevGhost := true));
    } else {
      assert ping[1..] == [];
    }
  }

  /** The pong that answers a ping is read as the responder's session and ghost time and the ping's own times. */
  lemma PongEchoesPing(sessionId: NodeId, ghostTime: Micros, host: Micros, prevGhost: Micros)
    requires IsInt64(ghostTime) && IsInt64(host) && IsInt64(prevGhost)
    ensures var data := PongMessage(sessionId, ghostTime, EncodeEntries(PingEntries(host, prevGhost)));
      && ParseLinkMessage(data).Ok? && ParseLinkMessage(data).value.0 == LINK_PONG
      && DecodePong(ParseLinkMessage(data).value.1) == Ok(Pong(sessionId, ghostTime, prevGhost, host, prevGhost != 0, true))
  {
    var head, ping := PongHead(sessionId, ghostTime), PingEntries(host, prevGhost);
    LinkRoundTrip(LINK_PONG, head, EncodeEntries(ping));
    hide DecodePong, EncodeInt64, DecodeInt64, ParseLinkMessage, EncodeLinkMessage, EncodeEntries, PingEntries, PongHead;
    PongPayloadDecodes(sessionId, ghostTime, host, prevGhost);
  }

  lemma PongPayloadDecodes(sessionId: NodeId, ghostTime: Micros, host: Micros, prevGhost: Micros)
    requires IsInt64(ghostTime) && IsInt64(host) && IsInt64(prevGhost)
    ensures DecodePong(EncodeEntries(PongHead(sessionId, ghostTime)) + EncodeEntries(PingEntries(host, prevGhost)))
      == Ok(Pong(sessionId, ghostTime, prevGhost, host, prevGhost != 0, true))
  {
    var head, ping := PongHead(sessionId, ghostTime), PingEntries(host, prevGhost);
    assert forall e | e in head + ping :: Encodable(e) && e.value != [];
    NothingEmpty(head);
    NothingEmpty(ping);
    hide EncodeInt64, DecodeInt64, EncodeEntries, ParseEntries, PingEntries, PongHead, ApplyPongEntries;
    HeadApplies(sessionId, ghostTime);
    PingApplies(NO_PONG.(sessionId := sessionId, ghostTime := ghostTime), host, prevGhost);
    ApplyAppended(NO_PONG, head, ping);
    EntriesRoundTrip(ping);
    ParseOfEncode(head, EncodeEntries(ping));
  }

  // ----- The estimator -----

  function Insert(x: real, s: seq<real>): seq<real> {
    if s == [] || x <= s[0] then [x] + s else [s[0]] + Insert(x, s[1..])
  }

  /** The samples in ascending order, as the library sort leaves them. */
  function Sort(xs: seq<real>): seq<real> {
    if xs == [] then [] else Insert(xs[0], Sort(xs[1..]))
  }

  function Median(xs: seq<real>): real {
    var s := Sort(xs);
    var n := |s|;
    if n == 0 then 0.0
    else if n % 2 == 0 then (s[n / 2] + s[(n - 1) / 2]) / 2.0
    else s[n / 2]
  }

  ghost predicate Sorted(s: seq<real>) {
    forall i, j | 0 <= i < j < |s| :: s[i] <= s[j]
  }

  lemma {:induction false} InsertAddsOne(x: real, s: seq<real>)
    ensures multiset(Insert(x, s)) == multiset{x} + multiset(s)
  {
    if s != [] && x > s[0] {
      InsertAddsOne(x, s[1..]);
      assert s == [s[0]] + s[1..];
    }
  }

  lemma ConsKeepsSorted(x: real, s: seq<real>)
    requires Sorted(s) && forall y | y in s :: x <= y
    ensures Sorted([x] + s)
  {
    forall i, j | 0 <= i < j < |[x] + s| ensures ([x] + s)[i] <= ([x] + s)[j] {
      assert ([x] + s)[j] == s[j - 1] && s[j - 1] in s;
    }
  }

  lemma InsertHas(x: real, s: seq<real>, y: real)
    requires y in Insert(x, s)
    ensures y == x || y in s
  {
    InsertAddsOne(x, s);
    hide Insert;
    assert y in multiset(Insert(x, s));
  }

  lemma {:induction false} InsertKeepsSorted(x: real, s: seq<real>)
    requires Sorted(s)
    ensures Sorted(Insert(x, s))
  {
    if s == [] || x <= s[0] {
      ConsKeepsSorted(x, s);
    } else {
      var t := s[1..];
      InsertKeepsSorted(x, t);
      forall y | y in Insert(x, t) ensures s[0] <= y {
        InsertHas(x, t, y);
      }
      ConsKeepsSorted(s[0], Insert(x, t));
    }
  }

  lemma {:induction false} SortIsSorted(xs: seq<real>)
    ensures Sorted(Sort(xs)) && multiset(Sort(xs)) == multiset(xs) && |Sort(xs)| == |xs|
  {
    if xs != [] {
      SortIsSorted(xs[1..]);
      InsertKeepsSorted(xs[0], Sort(xs[1..]));
      InsertAddsOne(xs[0], Sort(xs[1..]));
      assert xs == [xs[0]] + xs[1..];
    }
    assert |multiset(Sort(xs))| == |Sort(xs)|;
  }

  /** There is only one way to sort, so the median does not depend on the sorting algorithm. */
  lemma SortIsUnique(s: seq<real>, xs: seq<real>)
    requires Sorted(s) && multiset(s) == multiset(xs)
    ensures s == Sort(xs)
  {
    SortIsSorted(xs);
    SortedSameElements(s, Sort(xs));
  }

  lemma {:induction false} SortedSameElements(s: seq<real>, t: seq<real>)
    requires Sorted(s) && Sorted(t) && multiset(s) == multiset(t)
    ensures s == t
  {
    assert |multiset(s)| == |s| && |multiset(t)| == |t|;
    if s != [] {
      SameLeast(s, t);
      SplitFirst(s);
      SplitFirst(t);
      hide Sorted;
      SortedSameElements(s[1..], t[1..]);
    }
  }

  lemma SplitFirst(s: seq<real>)
    requires Sorted(s) && s != []
    ensures s == [s[0]] + s[1..] && Sorted(s[1..]) && multiset(s[1..]) == multiset(s) - multiset{s[0]}
  {
    assert s == [s[0]] + s[1..];
  }

  lemma SameLeast(s: seq<real>, t: seq<real>)
    requires Sorted(s) && Sorted(t) && multiset(s) == multiset(t) && s != [] && t != []
    ensures s[0] == t[0]
  {
    assert s[0] in multiset(t) && t[0] in multiset(s);
  }

  /** The number of samples within [lo, hi]. */
  function CountIn(xs: seq<real>, lo: real, hi: real): nat {
    if xs == [] then 0 else (if lo <= xs[0] <= hi then 1 else 0) + CountIn(xs[1..], lo, hi)
  }

  lemma {:induction false} CountInInsert(x: real, s: seq<real>, lo: real, hi: real)
    ensures CountIn(Insert(x, s), lo, hi) == (if lo <= x <= hi then 1 else 0) + CountIn(s, lo, hi)
  {
    if s == [] || x <= s[0] {
      assert ([x] + s)[1..] == s;
    } else {
      CountInInsert(x, s[1..], lo, hi);
      assert Insert(x, s)[1..] == Insert(x, s[1..]);
    }
  }

  lemma {:induction false} CountInSort(xs: seq<real>, lo: real, hi: real)
    ensures CountIn(Sort(xs), lo, hi) == CountIn(xs, lo, hi)
  {
    if xs != [] {
      CountInSort(xs[1..], lo, hi);
      CountInInsert(xs[0], Sort(xs[1..]), lo, hi);
    }
  }

  /** Samples below the range at the front, or above it at the back, bound the count. */
  lemma {:induction false} CountInBounds(s: seq<real>, lo: real, hi: real, front: nat, back: nat)
    requires front <= |s| && back <= |s|
    requires forall i | 0 <= i < front :: s[i] < lo
    requires forall i | back <= i < |s| :: s[i] > hi
    ensures CountIn(s, lo, hi) <= |s| - front && CountIn(s, lo, hi) <= back
  {
    if s != [] {
      CountInBounds(s[1..], lo, hi, if front > 0 then front - 1 else 0, if back > 0 then back - 1 else 0);
    }
  }

  /** When a strict majority of the samples lies in a range, so does each middle element. */
  lemma MiddleIsInRange(s: seq<real>, lo: real, hi: real, k: nat)
    requires Sorted(s) && 2 * CountIn(s, lo, hi) > |s|
    requires k < |s| && |s| - 1 <= 2 * k + 1 && 2 * k <= |s|
    ensures lo <= s[k] <= hi
  {
    if s[k] < lo {
      CountInBounds(s, lo, hi, k + 1, |s|);
    } else if s[k] > hi {
      CountInBounds(s, lo, hi, 0, k);
    }
  }

  lemma CountIsPositive(xs: seq<real>, lo: real, hi: real)
    requires 2 * CountIn(xs, lo, hi) > |xs|
    ensures xs != []
  {}

  /** If a strict majority of the samples lies in a range, the median does, for odd and even counts. */
  lemma MedianOfMajority(xs: seq<real>, lo: real, hi: real)
    requires 2 * CountIn(xs, lo, hi) > |xs|
    ensures lo <= Median(xs) <= hi
  {
    SortIsSorted(xs);
    CountInSort(xs, lo, hi);
    CountIsPositive(xs, lo, hi);
    hide Sort, Sorted, CountIn;
    var s := Sort(xs);
    MiddleIsInRange(s, lo, hi, |s| / 2);
    MiddleIsInRange(s, lo, hi, (|s| - 1) / 2);
  }

  lemma {:induction false} CountInAll(xs: seq<real>, lo: real, hi: real)
    requires forall x | x in xs :: lo <= x <= hi
    ensures CountIn(xs, lo, hi) == |xs|
  {
    if xs != [] {
      assert xs[0] in xs && forall x | x in xs[1..] :: x in xs;
      CountInAll(xs[1..], lo, hi);
    }
  }

  /** A strict majority is needed: with half of two samples out of range the median leaves it. */
  lemma HalfIsNotEnough()
    ensures 2 * CountIn([0.0, 10.0], 0.0, 1.0) == 2 && Median([0.0, 10.0]) == 5.0
  {}

  /** The samples one pong yields when it is received at host time now. */
  function Samples(p: Pong, now: Micros): seq<real> {
    (if p.ghostTime != 0 && p.hasPrevHost && p.prevHost != 0
     then [p.ghostTime as real - (now as real + p.prevHost as real) * 0.5] else [])
    + (if p.hasPrevGhost && p.prevGhost != 0
       then [(p.ghostTime as real + p.prevGhost as real) * 0.5 - p.prevHost as real] else [])
  }

  // ----- A network with bounded delays -----

  /** One measurement over a network: the samples so far and every message ever sent. */
  datatype Exchange = Exchange(points: seq<real>, pings: set<Ping>, replies: set<Reply>)

  datatype Ping = Ping(host: Micros, prevGhost: Micros)

  datatype Reply = Reply(ping: Ping, ghostTime: Micros)

  /** What can happen, in any order and any number of times. */
  datatype Transfer =
    | SendPing(now: Micros)
    | Answer(ping: Ping, repliedAt: Micros)
    | Receive(reply: Reply, now: Micros)

  /** A peer whose ghost clock is the host clock plus offset, over one-way delays in [dmin, dmax]. */
  datatype Link = Link(offset: Micros, dmin: Micros, dmax: Micros) {
    predicate InTime(delay: Micros) {
      dmin <= delay <= dmax
    }

    predicate Possible(x: Exchange, s: Transfer) {
      match s
      case SendPing(_) => true
      case Answer(ping, repliedAt) => ping in x.pings && InTime(repliedAt - ping.host)
      case Receive(reply, now) => reply in x.replies && InTime(now - (reply.ghostTime - offset))
    }

    function Next(x: Exchange, s: Transfer): Exchange {
      match s
      case SendPing(now) => x.(pings := x.pings + {Ping(now, 0)})
      case Answer(ping, repliedAt) => x.(replies := x.replies + {Reply(ping, repliedAt + offset)})
      case Receive(reply, now) =>
        x.(points := x.points + Samples(Received(reply), now), pings := x.pings + {Ping(now, reply.ghostTime)})
    }

    predicate PossibleRun(x: Exchange, steps: seq<Transfer>)
      decreases |steps|
    {
      steps == [] || (Possible(x, steps[0]) && PossibleRun(Next(x, steps[0]), steps[1..]))
    }

    function Run(x: Exchange, steps: seq<Transfer>): Exchange
      decreases |steps|
    {
      if steps == [] then x else Run(Next(x, steps[0]), steps[1..])
    }

    /** A sample is off by at most half the spread of the delays. */
    predicate Accurate(sample: real) {
      2.0 * -(dmax - dmin) as real <= 4.0 * (sample - offset as real) <= 2.0 * (dmax - dmin) as real
    }

    ghost predicate Timely(x: Exchange) {
      && (forall p | p in x.points :: Accurate(p))
      && (forall p | p in x.pings :: p.prevGhost != 0 ==> InTime(p.host - (p.prevGhost - offset)))
      && (forall r | r in x.replies :: r.ping in x.pings && InTime(r.ghostTime - offset - r.ping.host))
    }

    /** The pong as PongEchoesPing decodes it. */
    static function Received(reply: Reply): Pong {
      Pong(ZERO_ID, reply.ghostTime, reply.ping.prevGhost, reply.ping.host, reply.ping.prevGhost != 0, true)
    }

    lemma TransferStaysTimely(x: Exchange, s: Transfer)
      requires Timely(x) && Possible(x, s)
      ensures Timely(Next(x, s))
    {}

    lemma {:induction false} RunStaysTimely(x: Exchange, steps: seq<Transfer>)
      requires Timely(x) && PossibleRun(x, steps)
      ensures Timely(Run(x, steps))
      decreases |steps|
    {
      if steps != [] {
        TransferStaysTimely(x, steps[0]);
        RunStaysTimely(Next(x, steps[0]), steps[1..]);
      }
    }

    /**
     Whatever the order, loss and duplication of messages, every sample is
     within half the spread of the delays of the true offset, and the
     installed intercept within that plus one half.
     */
    lemma MeasurementIsAccurate(steps: seq<Transfer>)
      requires PossibleRun(Exchange([], {}, {}), steps)
      ensures var points := Run(Exchange([], {}, {}), steps).points;
        && (forall p | p in points :: Accurate(p))
        && (points != [] ==> 2 * Abs(Llround(Median(points)) - offset) <= dmax - dmin + 1)
    {
      var x := Exchange([], {}, {});
      RunStaysTimely(x, steps);
      var points := Run(x, steps).points;
      if points != [] {
        MedianIsAccurate(points);
      }
    }

    /** The rounded median of accurate samples is off by at most half the spread plus one half. */
    lemma MedianIsAccurate(points: seq<real>)
      requires points != [] && forall p | p in points :: Accurate(p)
      ensures 2 * Abs(Llround(Median(points)) - offset) <= dmax - dmin + 1
    {
      var half := (dmax - dmin) as real / 2.0;
      var lo, hi := offset as real - half, offset as real + half;
      CountInAll(points, lo, hi);
      MedianOfMajority(points, lo, hi);
      InterceptIsClose(Median(points), dmax - dmin);
    }

    /**
     A reply with its times set yields exactly one sample, or two if the ping it
     answers carried a ghost time itself. Each is the offset plus half of what
     the way there took longer than a way back.
     */
    lemma SamplesOfReply(pong: Pong, now: Micros)
      requires pong.ghostTime != 0 && pong.hasPrevHost && pong.prevHost != 0 && pong.hasPrevGhost == (pong.prevGhost != 0)
      ensures var s := Samples(pong, now);
        var repliedAt := pong.ghostTime - offset;
        var forward, back, backBefore := repliedAt - pong.prevHost, now - repliedAt, pong.prevHost - (pong.prevGhost - offset);
        && |s| == (if pong.prevGhost == 0 then 1 else 2)
        && 2.0 * (s[0] - offset as real) == (forward - back) as real
        && (pong.prevGhost != 0 ==> 2.0 * (s[1] - offset as real) == (forward - backBefore) as real)
    {}

    /** The samples of an in-time reply to a ping whose own ghost time was in time. */
    lemma SamplesAreAccurate(pong: Pong, host: Micros, now: Micros)
      requires pong.hasPrevHost && pong.prevHost == host && pong.hasPrevGhost == (pong.prevGhost != 0)
      requires InTime(pong.ghostTime - offset - host) && InTime(now - (pong.ghostTime - offset))
      requires pong.prevGhost != 0 ==> InTime(host - (pong.prevGhost - offset))
      ensures forall p | p in Samples(pong, now) :: Accurate(p)
    {
      var ping := Ping(host, pong.prevGhost);
      var reply := Reply(ping, pong.ghostTime);
      var x := Exchange([], {ping}, {reply});
      TransferStaysTimely(x, Receive(reply, now));
      assert Next(x, Receive(reply, now)).points == Samples(pong, now);
    }

    lemma InterceptIsClose(m: real, spread: Micros)
      requires offset as real - spread as real / 2.0 <= m <= offset as real + spread as real / 2.0
      ensures 2 * Abs(Llround(m) - offset) <= spread + 1
    {}
  }
}
