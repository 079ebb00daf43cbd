/** The UDP replicator: numbered snapshots, acknowledgements, bounded retries. */
module Replicator {
  import opened CounterTypes
  import opened ReplicaMerge
  import opened Sums

  type Peer = nat

  datatype Frame =
    | Snapshot(component: nat, sequence: nat, counter: nat, epoch: nat, value: nat)
    | Ack(component: nat, sequence: nat)

  datatype Datagram = Datagram(frame: Frame, peer: Peer)

  datatype Pending = Pending(datagram: Datagram, retryAt: nat, attempts: nat)

  /** One sample meant for one peer. */
  datatype Offer = Offer(sample: Sample, peer: Peer)

  /** The component is cut to its 16-bit field on the wire. */
  function Encode(offer: Offer, sequence: nat): (d: Datagram)
  {
    var key := offer.sample.key;
    Datagram(Snapshot(key.component % 0x1_0000, sequence, key.counter, key.epoch, offer.sample.value), offer.peer)
  }

  /** The datagrams for consecutive sequence numbers. */
  function Numbered(offers: seq<Offer>, first: nat): (d: seq<Datagram>)
    ensures |d| == |offers|
  {
    seq(|offers|, i requires 0 <= i < |offers| => Encode(offers[i], first + i))
  }

  lemma NumberedExtend(offers: seq<Offer>, o: Offer, first: nat)
    ensures Numbered(offers + [o], first) == Numbered(offers, first) + [Encode(o, first + |offers|)]
  {
  }

  function Row(sample: Sample, peers: seq<Peer>): (offers: seq<Offer>)
    ensures |offers| == |peers|
  {
    seq(|peers|, i requires 0 <= i < |peers| => Offer(sample, peers[i]))
  }

  lemma OffersExtend(order: seq<ComponentKey>, key: ComponentKey, newest: View, peers: seq<Peer>)
    requires key in newest && forall k :: k in order ==> k in newest
    ensures Offers(order + [key], newest, peers) == Offers(order, newest, peers) + Row(Sample(key, newest[key]), peers)
    ensures |Row(Sample(key, newest[key]), peers)| == |peers|
  {
    assert (order + [key])[..|order|] == order;
  }

  /** Every key of the batch with its newest value, for every peer. */
  function Offers(order: seq<ComponentKey>, newest: View, peers: seq<Peer>): (offers: seq<Offer>)
    requires forall k :: k in order ==> k in newest
  {
    if order == [] then []
    else
      var k := order[|order| - 1];
      Offers(order[..|order| - 1], newest, peers) + Row(Sample(k, newest[k]), peers)
  }

  lemma Times(k: nat, n: nat)
    ensures (k + 1) * n == k * n + n
  {
  }

  lemma {:induction false} OffersSize(order: seq<ComponentKey>, newest: View, peers: seq<Peer>)
    requires forall k :: k in order ==> k in newest
    ensures |Offers(order, newest, peers)| == |order| * |peers|
  {
    if order != [] {
      OffersSize(order[..|order| - 1], newest, peers);
      Times(|order| - 1, |peers|);
    }
  }

  /** The offers are all pairs of a key and a peer, each once, key by key. */
  lemma {:induction false} OffersAreAllPairs(order: seq<ComponentKey>, newest: View, peers: seq<Peer>, i: nat, j: nat)
    requires forall k :: k in order ==> k in newest
    requires i < |order| && j < |peers|
    ensures |Offers(order, newest, peers)| == |order| * |peers| && i * |peers| + j < |order| * |peers|
    ensures Offers(order, newest, peers)[i * |peers| + j] == Offer(Sample(order[i], newest[order[i]]), peers[j])
    decreases |order|
  {
    var last := |order| - 1;
    OffersSize(order, newest, peers);
    OffersSize(order[..last], newest, peers);
    Times(last, |peers|);
    if i < last {
      OffersAreAllPairs(order[..last], newest, peers, i, j);
    }
  }

  /** The datagram that announces an offer under a number; the component is cut to its 16-bit field. */
  predicate Announces(d: Datagram, o: Offer, sequence: nat)
  {
    && d.peer == o.peer
    && d.frame == Snapshot(o.sample.key.component % 0x1_0000, sequence, o.sample.key.counter, o.sample.key.epoch, o.sample.value)
  }

  /** The wire after the first n offers went out. */
  predicate Announced(before: seq<Datagram>, after: seq<Datagram>, offers: seq<Offer>, n: nat, first: nat)
  {
    && n <= |offers| && |after| == |before| + n && before <= after
    && forall i :: 0 <= i < n ==> Announces(after[|before| + i], offers[i], first + i)
  }

  predicate Carries(d: Datagram, sequence: nat)
  {
    d.frame.Snapshot? && d.frame.sequence == sequence
  }

  /** How often a numbered snapshot was handed to the socket. */
  function Transmissions(wire: seq<Datagram>, sequence: nat): (n: nat)
  {
    if wire == [] then 0
    else Transmissions(wire[..|wire| - 1], sequence) + (if Carries(wire[|wire| - 1], sequence) then 1 else 0)
  }

  lemma TransmissionsAppend(wire: seq<Datagram>, d: Datagram, sequence: nat)
    ensures Transmissions(wire + [d], sequence) == Transmissions(wire, sequence) + (if Carries(d, sequence) then 1 else 0)
  {
    assert (wire + [d])[..|wire|] == wire;
  }

  /** The sender's books since the last start. */
  datatype Session = Session(pending: map<nat, Pending>, next: nat, acked: nat, expired: nat, wire: seq<Datagram>)

  /** A pending sequence was sent once for the first time and once for each attempt. */
  ghost predicate EntryOk(x: Session, maxRetries: nat, s: nat)
    requires s in x.pending
  {
    var p := x.pending[s];
    1 <= s < x.next && Carries(p.datagram, s) && p.attempts <= maxRetries && Transmissions(x.wire, s) == 1 + p.attempts
  }

  ghost predicate SequenceOk(x: Session, maxRetries: nat, s: nat)
  {
    Transmissions(x.wire, s) <= 1 + maxRetries && (s >= x.next || s == 0 ==> Transmissions(x.wire, s) == 0)
  }

  /** Every issued sequence is acknowledged, given up or pending, and none is sent too often. */
  ghost predicate SessionOk(x: Session, maxRetries: nat, maxPending: nat)
  {
    && x.next == 1 + x.acked + x.expired + |x.pending|
    && |x.pending| <= maxPending
    && (forall s :: s in x.pending ==> EntryOk(x, maxRetries, s))
    && (forall s: nat :: SequenceOk(x, maxRetries, s))
  }

  function Issue(x: Session, offer: Offer, retryAt: nat): (y: Session)
  {
    var d := Encode(offer, x.next);
    x.(pending := x.pending[x.next := Pending(d, retryAt, 0)], next := x.next + 1, wire := x.wire + [d])
  }

  function Settle(x: Session, s: nat): (y: Session)
  {
    x.(pending := x.pending - {s}, acked := x.acked + 1)
  }

  function GiveUp(x: Session, s: nat): (y: Session)
  {
    x.(pending := x.pending - {s}, expired := x.expired + 1)
  }

  function Resend(x: Session, s: nat, retryAt: nat): (y: Session)
    requires s in x.pending
  {
    var p := x.pending[s];
    x.(pending := x.pending[s := Pending(p.datagram, retryAt, p.attempts + 1)], wire := x.wire + [p.datagram])
  }

  lemma IssueKeepsBooks(x: Session, offer: Offer, retryAt: nat, maxRetries: nat, maxPending: nat)
    requires SessionOk(x, maxRetries, maxPending) && |x.pending| < maxPending
    ensures SessionOk(Issue(x, offer, retryAt), maxRetries, maxPending)
    ensures |Issue(x, offer, retryAt).pending| == |x.pending| + 1
  {
    hide Transmissions;
    var y := Issue(x, offer, retryAt);
    assert x.next !in x.pending;
    forall s: nat
      ensures SequenceOk(y, maxRetries, s)
      ensures s in y.pending ==> EntryOk(y, maxRetries, s)
    {
      assert SequenceOk(x, maxRetries, s);
      TransmissionsAppend(x.wire, Encode(offer, x.next), s);
    }
  }

  lemma RemovalKeepsBooks(x: Session, s: nat, maxRetries: nat, maxPending: nat)
    requires SessionOk(x, maxRetries, maxPending) && s in x.pending
    ensures SessionOk(Settle(x, s), maxRetries, maxPending)
    ensures SessionOk(GiveUp(x, s), maxRetries, maxPending)
    ensures |x.pending - {s}| == |x.pending| - 1
  {
    hide Transmissions;
    var y := x.pending - {s};
    assert y.Keys == x.pending.Keys - {s};
    forall t: nat
      ensures SequenceOk(Settle(x, s), maxRetries, t) && SequenceOk(GiveUp(x, s), maxRetries, t)
      ensures t in y ==> EntryOk(Settle(x, s), maxRetries, t) && EntryOk(GiveUp(x, s), maxRetries, t)
    {
      assert SequenceOk(x, maxRetries, t);
      assert t in y ==> EntryOk(x, maxRetries, t);
    }
  }

  lemma ResendKeepsBooks(x: Session, s: nat, retryAt: nat, maxRetries: nat, maxPending: nat)
    requires SessionOk(x, maxRetries, maxPending) && s in x.pending && x.pending[s].attempts < maxRetries
    ensures SessionOk(Resend(x, s, retryAt), maxRetries, maxPending)
  {
    hide Transmissions;
    var y := Resend(x, s, retryAt);
    assert EntryOk(x, maxRetries, s);
    assert y.pending.Keys == x.pending.Keys;
    forall t: nat
      ensures SequenceOk(y, maxRetries, t)
      ensures t in y.pending ==> EntryOk(y, maxRetries, t)
    {
      assert SequenceOk(x, maxRetries, t);
      assert t in x.pending ==> EntryOk(x, maxRetries, t);
      TransmissionsAppend(x.wire, x.pending[s].datagram, t);
    }
  }

  /** An acknowledgement that reaches the socket changes nothing in the books. */
  lemma AckKeepsBooks(x: Session, d: Datagram, maxRetries: nat, maxPending: nat)
    requires SessionOk(x, maxRetries, maxPending) && d.frame.Ack?
    ensures SessionOk(x.(wire := x.wire + [d]), maxRetries, maxPending)
  {
    hide Transmissions;
    var y := x.(wire := x.wire + [d]);
    forall t: nat
      ensures SequenceOk(y, maxRetries, t)
      ensures t in y.pending ==> EntryOk(y, maxRetries, t)
    {
      assert SequenceOk(x, maxRetries, t);
      assert t in x.pending ==> EntryOk(x, maxRetries, t);
      TransmissionsAppend(x.wire, d, t);
    }
  }

  /** Everything the sender ever does to its books. */
  datatype BookStep =
    | Issued(offer: Offer, at: nat)
    | Settled(sequence: nat)
    | GivenUp(sequence: nat)
    | Resent(sequence: nat, at: nat)
    | Acknowledges(d: Datagram)

  predicate BookStepAllowed(x: Session, b: BookStep, maxRetries: nat, maxPending: nat)
  {
    match b
    case Issued(_, _) => |x.pending| < maxPending
    case Settled(s) => s in x.pending
    case GivenUp(s) => s in x.pending && x.pending[s].attempts >= maxRetries
    case Resent(s, _) => s in x.pending && x.pending[s].attempts < maxRetries
    case Acknowledges(d) => d.frame.Ack?
  }

  function TakeBookStep(x: Session, b: BookStep, maxRetries: nat, maxPending: nat): (y: Session)
    requires BookStepAllowed(x, b, maxRetries, maxPending)
  {
    match b
    case Issued(offer, at) => Issue(x, offer, at)
    case Settled(s) => Settle(x, s)
    case GivenUp(s) => GiveUp(x, s)
    case Resent(s, at) => Resend(x, s, at)
    case Acknowledges(d) => x.(wire := x.wire + [d])
  }

  ghost predicate IsBookRun(run: seq<Session>, steps: seq<BookStep>, maxRetries: nat, maxPending: nat)
  {
    && |run| == |steps| + 1 && run[0] == Session(map[], 1, 0, 0, [])
    && forall k: nat :: k < |steps| ==>
         BookStepAllowed(run[k], steps[k], maxRetries, maxPending) && run[k + 1] == TakeBookStep(run[k], steps[k], maxRetries, maxPending)
  }

  lemma {:induction false} RunKeepsBooks(run: seq<Session>, steps: seq<BookStep>, maxRetries: nat, maxPending: nat, k: nat)
    requires IsBookRun(run, steps, maxRetries, maxPending) && k < |run|
    ensures SessionOk(run[k], maxRetries, maxPending)
  {
    hide SessionOk;
    if k == 0 {
      NewBooks(maxRetries, maxPending);
    } else {
      var x, b := run[k - 1], steps[k - 1];
      RunKeepsBooks(run, steps, maxRetries, maxPending, k - 1);
      assert run[k - 1 + 1] == TakeBookStep(x, b, maxRetries, maxPending);
      match b
      case Issued(offer, at) => IssueKeepsBooks(x, offer, at, maxRetries, maxPending);
      case Settled(s) => RemovalKeepsBooks(x, s, maxRetries, maxPending);
      case GivenUp(s) => RemovalKeepsBooks(x, s, maxRetries, maxPending);
      case Resent(s, at) => ResendKeepsBooks(x, s, at, maxRetries, maxPending);
      case Acknowledges(d) => AckKeepsBooks(x, d, maxRetries, maxPending);
    }
  }

  /** In every state of every session the books balance, the table is within its bound, and
      no sequence was sent more than once plus the allowed retries. */
  lemma BooksBalanceInEveryRun(run: seq<Session>, steps: seq<BookStep>, maxRetries: nat, maxPending: nat, k: nat)
    requires IsBookRun(run, steps, maxRetries, maxPending) && k < |run|
    ensures run[k].next - 1 == run[k].acked + run[k].expired + |run[k].pending|
    ensures |run[k].pending| <= maxPending
    ensures forall s: nat :: Transmissions(run[k].wire, s) <= 1 + maxRetries
  {
    RunKeepsBooks(run, steps, maxRetries, maxPending, k);
    forall s: nat
      ensures Transmissions(run[k].wire, s) <= 1 + maxRetries
    {
      assert SequenceOk(run[k], maxRetries, s);
    }
  }

  lemma NothingOffered(x: Session, newest: View, peers: seq<Peer>, retryAt: nat, maxPending: nat)
    ensures Offers([], newest, peers) == [] && OfferAll(x, [], retryAt, maxPending) == x
  {
  }

  /** The books once these offers were made: as many as fit were sent. */
  function OfferAll(x: Session, offers: seq<Offer>, retryAt: nat, maxPending: nat): (y: Session)
  {
    if offers == [] then x
    else
      var y := OfferAll(x, offers[..|offers| - 1], retryAt, maxPending);
      if |y.pending| >= maxPending then y else Issue(y, offers[|offers| - 1], retryAt)
  }

  /** Exactly as many offers go out as the table has room for. */
  lemma {:induction false} OffersFillTheTable(x: Session, offers: seq<Offer>, retryAt: nat, maxRetries: nat, maxPending: nat)
    requires SessionOk(x, maxRetries, maxPending)
    ensures var y := OfferAll(x, offers, retryAt, maxPending);
      var n := Min(|offers|, maxPending - |x.pending|);
      && SessionOk(y, maxRetries, maxPending)
      && y.next == x.next + n && |y.pending| == |x.pending| + n
      && y.acked == x.acked && y.expired == x.expired
  {
    hide SessionOk, Encode;
    BookSize(x, maxRetries, maxPending);
    if offers != [] {
      var k := |offers| - 1;
      OffersFillTheTable(x, offers[..k], retryAt, maxRetries, maxPending);
      var y := OfferAll(x, offers[..k], retryAt, maxPending);
      if |y.pending| < maxPending {
        IssueKeepsBooks(y, offers[k], retryAt, maxRetries, maxPending);
      }
    }
  }

  /** What the books gained: the first n offers, in order, under consecutive numbers. */
  ghost predicate Gained(x: Session, y: Session, offers: seq<Offer>, n: nat, retryAt: nat)
    requires n <= |offers|
  {
    && y.wire == x.wire + Numbered(offers[..n], x.next)
    && (forall s :: s in y.pending <==> s in x.pending || x.next <= s < x.next + n)
    && (forall s :: s in x.pending ==> y.pending[s] == x.pending[s])
    && (forall i :: 0 <= i < n ==> y.pending[x.next + i] == Pending(Encode(offers[i], x.next + i), retryAt, 0))
  }

  lemma GainOne(x: Session, y: Session, offers: seq<Offer>, n: nat, retryAt: nat)
    requires n < |offers| && Gained(x, y, offers, n, retryAt) && y.next == x.next + n
    requires forall s :: s in x.pending ==> s < x.next
    ensures Gained(x, Issue(y, offers[n], retryAt), offers, n + 1, retryAt)
  {
    hide Encode;
    assert offers[..n + 1] == offers[..n] + [offers[n]];
    NumberedExtend(offers[..n], offers[n], x.next);
  }

  /** The first offers that fit are the ones sent; the later ones are lost. */
  lemma {:induction false} FirstOffersAreSent(x: Session, offers: seq<Offer>, retryAt: nat, maxRetries: nat, maxPending: nat)
    requires SessionOk(x, maxRetries, maxPending)
    ensures |x.pending| <= maxPending
    ensures Gained(x, OfferAll(x, offers, retryAt, maxPending), offers, Min(|offers|, maxPending - |x.pending|), retryAt)
  {
    hide SessionOk, Encode, Gained;
    BookSize(x, maxRetries, maxPending);
    if offers == [] {
      NothingGained(x, offers, retryAt);
    } else {
      var k := |offers| - 1;
      FirstOffersAreSent(x, offers[..k], retryAt, maxRetries, maxPending);
      OffersFillTheTable(x, offers[..k], retryAt, maxRetries, maxPending);
      var y := OfferAll(x, offers[..k], retryAt, maxPending);
      var n := Min(k, maxPending - |x.pending|);
      SameGain(x, y, offers, k, n, retryAt);
      if |y.pending| < maxPending {
        GainOne(x, y, offers, n, retryAt);
      }
    }
  }

  lemma GainIsAnnounced(x: Session, y: Session, offers: seq<Offer>, n: nat, retryAt: nat)
    requires n <= |offers| && Gained(x, y, offers, n, retryAt)
    ensures Announced(x.wire, y.wire, offers, n, x.next)
  {
  }

  lemma NothingGained(x: Session, offers: seq<Offer>, retryAt: nat)
    ensures Gained(x, x, offers, 0, retryAt)
  {
    assert Numbered(offers[..0], x.next) == [];
  }

  lemma SameGain(x: Session, y: Session, offers: seq<Offer>, k: nat, n: nat, retryAt: nat)
    requires n <= k <= |offers| && Gained(x, y, offers[..k], n, retryAt)
    ensures Gained(x, y, offers, n, retryAt)
  {
    assert offers[..k][..n] == offers[..n];
  }

  lemma NewBooks(maxRetries: nat, maxPending: nat)
    ensures SessionOk(Session(map[], 1, 0, 0, []), maxRetries, maxPending)
  {
  }

  lemma BookSize(x: Session, maxRetries: nat, maxPending: nat)
    requires SessionOk(x, maxRetries, maxPending)
    ensures |x.pending| <= maxPending
    ensures forall s :: s in x.pending ==> s < x.next
  {
    assert forall s :: s in x.pending ==> EntryOk(x, maxRetries, s);
  }

  predicate Due(p: Pending, now: nat) { p.retryAt <= now }

  /** What a retry pass leaves of the pending table. */
  function Retried(pending: map<nat, Pending>, now: nat, retryAfter: nat, maxRetries: nat): (p: map<nat, Pending>)
  {
    map s | s in pending && !(Due(pending[s], now) && pending[s].attempts >= maxRetries) ::
      if Due(pending[s], now) then Pending(pending[s].datagram, now + retryAfter, pending[s].attempts + 1) else pending[s]
  }

  /** What becomes of each entry in a pass, by its time and by its attempts. */
  lemma RetriedMeans(pending: map<nat, Pending>, now: nat, retryAfter: nat, maxRetries: nat)
    ensures var p := Retried(pending, now, retryAfter, maxRetries);
      && (forall s :: s in p ==> s in pending)
      && (forall s :: s in pending && pending[s].retryAt > now ==> s in p && p[s] == pending[s])
      && (forall s :: s in pending && pending[s].retryAt <= now && pending[s].attempts >= maxRetries ==> s !in p)
      && (forall s :: s in pending && pending[s].retryAt <= now && pending[s].attempts < maxRetries ==>
            s in p && p[s] == Pending(pending[s].datagram, now + retryAfter, pending[s].attempts + 1))
  {
  }

  /** A datagram of the table whose time has come. */
  ghost predicate IsDueIn(d: Datagram, pending: map<nat, Pending>, now: nat)
  {
    exists s :: s in pending && pending[s].retryAt <= now && pending[s].datagram == d
  }

  predicate Settles(pending: map<nat, Pending>, sequence: nat, source: Peer)
  {
    sequence in pending && pending[sequence].datagram.peer == source
  }

  /** A retry pass has dealt with every entry outside rest. */
  ghost predicate Swept(start: map<nat, Pending>, p: map<nat, Pending>, rest: map<nat, Pending>, now: nat, retryAfter: nat, maxRetries: nat)
  {
    var goal := Retried(start, now, retryAfter, maxRetries);
    && (forall s :: s in rest ==> s in start && s in p && rest[s] == start[s] == p[s])
    && (forall s :: s in p ==> s in start)
    && (forall s :: s in start && s !in rest ==> (s in p <==> s in goal) && (s in p ==> p[s] == goal[s]))
  }

  lemma SweepStarts(p: map<nat, Pending>, now: nat, retryAfter: nat, maxRetries: nat)
    ensures Swept(p, p, p, now, retryAfter, maxRetries)
  {
  }

  /** Whatever becomes of the chosen entry, the pass has moved on by one. */
  lemma SweepOne(start: map<nat, Pending>, p: map<nat, Pending>, rest: map<nat, Pending>, s: nat, now: nat, retryAfter: nat, maxRetries: nat)
    requires Swept(start, p, rest, now, retryAfter, maxRetries) && s in rest
    ensures s in p && p[s] == rest[s]
    ensures !Due(p[s], now) ==> Swept(start, p, rest - {s}, now, retryAfter, maxRetries)
    ensures Due(p[s], now) && p[s].attempts >= maxRetries ==> Swept(start, p - {s}, rest - {s}, now, retryAfter, maxRetries)
    ensures Due(p[s], now) && p[s].attempts < maxRetries ==>
      Swept(start, p[s := Pending(p[s].datagram, now + retryAfter, p[s].attempts + 1)], rest - {s}, now, retryAfter, maxRetries)
  {
  }

  lemma SweepDone(start: map<nat, Pending>, p: map<nat, Pending>, now: nat, retryAfter: nat, maxRetries: nat)
    requires Swept(start, p, map[], now, retryAfter, maxRetries)
    ensures p == Retried(start, now, retryAfter, maxRetries)
  {
    assert p.Keys == Retried(start, now, retryAfter, maxRetries).Keys;
  }

  lemma DrainedBooks(x: Session, y: Session, offers: seq<Offer>, retryAt: nat, maxRetries: nat, maxPending: nat)
    requires SessionOk(x, maxRetries, maxPending) && y == OfferAll(x, offers, retryAt, maxPending)
    ensures |x.pending| <= maxPending
    ensures
      var n := Min(|offers|, maxPending - |x.pending|);
      Announced(x.wire, y.wire, offers, n, x.next) && |y.pending| == |x.pending| + n && y.next == x.next + n
  {
    hide SessionOk, OfferAll, Gained, Announced;
    FirstOffersAreSent(x, offers, retryAt, maxRetries, maxPending);
    OffersFillTheTable(x, offers, retryAt, maxRetries, maxPending);
    GainIsAnnounced(x, y, offers, Min(|offers|, maxPending - |x.pending|), retryAt);
  }

  /** The entries of one counter in one epoch: each delivered component with its greatest value. */
  ghost predicate IsNewest(m: View, delivered: seq<Sample>, counter: nat, epoch: nat)
  {
    forall k, v: nat :: Shows(m, k, v) <==> k.counter == counter && k.epoch == epoch && IsGreatest(delivered, k, v)
  }

  lemma PartIsNewest(m: View, delivered: seq<Sample>, counter: nat, epoch: nat)
    requires IsPart(m, ObserveAll(delivered), counter, epoch)
    ensures IsNewest(m, delivered, counter, epoch)
  {
    hide IsGreatest, ObserveAll;
    EntriesAreGreatest(delivered);
    forall k, v: nat
      ensures Shows(m, k, v) <==> k.counter == counter && k.epoch == epoch && IsGreatest(delivered, k, v)
    {
      assert Shows(ObserveAll(delivered), k, v) <==> IsGreatest(delivered, k, v);
    }
  }

  lemma SweptRest(start: map<nat, Pending>, p: map<nat, Pending>, rest: map<nat, Pending>, s: nat, now: nat, retryAfter: nat, maxRetries: nat)
    requires Swept(start, p, rest, now, retryAfter, maxRetries) && s in rest
    ensures Due(rest[s], now) ==> IsDueIn(rest[s].datagram, start, now)
  {
  }

  class ReliableUdpReplicator {
    const componentId: nat
    const peers: seq<Peer>
    const retryAfter: nat
    const maxRetries: nat
    const maxPending: nat

    var pending: map<nat, Pending>
    var coalesced: map<ComponentKey, Sample>
    var components: View
    var nextSequence: nat
    var dropped: nat
    var sent: nat
    var acknowledged: nat
    var retried: nat
    var received: nat

    // Since the last start: what was handed to the socket, how many sequences were
    // acknowledged and given up. Since construction: the snapshots that arrived.
    ghost var wire: seq<Datagram>
    ghost var acked: nat
    ghost var expired: nat
    ghost var delivered: seq<Sample>

    constructor (componentId: nat, peers: seq<Peer>, retryAfter: nat, maxRetries: nat, maxPending: nat)
      ensures Valid()
      ensures this.componentId == componentId && this.peers == peers && this.retryAfter == retryAfter
      ensures this.maxRetries == maxRetries && this.maxPending == maxPending
      ensures components == map[] && pending == map[] && nextSequence == 1
      ensures dropped == sent == acknowledged == retried == received == 0
    {
      this.componentId, this.peers, this.retryAfter := componentId, peers, retryAfter;
      this.maxRetries, this.maxPending := maxRetries, maxPending;
      pending, coalesced, components, nextSequence := map[], map[], map[], 1;
      dropped, sent, acknowledged, retried, received := 0, 0, 0, 0, 0;
      wire, acked, expired, delivered := [], 0, 0, [];
    }

    ghost function Books(): (x: Session)
      reads `pending, `nextSequence, `acked, `expired, `wire
    {
      Session(pending, nextSequence, acked, expired, wire)
    }

    ghost predicate Valid()
      reads `pending, `nextSequence, `acked, `expired, `wire, `components, `delivered
    {
      SessionOk(Books(), maxRetries, maxPending) && components == ObserveAll(delivered)
    }

    /** Clears the session; the counters and the merged view survive it. */
    method Start() returns (ok: bool)
      requires Valid()
      modifies this
      ensures Valid()
      ensures ok <==> componentId <= 0xFFFF && maxPending != 0
      ensures ok ==> pending == map[] && coalesced == map[] && nextSequence == 1 && wire == [] && acked == expired == 0
      ensures !ok ==> pending == old(pending) && nextSequence == old(nextSequence) && wire == old(wire)
      ensures components == old(components) && delivered == old(delivered)
      ensures dropped == old(dropped) && acknowledged == old(acknowledged) && sent == old(sent)
    {
      hide SessionOk, ObserveAll;
      if componentId > 0xFFFF { return false; }
      if maxPending == 0 { return false; }
      pending, coalesced, nextSequence := map[], map[], 1;
      wire, acked, expired := [], 0, 0;
      NewBooks(maxRetries, maxPending);
      return true;
    }

    /** Hands a datagram to the socket, which may refuse it. */
    method Send(d: Datagram)
      modifies this`sent, this`wire
      ensures wire == old(wire) + [d]
      ensures old(sent) <= sent <= old(sent) + 1
    {
      var accepted: bool := *;
      if accepted { sent := sent + 1; }
      wire := wire + [d];
    }

    /** Keeps the newest value of every key of the batch. */
    method Coalesce(batch: seq<Sample>)
      requires coalesced == map[]
      modifies this`coalesced
      ensures coalesced.Keys == ObserveAll(batch).Keys
      ensures forall k :: k in coalesced ==> coalesced[k] == Sample(k, ObserveAll(batch)[k])
    {
      for i := 0 to |batch|
        invariant coalesced.Keys == ObserveAll(batch[..i]).Keys
        invariant forall k :: k in coalesced ==> coalesced[k] == Sample(k, ObserveAll(batch[..i])[k])
      {
        var update := batch[i];
        assert batch[..i + 1][..i] == batch[..i];
        if update.key !in coalesced {
          coalesced := coalesced[update.key := update];
        } else if update.value > coalesced[update.key].value {
          coalesced := coalesced[update.key := update];
        }
      }
      assert batch[..|batch|] == batch;
    }

    /** Sends one sample under a fresh number, or drops it when the table is full. */
    method OfferOne(offer: Offer, now: nat)
      requires Valid()
      modifies this`pending, this`nextSequence, this`dropped, this`sent, this`wire
      ensures Valid()
      ensures Books() == (if old(|pending|) >= maxPending then old(Books()) else Issue(old(Books()), offer, now + retryAfter))
      ensures dropped == old(dropped) + (if old(|pending|) >= maxPending then 1 else 0)
      ensures dropped + nextSequence == old(dropped + nextSequence) + 1
    {
      hide SessionOk, ObserveAll;
      if |pending| >= maxPending {
        dropped := dropped + 1;
        return;
      }
      IssueKeepsBooks(Books(), offer, now + retryAfter, maxRetries, maxPending);
      var sequence := nextSequence;
      nextSequence := nextSequence + 1;
      var bytes := Encode(offer, sequence);
      Send(bytes);
      pending := pending[sequence := Pending(bytes, now + retryAfter, 0)];
    }

    /** Offers one sample to every peer. */
    method OfferRow(update: Sample, now: nat, ghost start: Session, ghost before: seq<Offer>)
      requires Valid()
      requires Books() == OfferAll(start, before, now + retryAfter, maxPending)
      modifies this`pending, this`nextSequence, this`dropped, this`sent, this`wire
      ensures Valid()
      ensures Books() == OfferAll(start, before + Row(update, peers), now + retryAfter, maxPending)
      ensures dropped + nextSequence == old(dropped + nextSequence) + |peers|
    {
      hide SessionOk, ObserveAll, Valid, Issue;
      ghost var row := Row(update, peers);
      assert before + row[..0] == before;
      for i := 0 to |peers|
        invariant Valid()
        invariant Books() == OfferAll(start, before + row[..i], now + retryAfter, maxPending)
        invariant dropped + nextSequence == old(dropped + nextSequence) + i
      {
        OfferOne(Offer(update, peers[i]), now);
        assert (before + row[..i + 1])[..|before| + i] == before + row[..i];
      }
      assert before + row[..|peers|] == before + row;
    }

    /** Offers the newest sample of every key to every peer, in the order the hash map yields the keys. */
    method DrainOutbound(batch: seq<Sample>, now: nat) returns (ghost order: seq<ComponentKey>)
      requires Valid() && coalesced == map[]
      modifies this`pending, this`coalesced, this`nextSequence, this`dropped, this`sent, this`wire
      ensures Valid() && coalesced == map[]
      ensures forall k :: k in order <==> k in ObserveAll(batch)
      ensures forall i, j :: 0 <= i < j < |order| ==> order[i] != order[j]
      ensures Books() == OfferAll(old(Books()), Offers(order, ObserveAll(batch), peers), now + retryAfter, maxPending)
      ensures dropped + nextSequence == old(dropped + nextSequence) + |Offers(order, ObserveAll(batch), peers)|
      ensures |old(pending)| <= maxPending
      ensures
        var offers := Offers(order, ObserveAll(batch), peers);
        var n := Min(|offers|, maxPending - |old(pending)|);
        && Announced(old(wire), wire, offers, n, old(nextSequence)) && |pending| == |old(pending)| + n
        && dropped == old(dropped) + |offers| - n
    {
      hide SessionOk, ObserveAll, OfferAll, Offers, Row, Announced;
      Coalesce(batch);
      ghost var newest := ObserveAll(batch);
      ghost var start := Books();
      order := [];
      var rest := coalesced;
      NothingOffered(start, newest, peers, now + retryAfter, maxPending);
      while rest != map[]
        invariant Valid()
        invariant forall k :: k in rest ==> k in newest && rest[k] == Sample(k, newest[k])
        invariant forall k :: k in order <==> k in newest && k !in rest
        invariant forall i, j :: 0 <= i < j < |order| ==> order[i] != order[j]
        invariant Books() == OfferAll(start, Offers(order, newest, peers), now + retryAfter, maxPending)
        invariant dropped + nextSequence == old(dropped + nextSequence) + |Offers(order, newest, peers)|
        decreases |rest|
      {
        var key: ComponentKey :| key in rest;
        OfferRow(rest[key], now, start, Offers(order, newest, peers));
        OffersExtend(order, key, newest, peers);
        order := order + [key];
        assert (rest - {key}).Keys == rest.Keys - {key};
        rest := rest - {key};
      }
      coalesced := map[];
      DrainedBooks(start, Books(), Offers(order, newest, peers), now + retryAfter, maxRetries, maxPending);
    }

    /** Settles a sequence when the acknowledgement comes from the peer it was sent to. */
    method ReceiveAck(sequence: nat, source: Peer)
      requires Valid()
      modifies this`pending, this`acknowledged, this`acked
      ensures Valid()
      ensures Books() == (if Settles(old(pending), sequence, source) then Settle(old(Books()), sequence) else old(Books()))
      ensures acknowledged == old(acknowledged) + (if Settles(old(pending), sequence, source) then 1 else 0)
      ensures acknowledged - old(acknowledged) == acked - old(acked)
    {
      hide SessionOk, ObserveAll;
      if sequence in pending && pending[sequence].datagram.peer == source {
        RemovalKeepsBooks(Books(), sequence, maxRetries, maxPending);
        pending := pending - {sequence};
        acknowledged := acknowledged + 1;
        acked := acked + 1;
      }
    }

    /** Merges a snapshot and acknowledges it, whether or not it is new. */
    method ReceiveSnapshot(sample: Sample, sequence: nat, source: Peer)
      requires Valid()
      modifies this`components, this`delivered, this`received, this`sent, this`wire
      ensures Valid()
      ensures delivered == old(delivered) + [sample] && received == old(received) + 1
      ensures components == Observe(old(components), sample)
      ensures Books() == old(Books()).(wire := old(wire) + [Datagram(Ack(componentId % 0x1_0000, sequence), source)])
    {
      hide SessionOk, ObserveAll;
      ObserveOne(delivered, sample);
      var observed := if sample.key in components then components[sample.key] else 0;
      components := components[sample.key := Max(observed, sample.value)];
      delivered := delivered + [sample];
      received := received + 1;
      AckKeepsBooks(Books(), Datagram(Ack(componentId % 0x1_0000, sequence), source), maxRetries, maxPending);
      Send(Datagram(Ack(componentId % 0x1_0000, sequence), source));
    }

    /** One decoded frame. */
    method ReceiveFrame(frame: Frame, source: Peer)
      requires Valid()
      modifies this`pending, this`acknowledged, this`acked, this`components, this`delivered, this`received, this`sent, this`wire
      ensures Valid()
      ensures frame.Ack? ==> delivered == old(delivered) && received == old(received) && wire == old(wire)
      ensures frame.Ack? && frame.sequence in old(pending) && old(pending)[frame.sequence].datagram.peer == source ==>
        pending == old(pending) - {frame.sequence} && acknowledged == old(acknowledged) + 1
      ensures frame.Ack? && !(frame.sequence in old(pending) && old(pending)[frame.sequence].datagram.peer == source) ==>
        pending == old(pending) && acknowledged == old(acknowledged)
      ensures frame.Snapshot? ==> received == old(received) + 1 && pending == old(pending) && acknowledged == old(acknowledged)
      ensures frame.Snapshot? ==>
        && delivered == old(delivered) + [Sample(ComponentKey(frame.counter, frame.epoch, frame.component), frame.value)]
        && wire == old(wire) + [Datagram(Ack(componentId % 0x1_0000, frame.sequence), source)]
      ensures acknowledged - old(acknowledged) == acked - old(acked)
    {
      hide SessionOk, ObserveAll;
      if frame.Ack? {
        ReceiveAck(frame.sequence, source);
      } else {
        ReceiveSnapshot(Sample(ComponentKey(frame.counter, frame.epoch, frame.component), frame.value), frame.sequence, source);
      }
    }

    /** One due entry: given up after the last retry, sent again before that. */
    method RetryOne(sequence: nat, now: nat)
      requires Valid() && sequence in pending && Due(pending[sequence], now)
      modifies this`pending, this`dropped, this`sent, this`retried, this`wire, this`expired
      ensures Valid()
      ensures old(pending)[sequence].attempts >= maxRetries ==>
        && Books() == GiveUp(old(Books()), sequence)
        && pending == old(pending) - {sequence} && |pending| == |old(pending)| - 1
        && wire == old(wire) && dropped == old(dropped) + 1 && retried == old(retried)
      ensures old(pending)[sequence].attempts < maxRetries ==>
        && Books() == Resend(old(Books()), sequence, now + retryAfter)
        && (var p := old(pending)[sequence];
            pending == old(pending)[sequence := Pending(p.datagram, now + retryAfter, p.attempts + 1)])
        && |pending| == |old(pending)| && wire == old(wire) + [old(pending)[sequence].datagram]
        && dropped == old(dropped) && retried == old(retried) + 1
    {
      hide SessionOk, ObserveAll;
      var p := pending[sequence];
      if p.attempts >= maxRetries {
        RemovalKeepsBooks(Books(), sequence, maxRetries, maxPending);
        dropped := dropped + 1;
        expired := expired + 1;
        pending := pending - {sequence};
      } else {
        ResendKeepsBooks(Books(), sequence, now + retryAfter, maxRetries, maxPending);
        Send(p.datagram);
        pending := pending[sequence := Pending(p.datagram, now + retryAfter, p.attempts + 1)];
        retried := retried + 1;
      }
    }

    /** One entry of the pass: kept while it is not due. */
    method VisitOne(sequence: nat, now: nat, ghost start: map<nat, Pending>, ghost rest: map<nat, Pending>)
      requires Valid() && sequence in rest && Swept(start, pending, rest, now, retryAfter, maxRetries)
      modifies this`pending, this`dropped, this`sent, this`retried, this`wire, this`expired
      ensures Valid() && Swept(start, pending, rest - {sequence}, now, retryAfter, maxRetries)
      ensures dropped + |pending| == old(dropped + |pending|)
      ensures old(wire) <= wire && retried + |old(wire)| == old(retried) + |wire|
      ensures forall d :: d in wire[|old(wire)|..] ==> Due(rest[sequence], now) && d == rest[sequence].datagram
    {
      hide Valid, Swept, Books, GiveUp, Resend;
      SweepOne(start, pending, rest, sequence, now, retryAfter, maxRetries);
      if Due(pending[sequence], now) {
        RetryOne(sequence, now);
      }
    }

    /** Walks the whole table once, in the order the hash map yields it. */
    method RetryExpired(now: nat)
      requires Valid()
      modifies this`pending, this`dropped, this`sent, this`retried, this`wire, this`expired
      ensures Valid()
      ensures forall s :: s in pending ==> s in old(pending)
      ensures forall s :: s in old(pending) && old(pending)[s].retryAt > now ==> s in pending && pending[s] == old(pending)[s]
      ensures forall s :: s in old(pending) && old(pending)[s].retryAt <= now && old(pending)[s].attempts >= maxRetries ==> s !in pending
      ensures forall s :: s in old(pending) && old(pending)[s].retryAt <= now && old(pending)[s].attempts < maxRetries ==>
        s in pending && pending[s] == Pending(old(pending)[s].datagram, now + retryAfter, old(pending)[s].attempts + 1)
      ensures dropped + |pending| == old(dropped + |pending|)
      ensures old(wire) <= wire && retried + |old(wire)| == old(retried) + |wire|
      ensures forall d :: d in wire[|old(wire)|..] ==> IsDueIn(d, old(pending), now)
    {
      hide Valid, Swept, Retried, Books, IsDueIn;
      SweepStarts(pending, now, retryAfter, maxRetries);
      var rest := pending;
      while rest != map[]
        invariant Valid()
        invariant Swept(old(pending), pending, rest, now, retryAfter, maxRetries)
        invariant dropped + |pending| == old(dropped + |pending|)
        invariant old(wire) <= wire && retried + |old(wire)| == old(retried) + |wire|
        invariant forall d :: d in wire[|old(wire)|..] ==> IsDueIn(d, old(pending), now)
        decreases |rest|
      {
        var sequence: nat :| sequence in rest;
        ghost var before := wire;
        SweptRest(old(pending), pending, rest, sequence, now, retryAfter, maxRetries);
        VisitOne(sequence, now, old(pending), rest);
        assert wire[|old(wire)|..] == before[|old(wire)|..] + wire[|before|..];
        assert (rest - {sequence}).Keys == rest.Keys - {sequence};
        rest := rest - {sequence};
      }
      SweepDone(old(pending), pending, now, retryAfter, maxRetries);
      RetriedMeans(old(pending), now, retryAfter, maxRetries);
    }

    method ComponentValue(counter: nat, epoch: nat, component: nat) returns (value: nat)
      requires Valid()
      ensures forall v: nat :: IsGreatest(delivered, ComponentKey(counter, epoch, component), v) ==> value == v
      ensures (forall v: nat :: Sample(ComponentKey(counter, epoch, component), v) !in delivered) ==> value == 0
    {
      var key := ComponentKey(counter, epoch, component);
      EntriesAreGreatest(delivered);
      value := if key in components then components[key] else 0;
      if key in components {
        assert Shows(ObserveAll(delivered), key, value);
      }
      forall v: nat | IsGreatest(delivered, key, v)
        ensures value == v
      {
        assert Shows(ObserveAll(delivered), key, v);
      }
    }

    method Total(counter: nat, epoch: nat) returns (total: nat)
      requires Valid()
      ensures exists m: View :: IsNewest(m, delivered, counter, epoch) && total == Min(SumMap<ComponentKey>(m), U64_MAX)
    {
      hide ObserveAll, SessionOk;
      total := MergedTotal(components, counter, epoch);
      ghost var m: View :| IsPart(m, components, counter, epoch) && total == Min(SumMap<ComponentKey>(m), U64_MAX);
      PartIsNewest(m, delivered, counter, epoch);
    }
  }
}
