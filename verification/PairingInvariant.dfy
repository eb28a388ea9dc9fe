/** What every call of the pairing registry keeps: the invariant, part by part. */
module PairingInvariant {
  import opened Wrappers
  import opened Flow
  import opened Counting
  import opened Links
  import opened Pairing

  type Entries = map<FlowKey, Pending>
  type Leases = map<nat, FlowLease>

  // ---------------------------------------------------------------------------------------------
  // Bookkeeping.

  /** A half-open flow waits for exactly one half. Its claim is inactive and agrees with it, a QUIC half
      belongs to the generation of the snapshot, a UDP uplink holds its permit, and a timer is set. */
  ghost predicate EntryOk(kind: FlowKind, key: FlowKey, p: Pending, claims: Claims, timers: set<Timer>, budgets: nat) {
    && key in claims
    && var c := claims[key];
    && !c.active
    && c.metadata == p.metadata && c.epoch == p.epoch && c.target == p.target && c.generations == Generations(p)
    && HalfOk(kind, p)
    && (p.permit.Some? ==> p.permit.value < budgets)
    && Timer(kind, key, p.epoch) in timers
  }

  ghost predicate HalfOk(kind: FlowKind, p: Pending) {
    && p.metadata.kind == kind
    && p.metadata.uplink != p.metadata.downlink
    && p.uplink.Some? != p.downlink.Some?
    && p.uplink.Some? == p.target.Some? == p.uplinkPath.Some?
    && p.downlink.Some? == p.downlinkPath.Some?
    && (p.downlink.None? ==> p.liveness.None?)
    && p.uplinkGeneration == (if p.uplink.Some? && p.metadata.uplink.Quic? then p.snapshot else None)
    && p.downlinkGeneration == (if p.downlink.Some? && p.metadata.downlink.Quic? then p.snapshot else None)
    && (Generations(p) == [] ==> (if p.uplink.Some? then p.metadata.uplink else p.metadata.downlink).TlsTcp?)
    && p.permit.Some? == (kind.Udp? && p.uplink.Some?)
  }

  ghost predicate EntriesOk(kind: FlowKind, m: Entries, claims: Claims, timers: set<Timer>, budgets: nat) {
    forall k :: k in m ==> EntryOk(kind, k, m[k], claims, timers, budgets)
  }

  /** An active claim has exactly one live lease; an inactive one is half-open in one of the maps. */
  ghost predicate ClaimsOk(claims: Claims, leases: Leases, halfOpen: set<FlowKey>, nextEpoch: nat) {
    forall k :: k in claims ==>
      && claims[k].epoch < nextEpoch && claims[k].token < nextEpoch
      && (claims[k].active ==>
            claims[k].epoch in leases && leases[claims[k].epoch].key == k
              && leases[claims[k].epoch].token == claims[k].token)
      && (!claims[k].active ==> claims[k].epoch !in leases && k in halfOpen)
  }

  ghost predicate LeasesOk(leases: Leases, claims: Claims, budgets: nat) {
    forall e :: e in leases ==>
      && leases[e].key in claims && claims[leases[e].key].active && claims[leases[e].key].epoch == e
      && (leases[e].permit.Some? ==> leases[e].permit.value < budgets)
  }

  /** No two claims share an epoch or a cancellation token. */
  ghost predicate DistinctClaims(claims: Claims) {
    forall j, k :: j in claims && k in claims && j != k ==>
      claims[j].epoch != claims[k].epoch && claims[j].token != claims[k].token
  }

  ghost predicate QuotaOk(claims: Claims, maxPending: nat) {
    forall x :: |Inactive(claims, x)| <= maxPending
  }

  /** Tombstones are bounded, belong to flows without a claim and never report an internal error. */
  ghost predicate TombstonesOk(rejections: map<FlowKey, Tombstone>, claimed: set<FlowKey>, maxPending: nat) {
    && rejections.Keys !! claimed && |rejections| <= maxPending
    && forall k :: k in rejections ==> rejections[k].code != InternalError
  }

  ghost predicate Books(limits: Limits, s: Registry) {
    && EntriesOk(Tcp, s.tcp, s.claims, s.timers, |s.links.budgets|)
    && EntriesOk(Udp, s.udp, s.claims, s.timers, |s.links.budgets|)
    && ClaimsOk(s.claims, s.leases, s.tcp.Keys + s.udp.Keys, s.nextEpoch)
    && LeasesOk(s.leases, s.claims, |s.links.budgets|)
    && DistinctClaims(s.claims)
    && QuotaOk(s.claims, limits.maxPending)
    && TombstonesOk(s.rejections, s.claims.Keys, limits.maxPending)
  }

  // ---------------------------------------------------------------------------------------------
  // UDP flow permits.

  ghost function EntryHolds(b: nat): (FlowKey, Pending) -> bool {
    (k: FlowKey, p: Pending) => p.permit == Some(b)
  }

  ghost function LeaseHolds(b: nat): (nat, FlowLease) -> bool {
    (e: nat, l: FlowLease) => l.permit == Some(b)
  }

  /** Every unit of every budget is free, in a half-open flow, in a live lease, or in `hand`, the permit a
      running call has acquired and not stored yet. */
  ghost predicate Permits(limit: nat, budgets: seq<nat>, udp: Entries, leases: Leases, hand: Option<nat>) {
    && (hand.Some? ==> hand.value < |budgets|)
    && forall b :: 0 <= b < |budgets| ==>
         budgets[b] + Count(udp, EntryHolds(b)) + Count(leases, LeaseHolds(b)) + One(hand == Some(b)) == limit
  }

  // ---------------------------------------------------------------------------------------------
  // Downlinks and where halves came from.

  ghost predicate Answered(answers: seq<Answer>, d: Stream) {
    exists i :: 0 <= i < |answers| && answers[i].stream == d
  }

  ghost predicate Offered(history: set<Submission>, d: Stream) {
    exists o :: o in history && o.downlink == Some(d)
  }

  /** Each result went to a downlink some submission brought and no relay owns, and no downlink got two. */
  ghost predicate AnswersOk(answers: seq<Answer>, handed: set<Stream>, history: set<Submission>) {
    && (forall i, j :: 0 <= i < j < |answers| ==> answers[i].stream != answers[j].stream)
    && (forall i :: 0 <= i < |answers| ==> Offered(history, answers[i].stream) && answers[i].stream !in handed)
    && (forall d :: d in handed ==> Offered(history, d))
  }

  /** Half-open flows wait on downlinks that were neither answered nor handed out. */
  ghost predicate WaitingOk(m: Entries, answers: seq<Answer>, handed: set<Stream>, history: set<Submission>) {
    forall k :: k in m && m[k].downlink.Some? ==>
      && Offered(history, m[k].downlink.value)
      && !Answered(answers, m[k].downlink.value)
      && m[k].downlink.value !in handed
  }

  ghost predicate Apart(m: Entries) {
    forall j, k :: j in m && k in m && j != k && m[j].downlink.Some? ==> m[j].downlink != m[k].downlink
  }

  ghost predicate ApartFrom(m: Entries, n: Entries) {
    forall j, k :: j in m && k in n && m[j].downlink.Some? ==> m[j].downlink != n[k].downlink
  }

  /** Each downlink is in one place: half-open, answered once, or handed to a relay. */
  ghost predicate Downlinks(s: Registry) {
    && AnswersOk(s.answers, s.handed, s.history)
    && WaitingOk(s.tcp, s.answers, s.handed, s.history)
    && WaitingOk(s.udp, s.answers, s.handed, s.history)
    && Apart(s.tcp) && Apart(s.udp) && ApartFrom(s.tcp, s.udp)
  }

  ghost predicate NotWaiting(m: Entries, d: Stream) {
    forall k :: k in m ==> m[k].downlink != Some(d)
  }

  /** A downlink a running call holds and still has to answer, install or hand out. */
  ghost predicate InHand(s: Registry, d: Option<Stream>) {
    d.Some? ==>
      && Offered(s.history, d.value)
      && !Answered(s.answers, d.value)
      && d.value !in s.handed
      && NotWaiting(s.tcp, d.value) && NotWaiting(s.udp, d.value)
  }

  /** `o` is a submission that brought the uplink of `p`. */
  ghost predicate UplinkFrom(p: Pending, kind: FlowKind, key: FlowKey, o: Submission) {
    && o.via == kind && o.Key() == key && o.Meta() == p.metadata && o.header.role.Open?
    && o.uplink == p.uplink && o.target == p.target && p.uplinkPath == Some(o.path)
       && p.uplinkGeneration == o.generation
  }

  ghost predicate DownlinkFrom(p: Pending, kind: FlowKind, key: FlowKey, a: Submission) {
    && a.via == kind && a.Key() == key && a.Meta() == p.metadata && a.header.role.Attach?
    && a.downlink == p.downlink && a.liveness == p.liveness
    && p.downlinkPath == Some(a.path) && p.downlinkGeneration == a.generation
  }

  ghost predicate SourceOk(kind: FlowKind, key: FlowKey, p: Pending, history: set<Submission>) {
    && (p.uplink.Some? ==> exists o :: o in history && UplinkFrom(p, kind, key, o))
    && (p.downlink.Some? ==> exists a :: a in history && DownlinkFrom(p, kind, key, a))
  }

  ghost predicate Sources(kind: FlowKind, m: Entries, history: set<Submission>) {
    forall k :: k in m ==> SourceOk(kind, k, m[k], history)
  }

  /** The invariant inside a call that holds the permit `hand`. */
  ghost predicate Within(limits: Limits, s: Registry, hand: Option<nat>) {
    && Books(limits, s)
    && Permits(limits.maxUdpFlows, s.links.budgets, s.udp, s.leases, hand)
    && Downlinks(s)
    && Sources(Tcp, s.tcp, s.history) && Sources(Udp, s.udp, s.history)
    && Links.TableOk(s.links)
  }

  /** The invariant of the registry between calls. */
  ghost predicate Inv(limits: Limits, s: Registry) {
    Within(limits, s, None)
  }

  // ---------------------------------------------------------------------------------------------
  // Steps that touch one part of the state.

  lemma AnsweredAppend(answers: seq<Answer>, a: Answer, d: Stream)
    ensures Answered(answers + [a], d) <==> Answered(answers, d) || a.stream == d
  {
    var more := answers + [a];
    if Answered(answers, d) {
      var i :| 0 <= i < |answers| && answers[i].stream == d;
      assert more[i].stream == d;
    }
    if a.stream == d {
      assert more[|answers|].stream == d;
    }
    if Answered(more, d) {
      var i :| 0 <= i < |more| && more[i].stream == d;
      assert i < |answers| ==> answers[i].stream == d;
    }
  }

  lemma WaitingAfterAnswer(m: Entries, answers: seq<Answer>, a: Answer, handed: set<Stream>, history: set<Submission>)
    requires WaitingOk(m, answers, handed, history) && NotWaiting(m, a.stream)
    ensures WaitingOk(m, answers + [a], handed, history)
  {
    forall k | k in m && m[k].downlink.Some?
      ensures !Answered(answers + [a], m[k].downlink.value)
    {
      AnsweredAppend(answers, a, m[k].downlink.value);
    }
  }

  lemma WriteKeeps(limits: Limits, s: Registry, hand: Option<nat>, d: Option<Stream>, code: FlowErrorCode)
    requires Within(limits, s, hand) && InHand(s, d)
    ensures Within(limits, WriteResult(s, d, code), hand)
  {
    if d.Some? {
      var a := Answer(d.value, code);
      WaitingAfterAnswer(s.tcp, s.answers, a, s.handed, s.history);
      WaitingAfterAnswer(s.udp, s.answers, a, s.handed, s.history);
      AnswersAppend(s, a);
    }
  }

  lemma AnswersAppend(s: Registry, a: Answer)
    requires AnswersOk(s.answers, s.handed, s.history) && InHand(s, Some(a.stream))
    ensures AnswersOk(s.answers + [a], s.handed, s.history)
  {
    var more := s.answers + [a];
    assert forall i :: 0 <= i < |s.answers| ==> more[i] == s.answers[i] && Answered(s.answers, s.answers[i].stream);
  }

  lemma WriteElsewhere(s: Registry, d: Option<Stream>, code: FlowErrorCode, other: Option<Stream>)
    requires InHand(s, other) && (other.Some? ==> other != d)
    ensures InHand(WriteResult(s, d, code), other)
  {
    if d.Some? && other.Some? {
      AnsweredAppend(s.answers, Answer(d.value, code), other.value);
    }
  }

  lemma ReleaseKeeps(limits: Limits, s: Registry, hand: Option<nat>)
    requires Within(limits, s, hand)
    ensures Inv(limits, Release(s, hand))
    ensures forall d :: InHand(s, d) ==> InHand(Release(s, hand), d)
  {
    var t := Release(s, hand);
    assert t == s.(links := s.links.(budgets := t.links.budgets)) && |t.links.budgets| == |s.links.budgets|;
    LinksIgnoreBudgets(s.links, t.links.budgets);
    ReleasePermits(limits.maxUdpFlows, s, hand);
    hide Release, Links.TableOk, Permits, EntriesOk, ClaimsOk, LeasesOk, DistinctClaims, QuotaOk, TombstonesOk, Sources;
    hide AnswersOk, WaitingOk, Apart, ApartFrom, Offered, Answered, NotWaiting;
  }

  lemma ReleasePermits(limit: nat, s: Registry, hand: Option<nat>)
    requires Permits(limit, s.links.budgets, s.udp, s.leases, hand)
    ensures Permits(limit, Release(s, hand).links.budgets, s.udp, s.leases, None)
  {
    hide Count;
  }

  lemma LinksIgnoreBudgets(l: LinkTable, budgets: seq<nat>)
    requires Links.TableOk(l) && |budgets| == |l.budgets|
    ensures Links.TableOk(l.(budgets := budgets))
  {
    var r := l.(budgets := budgets);
    forall x | x in r.counts
      ensures Links.LinkOk(r, x)
    {
      assert Links.LinkOk(l, x);
    }
  }
}
