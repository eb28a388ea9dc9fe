/** The split-flow pairing registry as a function of its state: one function per source operation
    (src/portal/pairing.rs, src/portal/pairing/state.rs). */
module Pairing {
  import opened Wrappers
  import opened Flow
  import opened Links
  import TargetCodec

  type Target = TargetCodec.Target

  /** One stream half, known only by its identity. */
  type Stream = nat

  datatype FlowKey = FlowKey(session: SessionId, flow: nat)
  datatype Metadata = Metadata(kind: FlowKind, uplink: Carrier, downlink: Carrier)
  datatype LinkPath = LinkPath(peer: string, local: string)

  /** A half-open split flow. `PendingTcp` and `PendingUdp` share this record: `liveness` is only ever
      filled for TCP flows and `permit`, which names the budget it came from, only for UDP flows. */
  datatype Pending = Pending(
    epoch: nat,
    metadata: Metadata,
    snapshot: Option<nat>,
    target: Option<Target>,
    uplink: Option<Stream>,
    downlink: Option<Stream>,
    liveness: Option<Stream>,
    permit: Option<nat>,
    uplinkPath: Option<LinkPath>,
    downlinkPath: Option<LinkPath>,
    uplinkGeneration: Option<nat>,
    downlinkGeneration: Option<nat>)

  /** `token` identifies the cancellation token made with the claim and shared with its lease. */
  datatype FlowClaim = FlowClaim(
    epoch: nat,
    metadata: Metadata,
    target: Option<Target>,
    active: bool,
    token: nat,
    generations: seq<nat>)

  datatype FlowLease = FlowLease(key: FlowKey, token: nat, permit: Option<nat>)
  datatype Tombstone = Tombstone(code: FlowErrorCode, expires: int)
  datatype Timer = Timer(kind: FlowKind, key: FlowKey, epoch: nat)

  /** A setup result written on a downlink. */
  datatype Answer = Answer(stream: Stream, code: FlowErrorCode)

  /** One call of `submit_tcp` (`via` is `Tcp`) or `submit_udp` (`via` is `Udp`). */
  datatype Submission = Submission(
    via: FlowKind,
    session: SessionId,
    header: FlowHeader,
    target: Option<Target>,
    path: LinkPath,
    generation: Option<nat>,
    uplink: Option<Stream>,
    downlink: Option<Stream>,
    liveness: Option<Stream>)
  {
    function Key(): FlowKey {
      FlowKey(session, header.flowId)
    }

    function Meta(): Metadata {
      Metadata(header.kind, header.uplink, header.downlink)
    }

    /** The stream halves a role needs; a `UdpHalf` holds exactly those. */
    predicate Shaped() {
      match (via, header.role)
      case (Tcp, Open) => uplink.Some?
      case (Tcp, Attach) => downlink.Some?
      case (Tcp, Duplex) => uplink.Some? && downlink.Some?
      case (Udp, Open) => uplink.Some? && downlink.None?
      case (Udp, Attach) => uplink.None? && downlink.Some?
      case (Udp, Duplex) => uplink.Some? && downlink.Some?
    }
  }

  datatype Limits = Limits(maxPending: nat, timeout: nat, maxUdpFlows: nat)
  {
    predicate Valid() {
      maxPending > 0 && timeout > 0
    }
  }

  /** Leases are keyed by the epoch they finish with. `timers` are the timeout tasks not fired yet.
      `answers`, `handed` and `history` record the run: results written, downlinks given to relays, and
      every submission made. */
  datatype Registry = Registry(
    tcp: map<FlowKey, Pending>,
    udp: map<FlowKey, Pending>,
    links: LinkTable,
    claims: map<FlowKey, FlowClaim>,
    rejections: map<FlowKey, Tombstone>,
    nextEpoch: nat,
    cancelled: set<nat>,
    leases: map<nat, FlowLease>,
    timers: set<Timer>,
    answers: seq<Answer>,
    handed: set<Stream>,
    history: set<Submission>)

  const INITIAL := Registry(map[], map[], Links.EMPTY, map[], map[], 1, {}, map[], {}, [], {}, {})

  /** What a relay receives. */
  datatype PairedFlow = PairedFlow(
    key: FlowKey,
    metadata: Metadata,
    target: Target,
    uplink: Stream,
    downlink: Stream,
    liveness: Option<Stream>,
    uplinkPath: LinkPath,
    downlinkPath: LinkPath,
    generations: seq<nat>,
    epoch: nat)

  /** `Panicked` is a failed `expect`. */
  datatype Outcome = Waiting(epoch: nat) | Paired(flow: PairedFlow) | Rejected(code: FlowErrorCode) | Panicked

  // ---------------------------------------------------------------------------------------------
  // Small pieces.

  function Pend(s: Registry, kind: FlowKind): map<FlowKey, Pending> {
    if kind.Tcp? then s.tcp else s.udp
  }

  function WithPend(s: Registry, kind: FlowKind, m: map<FlowKey, Pending>): Registry {
    if kind.Tcp? then s.(tcp := m) else s.(udp := m)
  }

  /** Drops a permit: its unit goes back to the budget it came from. */
  function Release(s: Registry, permit: Option<nat>): Registry {
    if permit.Some? && permit.value < |s.links.budgets|
    then s.(links := s.links.(budgets := s.links.budgets[permit.value := s.links.budgets[permit.value] + 1]))
    else s
  }

  /** Removes a half-open flow and drops what it holds. */
  function DropEntry(s: Registry, kind: FlowKind, key: FlowKey): Registry {
    if key in Pend(s, kind) then Release(WithPend(s, kind, Pend(s, kind) - {key}), Pend(s, kind)[key].permit) else s
  }

  function WriteResult(s: Registry, stream: Option<Stream>, code: FlowErrorCode): Registry {
    if stream.Some? then s.(answers := s.answers + [Answer(stream.value, code)]) else s
  }

  function DownlinkAt(m: map<FlowKey, Pending>, key: FlowKey): Option<Stream> {
    if key in m then m[key].downlink else None
  }

  function Listed(g: Option<nat>): seq<nat> {
    if g.Some? then [g.value] else []
  }

  function Generations(p: Pending): seq<nat> {
    Listed(p.uplinkGeneration) + Listed(p.downlinkGeneration)
  }

  function Live(m: map<FlowKey, Tombstone>, now: int): map<FlowKey, Tombstone> {
    map k | k in m && m[k].expires > now :: m[k]
  }

  ghost predicate IsOldest(m: map<FlowKey, Tombstone>, k: FlowKey) {
    k in m && forall j :: j in m ==> m[k].expires <= m[j].expires
  }

  lemma {:induction false} OldestExists(m: map<FlowKey, Tombstone>)
    requires m != map[]
    ensures exists k :: IsOldest(m, k)
    decreases m.Keys
  {
    var k :| k in m;
    var rest := m - {k};
    assert rest.Keys == m.Keys - {k};
    if rest.Keys == {} {
      assert m.Keys == {k};
      assert IsOldest(m, k);
    } else {
      OldestExists(rest);
      var j :| IsOldest(rest, j);
      assert forall i :: i in m ==> i == k || i in rest;
      assert IsOldest(m, if m[k].expires <= m[j].expires then k else j);
    }
  }

  /** The tombstone `min_by_key` finds. Ties go by hash order, which `hint` stands for: every oldest key
      is some hint's choice. */
  ghost function Victim(m: map<FlowKey, Tombstone>, hint: FlowKey): (k: FlowKey)
    requires m != map[]
    ensures k in m && IsOldest(m, k)
    ensures IsOldest(m, hint) ==> k == hint
  {
    if IsOldest(m, hint) then hint
    else
      OldestExists(m);
      var k :| IsOldest(m, k); k
  }

  // ---------------------------------------------------------------------------------------------
  // Claims.

  datatype Reservation = Denied(code: FlowErrorCode) | Granted(state: Registry, epoch: nat, created: bool)

  type Claims = map<FlowKey, FlowClaim>

  function Inactive(claims: Claims, x: SessionId): set<FlowKey> {
    set k | k in claims && k.session == x && !claims[k].active
  }

  function ReserveClaim(
    limits: Limits, s: Registry, key: FlowKey, metadata: Metadata, target: Option<Target>, generation: Option<nat>)
    : Reservation
  {
    if key in s.claims then
      var c := s.claims[key];
      if c.active || c.metadata != metadata then Denied(MetadataConflict)
      else if c.target.Some? && target.Some? && c.target != target then Denied(MetadataConflict)
      else
        var c1 := if c.target.None? then c.(target := target) else c;
        var c2 := if generation.Some? && generation.value !in c1.generations
                  then c1.(generations := c1.generations + [generation.value]) else c1;
        Granted(s.(claims := s.claims[key := c2]), c2.epoch, false)
    else if |Inactive(s.claims, key.session)| >= limits.maxPending then Denied(FlowLimit)
    else
      var c := FlowClaim(s.nextEpoch, metadata, target, false, s.nextEpoch, Listed(generation));
      Granted(s.(claims := s.claims[key := c], nextEpoch := s.nextEpoch + 1), s.nextEpoch, true)
  }

  function AbandonClaim(s: Registry, key: FlowKey, epoch: nat): Registry {
    if key in s.claims && !s.claims[key].active && s.claims[key].epoch == epoch
    then s.(claims := s.claims - {key}) else s
  }

  function FinishFlow(s: Registry, key: FlowKey, epoch: nat): Registry {
    if key in s.claims && s.claims[key].active && s.claims[key].epoch == epoch
    then s.(claims := s.claims - {key}) else s
  }

  datatype Activation = Refused(code: FlowErrorCode) | Activated(state: Registry)

  /** The barrier shared with QUIC replacement: generations are compared and the claim goes active in
      one step. */
  function ActivateClaim(s: Registry, key: FlowKey, epoch: nat, generations: seq<nat>): Activation {
    if exists i :: 0 <= i < |generations| && Current(s.links, key.session) != Some(generations[i])
    then Activation.Refused(SessionReplaced)
    else if key !in s.claims then Activation.Refused(InternalError)
    else Activated(s.(claims := s.claims[key :=
                        s.claims[key].(epoch := epoch, active := true, generations := generations)]))
  }

  // ---------------------------------------------------------------------------------------------
  // Rejection and tombstones.

  /** Expired tombstones go; `consume` also takes the one for `key`. */
  function TerminalRejection(s: Registry, key: FlowKey, consume: bool, now: int): (Registry, Option<FlowErrorCode>) {
    var live := Live(s.rejections, now);
    var code := if key in live then Some(live[key].code) else None;
    (s.(rejections := if consume then live - {key} else live), code)
  }

  /** Adds one tombstone to the live ones; a full table gives up its oldest. */
  ghost function Bury(
    limits: Limits, rejections: map<FlowKey, Tombstone>, key: FlowKey, code: FlowErrorCode, now: int, hint: FlowKey)
    : map<FlowKey, Tombstone>
  {
    var live := Live(rejections, now);
    var kept := if key !in live && |live| >= limits.maxPending && live != map[]
                then live - {Victim(live, hint)} else live;
    kept[key := Tombstone(code, now + limits.timeout)]
  }

  ghost function AddTombstone(limits: Limits, s: Registry, key: FlowKey, code: FlowErrorCode, now: int, hint: FlowKey)
    : Registry
  {
    s.(rejections := Bury(limits, s.rejections, key, code, now, hint))
  }

  /** `reject_flow_setup`: the failure goes to a downlink already there, or into a tombstone. */
  ghost function RejectSetup(limits: Limits, s: Registry, key: FlowKey, code: FlowErrorCode, now: int, hint: FlowKey)
    : Registry
  {
    if key in s.claims && s.claims[key].active then s
    else
      var tcpDown, udpDown := DownlinkAt(s.tcp, key), DownlinkAt(s.udp, key);
      var s1 := DropEntry(DropEntry(s, Tcp, key), Udp, key);
      var s2 := s1.(claims := s1.claims - {key});
      var s3 := if tcpDown.None? && udpDown.None? then AddTombstone(limits, s2, key, code, now, hint) else s2;
      WriteResult(WriteResult(s3, tcpDown, code), udpDown, code)
  }

  // ---------------------------------------------------------------------------------------------
  // Submission.

  /** `validate_header_and_link`. */
  function Invalid(s: Registry, sub: Submission): Option<FlowErrorCode> {
    if sub.header.kind != sub.via then Some(InvalidRequest)
    else if !sub.header.role.Attach? && sub.target.None? then Some(InvalidRequest)
    else if sub.header.role.Attach? && sub.target.Some? then Some(InvalidRequest)
    else if sub.header.Lane().Quic? != sub.generation.Some?
         || (sub.generation.Some? && Current(s.links, sub.session) != sub.generation) then Some(SessionReplaced)
    else None
  }

  /** `validate_current_link_locked`. */
  predicate LinkCurrent(l: LinkTable, x: SessionId, generation: Option<nat>) {
    x in l.counts && if generation.Some? then l.counts[x].quic == generation else l.counts[x].tcp > 0
  }

  /** A flow with both halves, before its claim is activated. */
  datatype Completed = Completed(
    key: FlowKey,
    epoch: nat,
    metadata: Metadata,
    target: Option<Target>,
    uplink: Option<Stream>,
    downlink: Option<Stream>,
    liveness: Option<Stream>,
    uplinkPath: Option<LinkPath>,
    downlinkPath: Option<LinkPath>,
    generations: seq<nat>,
    permit: Option<nat>)

  /** An entry without the halves whose QUIC carrier is not the current one. */
  function Trim(p: Pending, current: Option<nat>): Pending {
    var q := if p.metadata.uplink.Quic? && p.uplinkGeneration != current
             then p.(uplink := None, target := None, permit := None, uplinkPath := None, uplinkGeneration := None)
             else p;
    if p.metadata.downlink.Quic? && p.downlinkGeneration != current
    then q.(downlink := None, liveness := None, downlinkPath := None, downlinkGeneration := None) else q
  }

  function TrimmedClaims(claims: Claims, key: FlowKey, q: Pending): Claims {
    if key !in claims || claims[key].active then claims
    else if q.uplink.None? && q.downlink.None? then claims - {key}
    else claims[key := claims[key].(target := q.target, generations := Generations(q))]
  }

  /** Halves whose QUIC carrier was replaced are thrown away; a flow left with no half goes entirely. */
  function ClearStale(s: Registry, kind: FlowKind, key: FlowKey): Registry {
    if key !in Pend(s, kind) then s
    else
      var p := Pend(s, kind)[key];
      var q := Trim(p, Current(s.links, key.session));
      var gone := q.uplink.None? && q.downlink.None?;
      var s1 := WithPend(s, kind, if gone then Pend(s, kind) - {key} else Pend(s, kind)[key := q]);
      var s2 := Release(s1, if gone || q.permit.None? then p.permit else None);
      s2.(claims := TrimmedClaims(s.claims, key, q))
  }

  /** How far a submission gets before its claim is activated. `hand` is a permit still held by the
      caller, and `abort` asks for the whole flow to be rejected. */
  datatype Installed =
    | Waits(state: Registry, epoch: nat)
    | Completes(state: Registry, done: Completed)
    | Fails(state: Registry, code: FlowErrorCode, downlink: Option<Stream>, abort: bool, hand: Option<nat>)

  /** Puts the half of `sub` into the entry `p` of its flow. */
  function InstallHalf(s: Registry, sub: Submission, p: Pending, permit: Option<nat>): Installed {
    var kind, key := sub.via, sub.Key();
    var s1 := WithPend(s, kind, Pend(s, kind)[key := p]);
    if sub.header.role.Open? then
      if p.uplink.Some? then Fails(s1, MetadataConflict, None, true, permit)
      else Settle(s, kind, key, p.(uplink := sub.uplink, permit := permit, uplinkPath := Some(sub.path),
                                   uplinkGeneration := sub.generation))
    else
      if p.downlink.Some? then Fails(s1, MetadataConflict, sub.downlink, true, permit)
      else Settle(s, kind, key, p.(downlink := sub.downlink, liveness := sub.liveness, downlinkPath := Some(sub.path),
                                   downlinkGeneration := sub.generation))
  }

  /** Completes the flow when both halves are there, otherwise renews its epoch and waits. */
  function Settle(s: Registry, kind: FlowKind, key: FlowKey, p: Pending): Installed {
    if p.uplink.Some? && p.downlink.Some? then
      var s1 := WithPend(s, kind, Pend(s, kind) - {key});
      if kind.Udp? && p.permit.None? then Fails(AbandonClaim(s1, key, p.epoch), InternalError, p.downlink, false, None)
      else Completes(s1, Completed(key, p.epoch, p.metadata, p.target, p.uplink, p.downlink, p.liveness,
                                   p.uplinkPath, p.downlinkPath, Generations(p), p.permit))
    else
      var epoch := s.nextEpoch;
      var s1 := s.(nextEpoch := s.nextEpoch + 1);
      if key !in s1.claims then
        Fails(WithPend(s1, kind, Pend(s1, kind) - {key}), InternalError, p.downlink, true, p.permit)
      else
        var s2 := s1.(claims := s1.claims[key := s1.claims[key].(epoch := epoch)]);
        Waits(WithPend(s2, kind, Pend(s2, kind)[key := p.(epoch := epoch)]), epoch)
  }

  /** The locked section of `submit_tcp` and `submit_udp` for a split flow. */
  function Install(limits: Limits, s: Registry, sub: Submission, permit: Option<nat>, now: int): Installed {
    var kind, key, metadata := sub.via, sub.Key(), sub.Meta();
    if !LinkCurrent(s.links, key.session, sub.generation)
    then Fails(s, SessionReplaced, sub.downlink, sub.header.role.Open?, permit)
    else
      var s1 := ClearStale(s, kind, key);
      var (s2, rejection) := TerminalRejection(s1, key, sub.header.role.Attach?, now);
      if rejection.Some? then Fails(s2, rejection.value, sub.downlink, false, permit) else Join(limits, s2, sub, permit)
  }

  /** Claims the flow of `sub` and adds its half to the entry, new or waiting. */
  function Join(limits: Limits, s: Registry, sub: Submission, permit: Option<nat>): Installed {
    var kind, key, metadata := sub.via, sub.Key(), sub.Meta();
    match ReserveClaim(limits, s, key, metadata, sub.target, sub.generation)
    case Denied(code) => Fails(s, code, sub.downlink, true, permit)
    case Granted(s1, epoch, _) =>
      var p := if key in Pend(s1, kind) then Pend(s1, kind)[key]
               else Pending(epoch, metadata, Current(s1.links, key.session), sub.target,
                            None, None, None, None, None, None, None, None);
      if p.metadata != metadata
      then Fails(WithPend(s1, kind, Pend(s1, kind)[key := p]), MetadataConflict, sub.downlink, true, permit)
      else InstallHalf(s1, sub, if p.target.None? then p.(target := sub.target) else p, permit)
  }

  /** A duplex flow brings both halves at once and never waits. */
  function InstallDuplex(limits: Limits, s: Registry, sub: Submission, permit: Option<nat>): Installed {
    match ReserveClaim(limits, s, sub.Key(), sub.Meta(), sub.target, sub.generation)
    case Denied(code) => Fails(s, code, sub.downlink, false, permit)
    case Granted(s1, epoch, created) =>
      if !created then Fails(s1, MetadataConflict, sub.downlink, false, permit)
      else Completes(s1, Completed(sub.Key(), epoch, sub.Meta(), sub.target, sub.uplink, sub.downlink, sub.liveness,
                                   Some(sub.path), Some(sub.path), Listed(sub.generation), permit))
  }

  /** `submit_tcp` and `submit_udp` up to activation. */
  function Prepare(limits: Limits, s: Registry, sub: Submission, now: int): Installed {
    var role := sub.header.role;
    var s0 := s.(history := s.history + {sub});
    var invalid := Invalid(s0, sub);
    if invalid.Some? then Fails(s0, invalid.value, sub.downlink, role.Open?, None)
    else if !sub.Shaped() then Fails(s0, InvalidRequest, sub.downlink, role.Open?, None)
    else Admit(limits, s0, sub, now)
  }

  /** A validated submission: a tombstone ends it, otherwise it goes on to its permit. */
  function Admit(limits: Limits, s: Registry, sub: Submission, now: int): Installed {
    var key, role := sub.Key(), sub.header.role;
    var early := role.Duplex? || (role.Open? && sub.via.Udp?);
    var (s1, rejection) := if early then TerminalRejection(s, key, role.Duplex?, now) else (s, None);
    if rejection.Some? then Fails(s1, rejection.value, sub.downlink, false, None)
    else AcquireAndInstall(limits, s1, sub, now)
  }

  /** An opening UDP flow takes one unit of its session's budget first. */
  function AcquireAndInstall(limits: Limits, s: Registry, sub: Submission, now: int): Installed {
    var x, role := sub.session, sub.header.role;
    if sub.via.Udp? && !role.Attach? then
      if x !in s.links.counts then Fails(s, SessionReplaced, sub.downlink, role.Open?, None)
      else
        var b := s.links.counts[x].budget;
        if b >= |s.links.budgets| || s.links.budgets[b] == 0 then Fails(s, FlowLimit, sub.downlink, role.Open?, None)
        else
          var s1 := s.(links := s.links.(budgets := s.links.budgets[b := s.links.budgets[b] - 1]));
          if role.Duplex? then InstallDuplex(limits, s1, sub, Some(b)) else Install(limits, s1, sub, Some(b), now)
    else if role.Duplex? then InstallDuplex(limits, s, sub, None)
    else Install(limits, s, sub, None, now)
  }

  /** Activates a completed flow and hands it out, or gives it up. */
  function Finish(s: Registry, d: Completed): (Registry, Outcome) {
    match ActivateClaim(s, d.key, d.epoch, d.generations)
    case Refused(code) =>
      (Release(WriteResult(AbandonClaim(s, d.key, d.epoch), d.downlink, code), d.permit), Rejected(code))
    case Activated(s1) =>
      var s2 := s1.(leases := s1.leases[d.epoch := FlowLease(d.key, s1.claims[d.key].token, d.permit)]);
      if d.target.Some? && d.uplink.Some? && d.downlink.Some? && d.uplinkPath.Some? && d.downlinkPath.Some? then
        (s2.(handed := s2.handed + {d.downlink.value}),
         Paired(PairedFlow(d.key, d.metadata, d.target.value, d.uplink.value, d.downlink.value, d.liveness,
                           d.uplinkPath.value, d.downlinkPath.value, d.generations, d.epoch)))
      else (s2, Panicked)
  }

  /** One whole call of `submit_tcp` or `submit_udp`. */
  ghost function Submit(limits: Limits, s: Registry, sub: Submission, now: int, hint: FlowKey): (Registry, Outcome) {
    match Prepare(limits, s, sub, now)
    case Waits(s1, epoch) => (s1.(timers := s1.timers + {Timer(sub.via, sub.Key(), epoch)}), Waiting(epoch))
    case Completes(s1, d) => Finish(s1, d)
    case Fails(s1, code, downlink, abort, hand) =>
      var s2 := if abort then RejectSetup(limits, s1, sub.Key(), code, now, hint) else s1;
      (Release(WriteResult(s2, downlink, code), hand), Rejected(code))
  }

  // ---------------------------------------------------------------------------------------------
  // Timers, CLOSE, leases, carrier replacement and shutdown.

  ghost function Timeout(limits: Limits, s: Registry, t: Timer, now: int, hint: FlowKey): Registry {
    var s0 := s.(timers := s.timers - {t});
    if t.key in Pend(s0, t.kind) && Pend(s0, t.kind)[t.key].epoch == t.epoch then
      var p := Pend(s0, t.kind)[t.key];
      var s1 := DropEntry(s0, t.kind, t.key);
      if p.uplink.Some? && p.downlink.None? then RejectSetup(limits, s1, t.key, PairTimeout, now, hint)
      else AbandonClaim(WriteResult(s1, p.downlink, PairTimeout), t.key, t.epoch)
    else s0
  }

  function CancelUdp(s: Registry, key: FlowKey): Registry {
    var s1 := DropEntry(s, Udp, key);
    if key !in s1.claims then s1
    else if s1.claims[key].active then s1.(cancelled := s1.cancelled + {s1.claims[key].token})
    else AbandonClaim(s1, key, s1.claims[key].epoch)
  }

  /** Dropping a lease finishes its flow and returns its permit. */
  function DropLease(s: Registry, epoch: nat): Registry {
    if epoch !in s.leases then s
    else
      var lease := s.leases[epoch];
      Release(FinishFlow(s.(leases := s.leases - {epoch}), lease.key, epoch), lease.permit)
  }

  predicate OwnedBy(key: FlowKey, c: FlowClaim, x: SessionId, g: nat) {
    key.session == x && c.active && g in c.generations
  }

  /** `cancel_active_quic_generation`. */
  function CancelPass(s: Registry, x: SessionId, g: nat): Registry {
    s.(cancelled := s.cancelled + set k | k in s.claims && OwnedBy(k, s.claims[k], x, g) :: s.claims[k].token)
  }

  function StaleIn(m: map<FlowKey, Pending>, x: SessionId, g: nat): set<FlowKey> {
    set k | k in m && k.session == x && m[k].snapshot == Some(g)
  }

  function Stale(s: Registry, x: SessionId, g: nat): set<FlowKey> {
    StaleIn(s.tcp, x, g) + StaleIn(s.udp, x, g)
  }

  /** The hash order of one purge: which key comes next, and which tombstone a tie evicts. */
  datatype Hint = Hint(next: FlowKey, victim: FlowKey)

  ghost function NextKey(keys: set<FlowKey>, hints: seq<Hint>): (k: FlowKey)
    requires keys != {}
    ensures k in keys
    ensures hints != [] && hints[0].next in keys ==> k == hints[0].next
  {
    if hints != [] && hints[0].next in keys then hints[0].next else var k :| k in keys; k
  }

  ghost function RejectAll(limits: Limits, s: Registry, keys: set<FlowKey>, now: int, hints: seq<Hint>): Registry
    decreases |keys|
  {
    if keys == {} then s
    else
      var k := NextKey(keys, hints);
      var hint := if hints == [] then k else hints[0].victim;
      RejectAll(limits, RejectSetup(limits, s, k, SessionReplaced, now, hint), keys - {k}, now,
                if hints == [] then [] else hints[1..])
  }

  ghost function Purge(limits: Limits, s: Registry, x: SessionId, g: nat, now: int, hints: seq<Hint>): Registry {
    RejectAll(limits, s, Stale(s, x, g), now, hints)
  }

  /** `register_quic_link`: swap, then cancel and purge the displaced generation before any stream of the
      new carrier is admitted. */
  ghost function RegisterQuic(limits: Limits, s: Registry, x: SessionId, now: int, hints: seq<Hint>): Registry {
    var (links, previous) := SwapQuic(s.links, x, limits.maxUdpFlows);
    var s1 := s.(links := links);
    match previous
    case None => s1
    case Some(g) => Purge(limits, CancelPass(s1, x, g), x, g, now, hints)
  }

  /** The part of a QUIC guard drop that runs at once; the purge it spawns is a step of its own. */
  function DropQuicGuard(s: Registry, x: SessionId, g: nat): Registry {
    CancelPass(s.(links := DropQuicLink(s.links, x, g)), x, g)
  }

  function HeldPermits(m: map<FlowKey, Pending>, b: nat): set<FlowKey> {
    set k | k in m && m[k].permit == Some(b)
  }

  function ActiveClaims(claims: Claims): Claims {
    map k | k in claims && claims[k].active :: claims[k]
  }

  function AllTokens(claims: Claims): set<nat> {
    set k | k in claims :: claims[k].token
  }

  /** Budgets once every half-open flow has dropped its permit. */
  function Refunded(s: Registry): seq<nat> {
    seq(|s.links.budgets|, b requires 0 <= b < |s.links.budgets| =>
        s.links.budgets[b] + |HeldPermits(s.tcp, b)| + |HeldPermits(s.udp, b)|)
  }

  /** `cancel_all`: every claim's token is cancelled, every half-open flow and tombstone dropped. */
  function CancelAll(s: Registry): Registry {
    s.(cancelled := s.cancelled + AllTokens(s.claims),
       tcp := map[], udp := map[], rejections := map[],
       links := s.links.(budgets := Refunded(s)),
       claims := ActiveClaims(s.claims))
  }
}
