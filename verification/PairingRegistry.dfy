/** The registry as the object it is: maps and counters changed in place, each method proved against the
    function of the state it computes. */
module PairingRegistry {
  import opened Wrappers
  import opened Flow
  import opened Links
  import opened Pairing
  import opened PairingInvariant
  import PairingFrames
  import PairingSteps
  import opened PairingSubmit
  import opened PairingRuns
  import opened PairingReplacement
  import Table = PairingTable
  import Timers = PairingTimers
  import Endings = PairingEndings
  import P = Pairing

  datatype Reserved = Denial(code: FlowErrorCode) | Grant(epoch: nat, created: bool)

  /** How a submission got on, without the state it left behind. */
  datatype Progress =
    | Parked(epoch: nat)
    | Joined(done: Completed)
    | Stopped(code: FlowErrorCode, downlink: Option<Stream>, abort: bool, hand: Option<nat>)
  {
    function In(s: Registry): Installed {
      match this
      case Parked(epoch) => Waits(s, epoch)
      case Joined(done) => Completes(s, done)
      case Stopped(code, downlink, abort, hand) => Fails(s, code, downlink, abort, hand)
    }
  }

  /** An oldest tombstone, found by scanning. */
  method FindOldest(m: map<FlowKey, Tombstone>) returns (oldest: FlowKey)
    requires m != map[]
    ensures IsOldest(m, oldest)
  {
    assert m.Keys != {};
    var rest := m.Keys;
    oldest :| oldest in rest;
    while rest != {}
      invariant oldest in m && rest <= m.Keys
      invariant forall j :: j in m && j !in rest ==> m[oldest].expires <= m[j].expires
      decreases |rest|
    {
      var k :| k in rest;
      rest := rest - {k};
      if m[k].expires < m[oldest].expires {
        oldest := k;
      }
    }
  }

  /** Counts the inactive claims of a session. */
  method CountInactive(claims: Claims, x: SessionId) returns (n: nat)
    ensures n == |Inactive(claims, x)|
  {
    n := 0;
    var rest := claims.Keys;
    ghost var found := {};
    while rest != {}
      invariant rest <= claims.Keys && n == |found|
      invariant found == set k | k in Inactive(claims, x) && k !in rest
      decreases |rest|
    {
      var k :| k in rest;
      rest := rest - {k};
      if k.session == x && !claims[k].active {
        n := n + 1;
        found := found + {k};
      }
    }
    assert found == Inactive(claims, x);
  }

  /** Takes the expired tombstones out. */
  method Prune(m: map<FlowKey, Tombstone>, now: int) returns (live: map<FlowKey, Tombstone>)
    ensures live == Live(m, now)
  {
    live := m;
    var rest := m.Keys;
    while rest != {}
      invariant rest <= m.Keys
      invariant live == map k | k in m && (k in rest || m[k].expires > now) :: m[k]
      decreases |rest|
    {
      var k :| k in rest;
      rest := rest - {k};
      if m[k].expires <= now {
        live := live - {k};
      }
    }
  }

  /** The flows of a session that were opened under generation `g`. */
  method CollectStale(m: map<FlowKey, Pending>, x: SessionId, g: nat) returns (keys: set<FlowKey>)
    ensures keys == StaleIn(m, x, g)
  {
    keys := {};
    var rest := m.Keys;
    while rest != {}
      invariant rest <= m.Keys
      invariant keys == set k | k in StaleIn(m, x, g) && k !in rest
      decreases |rest|
    {
      var k :| k in rest;
      rest := rest - {k};
      if k.session == x && m[k].snapshot == Some(g) {
        keys := keys + {k};
      }
    }
  }

  /** Drops every half-open flow of a map: each permit goes back to the budget it came from. */
  method Refund(m: map<FlowKey, Pending>, budgets: seq<nat>) returns (r: seq<nat>)
    ensures |r| == |budgets| && forall b :: 0 <= b < |r| ==> r[b] == budgets[b] + |HeldPermits(m, b)|
  {
    r := budgets;
    var rest := m.Keys;
    assert forall b: nat :: HeldOf(m, b, m.Keys - rest) == {};
    while rest != {}
      invariant rest <= m.Keys && |r| == |budgets|
      invariant forall b :: 0 <= b < |r| ==> r[b] == budgets[b] + |HeldOf(m, b, m.Keys - rest)|
      decreases |rest|
    {
      var k :| k in rest;
      ghost var before := r;
      forall b | 0 <= b < |r|
        ensures |HeldOf(m, b, m.Keys - (rest - {k}))|
             == |HeldOf(m, b, m.Keys - rest)| + if m[k].permit == Some(b) then 1 else 0
      {
        HeldMore(m, b, m.Keys - rest, k);
        assert m.Keys - (rest - {k}) == m.Keys - rest + {k};
      }
      rest := rest - {k};
      if m[k].permit.Some? && m[k].permit.value < |r| {
        r := r[m[k].permit.value := r[m[k].permit.value] + 1];
      }
    }
    assert m.Keys - rest == m.Keys;
    forall b | 0 <= b < |r|
      ensures r[b] == budgets[b] + |HeldPermits(m, b)|
    {
      assert HeldOf(m, b, m.Keys) == HeldPermits(m, b);
    }
  }

  ghost function HeldOf(m: map<FlowKey, Pending>, b: nat, keys: set<FlowKey>): set<FlowKey> {
    set k | k in m && k in keys && m[k].permit == Some(b)
  }

  lemma HeldMore(m: map<FlowKey, Pending>, b: nat, keys: set<FlowKey>, k: FlowKey)
    requires k in m && k !in keys
    ensures |HeldOf(m, b, keys + {k})| == |HeldOf(m, b, keys)| + if m[k].permit == Some(b) then 1 else 0
  {
    assert HeldOf(m, b, keys + {k}) == if m[k].permit == Some(b) then HeldOf(m, b, keys) + {k} else HeldOf(m, b, keys);
  }

  /** Cancels every claim and keeps the running ones. */
  method CancelClaims(claims: Claims) returns (tokens: set<nat>, running: Claims)
    ensures tokens == AllTokens(claims) && running == ActiveClaims(claims)
  {
    tokens, running := {}, claims;
    var rest := claims.Keys;
    while rest != {}
      invariant rest <= claims.Keys
      invariant tokens == set k | k in claims && k !in rest :: claims[k].token
      invariant running == map k | k in claims && (k in rest || claims[k].active) :: claims[k]
      decreases |rest|
    {
      var k :| k in rest;
      rest := rest - {k};
      tokens := tokens + {claims[k].token};
      if !claims[k].active {
        running := running - {k};
      }
    }
  }

  class PairingRegistry {
    const limits: Limits
    var tcp: map<FlowKey, Pending>
    var udp: map<FlowKey, Pending>
    var links: LinkTable
    var claims: map<FlowKey, FlowClaim>
    var rejections: map<FlowKey, Tombstone>
    var nextEpoch: nat
    var cancelled: set<nat>
    var leases: map<nat, FlowLease>
    var timers: set<Timer>
    var answers: seq<Answer>
    var handed: set<Stream>
    var history: set<Submission>

    function View(): Registry
      reads this
    {
      Registry(tcp, udp, links, claims, rejections, nextEpoch, cancelled, leases, timers, answers, handed, history)
    }

    ghost predicate Valid()
      reads this
    {
      limits.Valid() && Inv(limits, View())
    }

    constructor (limits: Limits)
      requires limits.Valid()
      ensures Valid() && this.limits == limits && View() == INITIAL
    {
      this.limits := limits;
      tcp, udp, links, claims, rejections := map[], map[], Links.EMPTY, map[], map[];
      nextEpoch, cancelled, leases, timers, answers, handed, history := 1, {}, map[], {}, [], {}, {};
      new;
      InitialInv(limits);
    }

    // -------------------------------------------------------------------------------------------
    // Sections of the calls.

    method SetPend(kind: FlowKind, m: map<FlowKey, Pending>)
      modifies this
      ensures View() == WithPend(old(View()), kind, m)
    {
      if kind.Tcp? {
        tcp := m;
      } else {
        udp := m;
      }
    }

    method Release(permit: Option<nat>)
      modifies this
      ensures View() == P.Release(old(View()), permit)
    {
      if permit.Some? && permit.value < |links.budgets| {
        links := links.(budgets := links.budgets[permit.value := links.budgets[permit.value] + 1]);
      }
    }

    method DropEntry(kind: FlowKind, key: FlowKey) returns (downlink: Option<Stream>)
      modifies this
      ensures View() == P.DropEntry(old(View()), kind, key)
      ensures downlink == DownlinkAt(Pend(old(View()), kind), key)
    {
      var m := Pend(View(), kind);
      downlink := None;
      if key in m {
        downlink := m[key].downlink;
        SetPend(kind, m - {key});
        Release(m[key].permit);
      }
    }

    method WriteResult(stream: Option<Stream>, code: FlowErrorCode)
      modifies this
      ensures View() == P.WriteResult(old(View()), stream, code)
    {
      if stream.Some? {
        answers := answers + [Answer(stream.value, code)];
      }
    }

    method ReserveClaim(key: FlowKey, metadata: Metadata, target: Option<Target>, generation: Option<nat>)
      returns (r: Reserved)
      modifies this
      ensures P.ReserveClaim(limits, old(View()), key, metadata, target, generation)
           == if r.Grant? then Granted(View(), r.epoch, r.created) else Denied(r.code)
      ensures r.Denial? ==> View() == old(View())
      ensures r.Grant? ==>
                && key in claims && !claims[key].active && claims[key].epoch == r.epoch
                   && claims[key].metadata == metadata
                && (generation.Some? ==> generation.value in claims[key].generations)
                && claims - {key} == old(claims) - {key}
      ensures r.Grant? && r.created <==>
                key !in old(claims) && |Inactive(old(claims), key.session)| < limits.maxPending
      ensures QuotaOk(old(claims), limits.maxPending) ==> QuotaOk(claims, limits.maxPending)
    {
      if key in claims {
        var c := claims[key];
        if c.active || c.metadata != metadata {
          return Denial(MetadataConflict);
        }
        if c.target.Some? && target.Some? && c.target != target {
          return Denial(MetadataConflict);
        }
        if c.target.None? {
          c := c.(target := target);
        }
        if generation.Some? && generation.value !in c.generations {
          c := c.(generations := c.generations + [generation.value]);
        }
        QuotaRenewed(claims, key, c, limits.maxPending);
        claims := claims[key := c];
        return Grant(c.epoch, false);
      }
      var inactive := CountInactive(claims, key.session);
      if inactive >= limits.maxPending {
        return Denial(FlowLimit);
      }
      var epoch := nextEpoch;
      QuotaGrown(claims, key, FlowClaim(epoch, metadata, target, false, epoch, Listed(generation)), limits.maxPending);
      nextEpoch := nextEpoch + 1;
      claims := claims[key := FlowClaim(epoch, metadata, target, false, epoch, Listed(generation))];
      return Grant(epoch, true);
    }

    method AbandonClaim(key: FlowKey, epoch: nat)
      modifies this
      ensures View() == P.AbandonClaim(old(View()), key, epoch)
    {
      if key in claims && !claims[key].active && claims[key].epoch == epoch {
        claims := claims - {key};
      }
    }

    method FinishFlow(key: FlowKey, epoch: nat)
      modifies this
      ensures View() == P.FinishFlow(old(View()), key, epoch)
    {
      if key in claims && claims[key].active && claims[key].epoch == epoch {
        claims := claims - {key};
      }
    }

    /** The scan for a generation that is not current stops at the first. */
    method ActivateClaim(key: FlowKey, epoch: nat, generations: seq<nat>) returns (refusal: Option<FlowErrorCode>)
      modifies this
      ensures P.ActivateClaim(old(View()), key, epoch, generations)
           == if refusal.Some? then Refused(refusal.value) else Activated(View())
      ensures refusal.Some? ==> View() == old(View())
    {
      var current := Current(links, key.session);
      for i := 0 to |generations|
        invariant View() == old(View())
        invariant forall j :: 0 <= j < i ==> Some(generations[j]) == current
      {
        if Some(generations[i]) != current {
          return Some(SessionReplaced);
        }
      }
      if key !in claims {
        return Some(InternalError);
      }
      claims := claims[key := claims[key].(epoch := epoch, active := true, generations := generations)];
      return None;
    }

    method TerminalRejection(key: FlowKey, consume: bool, now: int) returns (code: Option<FlowErrorCode>)
      modifies this
      ensures (View(), code) == P.TerminalRejection(old(View()), key, consume, now)
    {
      rejections := Prune(rejections, now);
      code := if key in rejections then Some(rejections[key].code) else None;
      if consume {
        rejections := rejections - {key};
      }
    }

    method AddTombstone(key: FlowKey, code: FlowErrorCode, now: int) returns (ghost hint: FlowKey)
      modifies this
      ensures View() == P.AddTombstone(limits, old(View()), key, code, now, hint)
    {
      hint := key;
      rejections := Prune(rejections, now);
      if key !in rejections && |rejections| >= limits.maxPending && rejections != map[] {
        var oldest := FindOldest(rejections);
        hint := oldest;
        rejections := rejections - {oldest};
      }
      rejections := rejections[key := Tombstone(code, now + limits.timeout)];
    }

    method Reject(key: FlowKey, code: FlowErrorCode, now: int) returns (ghost hint: FlowKey)
      modifies this
      ensures View() == P.RejectSetup(limits, old(View()), key, code, now, hint)
    {
      hide P.Release, P.AddTombstone;
      hint := key;
      if key in claims && claims[key].active {
        return;
      }
      var tcpDownlink := DropEntry(Tcp, key);
      var udpDownlink := DropEntry(Udp, key);
      DropKeepsOther(old(View()), key);
      claims := claims - {key};
      if tcpDownlink.None? && udpDownlink.None? {
        hint := AddTombstone(key, code, now);
      }
      WriteResult(tcpDownlink, code);
      WriteResult(udpDownlink, code);
    }

    method ClearStale(kind: FlowKind, key: FlowKey)
      modifies this
      ensures View() == P.ClearStale(old(View()), kind, key)
    {
      hide P.Release, Trim, TrimmedClaims, Current;
      var m := Pend(View(), kind);
      if key !in m {
        return;
      }
      var p := Without(m[key], Current(links, key.session));
      var gone := p.uplink.None? && p.downlink.None?;
      SetPend(kind, if gone then m - {key} else m[key := p]);
      var permit := if gone || p.permit.None? then m[key].permit else None;
      ReleaseKeepsClaims(View(), permit);
      Release(permit);
      TrimClaim(key, p);
    }

    /** The entry without the halves that are stale. */
    method Without(p: Pending, current: Option<nat>) returns (q: Pending)
      ensures q == Trim(p, current)
    {
      q := p;
      if q.metadata.uplink.Quic? && q.uplinkGeneration != current {
        q := q.(uplink := None, target := None, permit := None, uplinkPath := None, uplinkGeneration := None);
      }
      if q.metadata.downlink.Quic? && q.downlinkGeneration != current {
        q := q.(downlink := None, liveness := None, downlinkPath := None, downlinkGeneration := None);
      }
    }

    method TrimClaim(key: FlowKey, q: Pending)
      modifies this`claims
      ensures claims == TrimmedClaims(old(claims), key, q)
    {
      if key in claims && !claims[key].active {
        if q.uplink.None? && q.downlink.None? {
          claims := claims - {key};
        } else {
          claims := claims[key := claims[key].(target := q.target, generations := P.Generations(q))];
        }
      }
    }

    /** Completes the flow when both halves are there, otherwise renews its epoch. */
    method Settle(kind: FlowKind, key: FlowKey, p: Pending) returns (r: Progress)
      modifies this
      ensures r.In(View()) == P.Settle(old(View()), kind, key, p)
    {
      hide Generations;
      var m := Pend(View(), kind);
      if p.uplink.Some? && p.downlink.Some? {
        SetPend(kind, m - {key});
        if kind.Udp? && p.permit.None? {
          AbandonClaim(key, p.epoch);
          return Stopped(InternalError, p.downlink, false, None);
        }
        return Joined(Completed(key, p.epoch, p.metadata, p.target, p.uplink, p.downlink, p.liveness,
                                p.uplinkPath, p.downlinkPath, P.Generations(p), p.permit));
      }
      var epoch := nextEpoch;
      nextEpoch := nextEpoch + 1;
      if key !in claims {
        SetPend(kind, m - {key});
        return Stopped(InternalError, p.downlink, true, p.permit);
      }
      claims := claims[key := claims[key].(epoch := epoch)];
      SetPend(kind, m[key := p.(epoch := epoch)]);
      return Parked(epoch);
    }

    method InstallHalf(sub: Submission, p: Pending, permit: Option<nat>) returns (r: Progress)
      modifies this
      ensures r.In(View()) == P.InstallHalf(old(View()), sub, p, permit)
    {
      hide P.Settle;
      var kind, key := sub.via, sub.Key();
      if sub.header.role.Open? {
        if p.uplink.Some? {
          SetPend(kind, Pend(View(), kind)[key := p]);
          return Stopped(MetadataConflict, None, true, permit);
        }
        r := Settle(kind, key, p.(uplink := sub.uplink, permit := permit, uplinkPath := Some(sub.path),
                                  uplinkGeneration := sub.generation));
      } else {
        if p.downlink.Some? {
          SetPend(kind, Pend(View(), kind)[key := p]);
          return Stopped(MetadataConflict, sub.downlink, true, permit);
        }
        r := Settle(kind, key, p.(downlink := sub.downlink, liveness := sub.liveness, downlinkPath := Some(sub.path),
                                  downlinkGeneration := sub.generation));
      }
    }

    method Join(sub: Submission, permit: Option<nat>) returns (r: Progress)
      modifies this
      ensures r.In(View()) == P.Join(limits, old(View()), sub, permit)
    {
      hide P.ReserveClaim, P.InstallHalf;
      var kind, key, metadata := sub.via, sub.Key(), sub.Meta();
      var reserved := ReserveClaim(key, metadata, sub.target, sub.generation);
      if reserved.Denial? {
        return Stopped(reserved.code, sub.downlink, true, permit);
      }
      var m := Pend(View(), kind);
      var p := if key in m then m[key]
               else Pending(reserved.epoch, metadata, Current(links, key.session), sub.target,
                            None, None, None, None, None, None, None, None);
      if p.metadata != metadata {
        SetPend(kind, m[key := p]);
        return Stopped(MetadataConflict, sub.downlink, true, permit);
      }
      if p.target.None? {
        p := p.(target := sub.target);
      }
      r := InstallHalf(sub, p, permit);
    }

    method Install(sub: Submission, permit: Option<nat>, now: int) returns (r: Progress)
      modifies this
      ensures r.In(View()) == P.Install(limits, old(View()), sub, permit, now)
    {
      hide P.ClearStale, P.TerminalRejection, P.Join, LinkCurrent;
      if !LinkCurrent(links, sub.session, sub.generation) {
        return Stopped(SessionReplaced, sub.downlink, sub.header.role.Open?, permit);
      }
      ClearStale(sub.via, sub.Key());
      var rejection := TerminalRejection(sub.Key(), sub.header.role.Attach?, now);
      if rejection.Some? {
        return Stopped(rejection.value, sub.downlink, false, permit);
      }
      r := Join(sub, permit);
    }

    method InstallDuplex(sub: Submission, permit: Option<nat>) returns (r: Progress)
      modifies this
      ensures r.In(View()) == P.InstallDuplex(limits, old(View()), sub, permit)
    {
      hide P.ReserveClaim;
      var reserved := ReserveClaim(sub.Key(), sub.Meta(), sub.target, sub.generation);
      if reserved.Denial? {
        return Stopped(reserved.code, sub.downlink, false, permit);
      }
      if !reserved.created {
        return Stopped(MetadataConflict, sub.downlink, false, permit);
      }
      return Joined(Completed(sub.Key(), reserved.epoch, sub.Meta(), sub.target, sub.uplink, sub.downlink, sub.liveness,
                              Some(sub.path), Some(sub.path), Listed(sub.generation), permit));
    }

    method AcquireAndInstall(sub: Submission, now: int) returns (r: Progress)
      modifies this
      ensures r.In(View()) == P.AcquireAndInstall(limits, old(View()), sub, now)
    {
      hide P.Install, P.InstallDuplex;
      var x, role := sub.session, sub.header.role;
      var permit := None;
      if sub.via.Udp? && !role.Attach? {
        if x !in links.counts {
          return Stopped(SessionReplaced, sub.downlink, role.Open?, None);
        }
        var b := links.counts[x].budget;
        if b >= |links.budgets| || links.budgets[b] == 0 {
          return Stopped(FlowLimit, sub.downlink, role.Open?, None);
        }
        links := links.(budgets := links.budgets[b := links.budgets[b] - 1]);
        permit := Some(b);
      }
      if role.Duplex? {
        r := InstallDuplex(sub, permit);
      } else {
        r := Install(sub, permit, now);
      }
    }

    method Prepare(sub: Submission, now: int) returns (r: Progress)
      modifies this
      ensures r.In(View()) == P.Prepare(limits, old(View()), sub, now)
    {
      hide P.AcquireAndInstall, P.TerminalRejection, Invalid;
      var role := sub.header.role;
      history := history + {sub};
      var invalid := Invalid(View(), sub);
      if invalid.Some? {
        return Stopped(invalid.value, sub.downlink, role.Open?, None);
      }
      if !sub.Shaped() {
        return Stopped(InvalidRequest, sub.downlink, role.Open?, None);
      }
      if role.Duplex? || (role.Open? && sub.via.Udp?) {
        var rejection := TerminalRejection(sub.Key(), role.Duplex?, now);
        if rejection.Some? {
          return Stopped(rejection.value, sub.downlink, false, None);
        }
      }
      r := AcquireAndInstall(sub, now);
    }

    method Finish(d: Completed) returns (outcome: Outcome)
      modifies this
      ensures (View(), outcome) == P.Finish(old(View()), d)
    {
      hide P.ActivateClaim, P.AbandonClaim, P.WriteResult, P.Release;
      ActivatedHasClaim(View(), d.key, d.epoch, d.generations);
      var refusal := ActivateClaim(d.key, d.epoch, d.generations);
      if refusal.Some? {
        AbandonClaim(d.key, d.epoch);
        WriteResult(d.downlink, refusal.value);
        Release(d.permit);
        return Rejected(refusal.value);
      }
      leases := leases[d.epoch := FlowLease(d.key, claims[d.key].token, d.permit)];
      if d.target.Some? && d.uplink.Some? && d.downlink.Some? && d.uplinkPath.Some? && d.downlinkPath.Some? {
        handed := handed + {d.downlink.value};
        return Paired(PairedFlow(d.key, d.metadata, d.target.value, d.uplink.value, d.downlink.value, d.liveness,
                                 d.uplinkPath.value, d.downlinkPath.value, d.generations, d.epoch));
      }
      return Panicked;
    }

    // -------------------------------------------------------------------------------------------
    // The calls.

    /** `submit_tcp` and `submit_udp`. */
    method Submit(sub: Submission, now: int) returns (outcome: Outcome, ghost hint: FlowKey)
      requires Valid() && sub.header.Valid() && NewDownlink(View(), sub)
      modifies this
      ensures Valid() && (View(), outcome) == P.Submit(limits, old(View()), sub, now, hint)
      ensures outcome != Panicked && outcome != Rejected(InternalError)
      ensures outcome.Paired? ==> Coherent(View(), outcome.flow) && outcome.flow.key == sub.Key()
      ensures var v := Table.Decide(limits, old(View()), sub, now);
              && (outcome.Paired? <==> v.Pair?) && (outcome.Waiting? <==> v.Wait?)
              && (v.Refuse? ==> outcome == Rejected(v.code) && Table.Told(old(View()), View(), sub, v.code, v.abort))
    {
      hide Within, NewDownlink, Coherent, P.Prepare, P.Finish, RejectSetup, P.WriteResult, P.Release;
      hint := sub.Key();
      var r := Prepare(sub, now);
      match r {
        case Parked(epoch) =>
          timers := timers + {Timer(sub.via, sub.Key(), epoch)};
          outcome := Waiting(epoch);
        case Joined(done) =>
          outcome := Finish(done);
        case Stopped(code, downlink, abort, hand) =>
          if abort {
            hint := Reject(sub.Key(), code, now);
          }
          WriteResult(downlink, code);
          Release(hand);
          outcome := Rejected(code);
      }
      hide Table.Decide, Table.Told;
      SubmitKeeps(limits, old(View()), sub, now, hint);
      Table.TableDecides(limits, old(View()), sub, now, hint);
      if outcome.Rejected? {
        Table.RefusedIsTold(limits, old(View()), sub, now, hint);
      }
    }

    /** `reject_flow_setup`, as the connection handlers call it. */
    method RejectFlowSetup(key: FlowKey, code: FlowErrorCode, now: int) returns (ghost hint: FlowKey)
      requires Valid() && code != InternalError
      modifies this
      ensures Valid() && View() == RejectSetup(limits, old(View()), key, code, now, hint)
    {
      hide Within, RejectSetup;
      hint := Reject(key, code, now);
      StepKeeps(limits, old(View()), RejectsSetup(key, code, now, hint));
    }

    /** The tasks `spawn_tcp_timeout` and `spawn_udp_timeout` start. */
    method FireTimer(t: Timer, now: int) returns (ghost hint: FlowKey)
      requires Valid()
      modifies this
      ensures Valid() && View() == Timeout(limits, old(View()), t, now, hint)
      ensures !Timers.Due(old(View()), t) ==> View() == old(View()).(timers := old(timers) - {t})
      ensures Timers.Due(old(View()), t) ==> t.key !in tcp && t.key !in udp && t.key !in claims
    {
      hide Within, P.DropEntry, RejectSetup, P.WriteResult, P.AbandonClaim;
      hint := t.key;
      timers := timers - {t};
      var m := Pend(View(), t.kind);
      if t.key in m && m[t.key].epoch == t.epoch {
        var p := m[t.key];
        var downlink := DropEntry(t.kind, t.key);
        if p.uplink.Some? && p.downlink.None? {
          hint := Reject(t.key, PairTimeout, now);
        } else {
          WriteResult(p.downlink, PairTimeout);
          AbandonClaim(t.key, t.epoch);
        }
      }
      hide Timeout;
      StepKeeps(limits, old(View()), TimerFires(t, now, hint));
      if Timers.Due(old(View()), t) {
        Timers.TimerEndsItsWait(limits, old(View()), t, now, hint, t.kind, t.key);
      } else {
        Timers.StaleTimerDoesNothing(limits, old(View()), t, now, hint);
      }
    }

    /** `cancel_udp`; the registry stays in order exactly when no half-open TCP flow has the id. */
    method CloseUdp(key: FlowKey)
      requires Valid()
      modifies this
      ensures View() == CancelUdp(old(View()), key)
      ensures Valid() <==> key !in old(tcp)
      ensures key in old(claims) && old(claims)[key].active ==>
                View() == old(View()).(cancelled := old(cancelled) + {old(claims)[key].token})
      ensures key in old(udp) ==> key !in udp && key !in claims
      ensures key !in old(claims) ==> View() == old(View())
    {
      hide Within, P.DropEntry, P.AbandonClaim;
      var downlink := DropEntry(Udp, key);
      if key in claims {
        if claims[key].active {
          cancelled := cancelled + {claims[key].token};
        } else {
          AbandonClaim(key, claims[key].epoch);
        }
      }
      hide CancelUdp;
      CloseKeepsIffNotTcp(limits, old(View()), key);
      Endings.CloseExactly(limits, old(View()), key);
      HalfOpenHasClaim(limits, old(View()), key);
    }

    method DropFlowLease(epoch: nat)
      requires Valid()
      modifies this
      ensures Valid() && View() == DropLease(old(View()), epoch)
    {
      hide Within, P.FinishFlow, P.Release;
      if epoch in leases {
        var lease := leases[epoch];
        leases := leases - {epoch};
        FinishFlow(lease.key, epoch);
        Release(lease.permit);
      }
      hide DropLease;
      StepKeeps(limits, old(View()), DropsLease(epoch));
    }

    /** `cancel_active_quic_generation`: walks all claims. */
    method CancelOwners(x: SessionId, g: nat)
      modifies this
      ensures View() == CancelPass(old(View()), x, g)
    {
      var rest := claims.Keys;
      while rest != {}
        invariant rest <= claims.Keys
        invariant View() == old(View()).(cancelled := cancelled)
        invariant cancelled == old(cancelled)
                             + set k | k in claims && k !in rest && OwnedBy(k, claims[k], x, g) :: claims[k].token
        decreases |rest|
      {
        var k :| k in rest;
        rest := rest - {k};
        if OwnedBy(k, claims[k], x, g) {
          cancelled := cancelled + {claims[k].token};
        }
      }
    }

    /** `purge_quic_generation`: collects the stale flows of both maps, then rejects them one by one. */
    method PurgeStale(x: SessionId, g: nat, now: int) returns (ghost hints: seq<Hint>)
      modifies this
      ensures View() == P.Purge(limits, old(View()), x, g, now, hints)
    {
      var stale := CollectStale(tcp, x, g);
      var more := CollectStale(udp, x, g);
      stale := stale + more;
      assert stale == Stale(View(), x, g);
      ghost var all := stale;
      hints := [];
      RejectedNone(limits, View(), all, now);
      hide RejectSetup, RejectedSoFar, Stale;
      while stale != {}
        invariant RejectedSoFar(limits, old(View()), all, now, hints, View(), stale)
        decreases |stale|
      {
        var k :| k in stale;
        ghost var before := View();
        ghost var hint := Reject(k, SessionReplaced, now);
        RejectedNext(limits, old(View()), all, now, hints, before, stale, Hint(k, hint));
        hints := hints + [Hint(k, hint)];
        stale := stale - {k};
      }
      RejectedEvery(limits, old(View()), all, now, hints, View());
    }

    method Purge(x: SessionId, g: nat, now: int) returns (ghost hints: seq<Hint>)
      requires Valid()
      modifies this
      ensures Valid() && View() == P.Purge(limits, old(View()), x, g, now, hints)
    {
      hide Within, P.Purge;
      hints := PurgeStale(x, g, now);
      StepKeeps(limits, old(View()), Purges(x, g, now, hints));
    }

    method RegisterTcp(x: SessionId)
      requires Valid()
      modifies this
      ensures Valid() && View() == old(View()).(links := RegisterTcpLink(old(links), x, limits.maxUdpFlows))
    {
      hide Within, RegisterTcpLink;
      links := RegisterTcpLink(links, x, limits.maxUdpFlows);
      StepKeeps(limits, old(View()), RegistersTcp(x));
    }

    /** `register_quic_link`: swap, cancel, purge, then hand out the guard of the new generation. */
    method RegisterQuic(x: SessionId, now: int) returns (generation: nat, ghost hints: seq<Hint>)
      requires Valid()
      modifies this
      ensures Valid() && View() == P.RegisterQuic(limits, old(View()), x, now, hints)
      ensures generation == old(links).nextGeneration && Current(links, x) == Some(generation)
    {
      hide Within, SwapQuic, CancelPass, P.Purge;
      generation := links.nextGeneration;
      hints := [];
      var (swapped, previous) := SwapQuic(links, x, limits.maxUdpFlows);
      links := swapped;
      if previous.Some? {
        CancelOwners(x, previous.value);
        hints := PurgeStale(x, previous.value, now);
      }
      hide P.RegisterQuic;
      StepKeeps(limits, old(View()), RegistersQuic(x, now, hints));
      NewIsCurrent(limits, old(View()), x, now, hints);
    }

    method DropTcpGuard(x: SessionId)
      requires Valid() && x in links.tcpGuards
      modifies this
      ensures Valid() && View() == old(View()).(links := DropTcpLink(old(links), x))
    {
      hide Within, DropTcpLink;
      links := DropTcpLink(links, x);
      StepKeeps(limits, old(View()), DropsTcpGuard(x));
    }

    /** Dropping a QUIC guard; the purge it spawns is a call of its own. */
    method DropQuic(x: SessionId, g: nat)
      requires Valid() && g in links.quicGuards && links.quicGuards[g] == x
      modifies this
      ensures Valid() && View() == DropQuicGuard(old(View()), x, g)
    {
      hide Within, DropQuicLink, CancelPass;
      links := DropQuicLink(links, x, g);
      CancelOwners(x, g);
      hide DropQuicGuard;
      StepKeeps(limits, old(View()), DropsQuicGuard(x, g));
    }

    method CancelEverything()
      requires Valid()
      modifies this
      ensures Valid() && View() == CancelAll(old(View()))
      ensures forall k :: !Endings.Runs(View(), k)
    {
      hide Within, AllTokens, ActiveClaims, HeldPermits, Refunded;
      var tokens, running := CancelClaims(claims);
      var budgets := Refund(tcp, links.budgets);
      budgets := Refund(udp, budgets);
      AllRefunded(View(), budgets);
      cancelled := cancelled + tokens;
      tcp, udp, rejections, claims := map[], map[], map[], running;
      links := links.(budgets := budgets);
      hide CancelAll;
      CancelAllKeeps(limits, old(View()));
      Endings.ShutdownStopsAll(old(View()));
    }
  }

  lemma HalfOpenHasClaim(limits: Limits, s: Registry, key: FlowKey)
    requires Inv(limits, s)
    ensures key in s.udp ==> key in s.claims && !s.claims[key].active
  {
    BooksHold(limits, s, None);
    hide Within, Books;
    PairingSteps.HalfOpenInactive(limits, s, key);
  }

  lemma NewIsCurrent(limits: Limits, s: Registry, x: SessionId, now: int, hints: seq<Hint>)
    ensures Current(P.RegisterQuic(limits, s, x, now, hints).links, x) == Some(s.links.nextGeneration)
  {
    hide SwapQuic, RejectAll;
    var (links, previous) := SwapQuic(s.links, x, limits.maxUdpFlows);
    SwapQuicCounts(s.links, x, limits.maxUdpFlows);
    if previous.Some? {
      var s1 := CancelPass(s.(links := links), x, previous.value);
      PairingFrames.TameRejectAll(limits, s1, Stale(s1, x, previous.value), now, hints);
    }
  }

  lemma AllRefunded(s: Registry, budgets: seq<nat>)
    requires |budgets| == |s.links.budgets|
    requires forall b :: 0 <= b < |budgets| ==>
               budgets[b] == s.links.budgets[b] + |HeldPermits(s.tcp, b)| + |HeldPermits(s.udp, b)|
    ensures budgets == Refunded(s)
  {
    hide HeldPermits;
  }

  lemma QuotaRenewed(claims: Claims, key: FlowKey, c: FlowClaim, maxPending: nat)
    requires key in claims && !claims[key].active && !c.active
    ensures QuotaOk(claims, maxPending) ==> QuotaOk(claims[key := c], maxPending)
  {
    var renewed := claims[key := c];
    if QuotaOk(claims, maxPending) {
      forall x
        ensures |Inactive(renewed, x)| <= maxPending
      {
        assert Inactive(renewed, x) == Inactive(claims, x);
      }
    }
  }

  lemma QuotaGrown(claims: Claims, key: FlowKey, c: FlowClaim, maxPending: nat)
    requires key !in claims && |Inactive(claims, key.session)| < maxPending
    ensures QuotaOk(claims, maxPending) ==> QuotaOk(claims[key := c], maxPending)
  {
    if QuotaOk(claims, maxPending) {
      PairingSteps.QuotaGrow(claims, map[], key, c, maxPending);
    }
  }

  lemma DropKeepsOther(s: Registry, key: FlowKey)
    ensures P.DropEntry(s, Tcp, key).udp == s.udp
  {
  }

  lemma ReleaseKeepsClaims(s: Registry, permit: Option<nat>)
    ensures P.Release(s, permit).claims == s.claims
  {
  }

  lemma ActivatedHasClaim(s: Registry, key: FlowKey, epoch: nat, generations: seq<nat>)
    ensures var r := P.ActivateClaim(s, key, epoch, generations);
            r.Activated? ==> key in r.state.claims
  {
  }

  /** After `hints`, rejecting `all` from `s0` comes down to rejecting `keys` from `s`. */
  ghost predicate RejectedSoFar(
    limits: Limits, s0: Registry, all: set<FlowKey>, now: int, hints: seq<Hint>, s: Registry, keys: set<FlowKey>)
  {
    forall more: seq<Hint> :: RejectAll(limits, s0, all, now, hints + more) == RejectAll(limits, s, keys, now, more)
  }

  lemma RejectedNone(limits: Limits, s: Registry, all: set<FlowKey>, now: int)
    ensures RejectedSoFar(limits, s, all, now, [], s, all)
  {
    hide RejectAll;
    assert forall more: seq<Hint> :: [] + more == more;
  }

  lemma RejectedNext(
    limits: Limits, s0: Registry, all: set<FlowKey>, now: int, hints: seq<Hint>, s: Registry, keys: set<FlowKey>,
    h: Hint)
    requires RejectedSoFar(limits, s0, all, now, hints, s, keys) && h.next in keys
    ensures RejectedSoFar(limits, s0, all, now, hints + [h],
                          RejectSetup(limits, s, h.next, SessionReplaced, now, h.victim), keys - {h.next})
  {
    hide RejectAll, RejectSetup;
    var t := RejectSetup(limits, s, h.next, SessionReplaced, now, h.victim);
    forall more: seq<Hint>
      ensures RejectAll(limits, s0, all, now, (hints + [h]) + more) == RejectAll(limits, t, keys - {h.next}, now, more)
    {
      RejectNext(limits, s, keys, now, h, more);
      assert (hints + [h]) + more == hints + ([h] + more);
    }
  }

  lemma RejectedEvery(limits: Limits, s0: Registry, all: set<FlowKey>, now: int, hints: seq<Hint>, s: Registry)
    requires RejectedSoFar(limits, s0, all, now, hints, s, {})
    ensures s == RejectAll(limits, s0, all, now, hints)
  {
    assert hints + [] == hints;
    assert RejectAll(limits, s, {}, now, []) == s;
  }
}
