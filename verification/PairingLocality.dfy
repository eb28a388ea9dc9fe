/** How far one call reaches: a submission touches its own flow only, and every wait has an epoch of its own. */
module PairingLocality {
  import opened Wrappers
  import opened Flow
  import opened Links
  import opened Pairing
  import opened PairingInvariant

  /** The maps agree but for `key`. */
  ghost predicate Aside<V>(m: map<FlowKey, V>, n: map<FlowKey, V>, key: FlowKey) {
    m - {key} == n - {key}
  }

  /** The entry of `key`, if there is one, is under its old epoch or under a fresh one. */
  ghost predicate EntryKept(m: Entries, n: Entries, key: FlowKey, next: nat) {
    key in n ==> (key in m && n[key].epoch == m[key].epoch) || n[key].epoch >= next
  }

  /** From `s` to `t` only the flow `key` changed, and a new wait has a fresh epoch. */
  ghost predicate Local(s: Registry, t: Registry, key: FlowKey) {
    && Aside(s.tcp, t.tcp, key) && Aside(s.udp, t.udp, key) && Aside(s.claims, t.claims, key)
    && EntryKept(s.tcp, t.tcp, key, s.nextEpoch) && EntryKept(s.udp, t.udp, key, s.nextEpoch)
    && s.nextEpoch <= t.nextEpoch
  }

  /** The fields a submission changes only at its end. */
  ghost predicate Quiet(s: Registry, t: Registry) {
    t.timers == s.timers && t.leases == s.leases && t.handed == s.handed
  }

  lemma LocalThen(s: Registry, t: Registry, u: Registry, key: FlowKey)
    requires Local(s, t, key) && Local(t, u, key)
    ensures Local(s, u, key)
  {
  }

  lemma LocalSelf(s: Registry, t: Registry, key: FlowKey)
    requires t.tcp == s.tcp && t.udp == s.udp && t.claims == s.claims && s.nextEpoch <= t.nextEpoch
    ensures Local(s, t, key)
  {
  }

  lemma LocalRelease(s: Registry, permit: Option<nat>, key: FlowKey)
    ensures Local(s, Release(s, permit), key) && Quiet(s, Release(s, permit))
    ensures var t := Release(s, permit);
            t.tcp == s.tcp && t.udp == s.udp && t.claims == s.claims && t.nextEpoch == s.nextEpoch
  {
    LocalSelf(s, Release(s, permit), key);
  }

  lemma LocalWrite(s: Registry, d: Option<Stream>, code: FlowErrorCode, key: FlowKey)
    ensures Local(s, WriteResult(s, d, code), key) && Quiet(s, WriteResult(s, d, code))
  {
    LocalSelf(s, WriteResult(s, d, code), key);
  }

  lemma LocalDropEntry(s: Registry, kind: FlowKind, key: FlowKey)
    ensures Local(s, DropEntry(s, kind, key), key) && Quiet(s, DropEntry(s, kind, key))
    ensures DropEntry(s, kind, key).claims == s.claims
  {
    hide Local, Aside, EntryKept, Release;
    LocalSelf(s, s, key);
    if key in Pend(s, kind) {
      var w := WithPend(s, kind, Pend(s, kind) - {key});
      LocalRemoved(s, kind, key);
      LocalRelease(w, Pend(s, kind)[key].permit, key);
      LocalThen(s, w, DropEntry(s, kind, key), key);
    }
  }

  lemma LocalRemoved(s: Registry, kind: FlowKind, key: FlowKey)
    ensures Local(s, WithPend(s, kind, Pend(s, kind) - {key}), key)
  {
  }

  lemma LocalPut(s: Registry, kind: FlowKind, key: FlowKey, p: Pending)
    requires (key in Pend(s, kind) && p.epoch == Pend(s, kind)[key].epoch) || p.epoch >= s.nextEpoch
    ensures Local(s, WithPend(s, kind, Pend(s, kind)[key := p]), key)
  {
  }

  lemma LocalClaim(s: Registry, t: Registry, key: FlowKey)
    requires t.tcp == s.tcp && t.udp == s.udp && s.nextEpoch <= t.nextEpoch && Aside(s.claims, t.claims, key)
    ensures Local(s, t, key)
  {
  }

  lemma ClaimGone(claims: Claims, key: FlowKey)
    ensures Aside(claims, claims - {key}, key)
  {
  }

  lemma ClaimChanged(claims: Claims, key: FlowKey, c: FlowClaim)
    ensures Aside(claims, claims[key := c], key)
  {
  }

  lemma LocalAbandon(s: Registry, key: FlowKey, epoch: nat)
    ensures Local(s, AbandonClaim(s, key, epoch), key) && Quiet(s, AbandonClaim(s, key, epoch))
  {
    hide Local, Aside;
    LocalSelf(s, s, key);
    ClaimGone(s.claims, key);
    LocalClaim(s, s.(claims := s.claims - {key}), key);
  }

  lemma LocalReject(limits: Limits, s: Registry, key: FlowKey, code: FlowErrorCode, now: int, hint: FlowKey)
    ensures Local(s, RejectSetup(limits, s, key, code, now, hint), key)
    ensures Quiet(s, RejectSetup(limits, s, key, code, now, hint))
  {
    hide Local, Aside, DropEntry, WriteResult, Bury;
    LocalSelf(s, s, key);
    var s0 := DropEntry(s, Tcp, key);
    var s1 := DropEntry(s0, Udp, key);
    var s2 := s1.(claims := s1.claims - {key});
    LocalDropEntry(s, Tcp, key);
    LocalDropEntry(s0, Udp, key);
    ClaimGone(s1.claims, key);
    LocalClaim(s1, s2, key);
    LocalThen(s, s0, s1, key);
    LocalThen(s, s1, s2, key);
    var tcpDown, udpDown := DownlinkAt(s.tcp, key), DownlinkAt(s.udp, key);
    var s3 := if tcpDown.None? && udpDown.None? then AddTombstone(limits, s2, key, code, now, hint) else s2;
    LocalSelf(s2, s3, key);
    LocalThen(s, s2, s3, key);
    LocalWrite(s3, tcpDown, code, key);
    var s4 := WriteResult(s3, tcpDown, code);
    LocalThen(s, s3, s4, key);
    LocalWrite(s4, udpDown, code, key);
    LocalThen(s, s4, WriteResult(s4, udpDown, code), key);
  }

  lemma LocalClearStale(s: Registry, kind: FlowKind, key: FlowKey)
    ensures Local(s, ClearStale(s, kind, key), key) && Quiet(s, ClearStale(s, kind, key))
  {
    hide Local, Aside, Release;
    LocalSelf(s, s, key);
    if key in Pend(s, kind) {
      var p := Pend(s, kind)[key];
      var q := Trim(p, Current(s.links, key.session));
      TrimEpoch(p, Current(s.links, key.session));
      hide Trim;
      var gone := q.uplink.None? && q.downlink.None?;
      var s1 := WithPend(s, kind, if gone then Pend(s, kind) - {key} else Pend(s, kind)[key := q]);
      LocalRemoved(s, kind, key);
      LocalPut(s, kind, key, q);
      var permit := if gone || q.permit.None? then p.permit else None;
      LocalRelease(s1, permit, key);
      var s2 := Release(s1, permit);
      LocalThen(s, s1, s2, key);
      TrimmedAside(s.claims, key, q);
      LocalClaim(s2, s2.(claims := TrimmedClaims(s.claims, key, q)), key);
      LocalThen(s, s2, ClearStale(s, kind, key), key);
    }
  }

  lemma TrimEpoch(p: Pending, current: Option<nat>)
    ensures Trim(p, current).epoch == p.epoch
  {
  }

  lemma TrimmedAside(claims: Claims, key: FlowKey, q: Pending)
    ensures Aside(claims, TrimmedClaims(claims, key, q), key)
  {
  }

  lemma LocalReserve(
    limits: Limits, s: Registry, key: FlowKey, metadata: Metadata, target: Option<Target>, generation: Option<nat>)
    ensures var r := ReserveClaim(limits, s, key, metadata, target, generation);
            r.Granted? ==>
              && Local(s, r.state, key) && Quiet(s, r.state) && r.state.tcp == s.tcp && r.state.udp == s.udp
              && (key !in s.claims ==> r.epoch >= s.nextEpoch)
  {
    var r := ReserveClaim(limits, s, key, metadata, target, generation);
    hide Local, Inactive;
    if r.Granted? {
      LocalClaim(s, r.state, key);
    }
  }

  lemma LocalSettle(s: Registry, kind: FlowKind, key: FlowKey, p: Pending)
    ensures var r := Settle(s, kind, key, p); Local(s, r.state, key) && Quiet(s, r.state)
  {
    hide Local, Aside, AbandonClaim, Generations;
    var s1 := WithPend(s, kind, Pend(s, kind) - {key});
    LocalRemoved(s, kind, key);
    LocalAbandon(s1, key, p.epoch);
    LocalThen(s, s1, AbandonClaim(s1, key, p.epoch), key);
    var s2 := s.(nextEpoch := s.nextEpoch + 1);
    LocalSelf(s, s2, key);
    LocalRemoved(s2, kind, key);
    LocalThen(s, s2, WithPend(s2, kind, Pend(s2, kind) - {key}), key);
    if key in s.claims {
      var c := s.claims[key].(epoch := s.nextEpoch);
      var s3 := s.(nextEpoch := s.nextEpoch + 1, claims := s.claims[key := c]);
      ClaimChanged(s.claims, key, c);
      LocalWait(s, s3, kind, key, p.(epoch := s.nextEpoch));
    }
  }

  lemma LocalWait(s: Registry, t: Registry, kind: FlowKind, key: FlowKey, p: Pending)
    requires t.tcp == s.tcp && t.udp == s.udp && s.nextEpoch <= t.nextEpoch && Aside(s.claims, t.claims, key)
    requires p.epoch >= s.nextEpoch
    ensures Local(s, WithPend(t, kind, Pend(t, kind)[key := p]), key)
  {
  }

  lemma LocalInstallHalf(s: Registry, sub: Submission, p: Pending, permit: Option<nat>)
    requires p.uplink.Some? || p.downlink.Some? ==>
               sub.Key() in Pend(s, sub.via) && p.epoch == Pend(s, sub.via)[sub.Key()].epoch
    ensures var r := InstallHalf(s, sub, p, permit); Local(s, r.state, sub.Key()) && Quiet(s, r.state)
  {
    hide Local, Settle;
    var kind, key := sub.via, sub.Key();
    if p.uplink.Some? || p.downlink.Some? {
      LocalPut(s, kind, key, p);
    }
    LocalSettle(s, kind, key, p.(uplink := sub.uplink, permit := permit, uplinkPath := Some(sub.path),
                                 uplinkGeneration := sub.generation));
    LocalSettle(s, kind, key, p.(downlink := sub.downlink, liveness := sub.liveness, downlinkPath := Some(sub.path),
                                 downlinkGeneration := sub.generation));
  }

  lemma LocalJoin(limits: Limits, s: Registry, sub: Submission, permit: Option<nat>)
    ensures var r := Join(limits, s, sub, permit); Local(s, r.state, sub.Key()) && Quiet(s, r.state)
  {
    hide Local, ReserveClaim, InstallHalf, Current;
    var kind, key := sub.via, sub.Key();
    LocalSelf(s, s, key);
    LocalReserve(limits, s, key, sub.Meta(), sub.target, sub.generation);
    match ReserveClaim(limits, s, key, sub.Meta(), sub.target, sub.generation)
    case Denied(_) =>
    case Granted(s1, epoch, _) =>
      var p := if key in Pend(s1, kind) then Pend(s1, kind)[key]
               else Pending(epoch, sub.Meta(), Current(s1.links, key.session), sub.target,
                            None, None, None, None, None, None, None, None);
      if p.metadata != sub.Meta() {
        LocalPut(s1, kind, key, p);
        LocalThen(s, s1, WithPend(s1, kind, Pend(s1, kind)[key := p]), key);
      } else {
        var p1 := if p.target.None? then p.(target := sub.target) else p;
        LocalInstallHalf(s1, sub, p1, permit);
        LocalThen(s, s1, InstallHalf(s1, sub, p1, permit).state, key);
      }
  }

  lemma LocalPrune(s: Registry, key: FlowKey, consume: bool, now: int)
    ensures var t := TerminalRejection(s, key, consume, now).0; Local(s, t, key) && Quiet(s, t)
  {
    hide Local, Live;
    LocalSelf(s, TerminalRejection(s, key, consume, now).0, key);
  }

  lemma LocalInstall(limits: Limits, s: Registry, sub: Submission, permit: Option<nat>, now: int)
    ensures var r := Install(limits, s, sub, permit, now); Local(s, r.state, sub.Key()) && Quiet(s, r.state)
  {
    hide Local, ClearStale, TerminalRejection, Join;
    var key := sub.Key();
    LocalSelf(s, s, key);
    var s1 := ClearStale(s, sub.via, key);
    var s2 := TerminalRejection(s1, key, sub.header.role.Attach?, now).0;
    LocalClearStale(s, sub.via, key);
    LocalPrune(s1, key, sub.header.role.Attach?, now);
    LocalThen(s, s1, s2, key);
    LocalJoin(limits, s2, sub, permit);
    LocalThen(s, s2, Join(limits, s2, sub, permit).state, key);
  }

  lemma LocalInstallDuplex(limits: Limits, s: Registry, sub: Submission, permit: Option<nat>)
    ensures var r := InstallDuplex(limits, s, sub, permit); Local(s, r.state, sub.Key()) && Quiet(s, r.state)
  {
    hide Local, ReserveClaim;
    LocalSelf(s, s, sub.Key());
    LocalReserve(limits, s, sub.Key(), sub.Meta(), sub.target, sub.generation);
  }

  lemma LocalAcquire(limits: Limits, s: Registry, sub: Submission, now: int)
    ensures var r := AcquireAndInstall(limits, s, sub, now); Local(s, r.state, sub.Key()) && Quiet(s, r.state)
  {
    hide Local, Install, InstallDuplex;
    var key := sub.Key();
    LocalSelf(s, s, key);
    LocalInstall(limits, s, sub, None, now);
    LocalInstallDuplex(limits, s, sub, None);
    if sub.session in s.links.counts {
      var b := s.links.counts[sub.session].budget;
      if b < |s.links.budgets| && s.links.budgets[b] > 0 {
        var s1 := s.(links := s.links.(budgets := s.links.budgets[b := s.links.budgets[b] - 1]));
        LocalSelf(s, s1, key);
        LocalInstall(limits, s1, sub, Some(b), now);
        LocalInstallDuplex(limits, s1, sub, Some(b));
        LocalThen(s, s1, Install(limits, s1, sub, Some(b), now).state, key);
        LocalThen(s, s1, InstallDuplex(limits, s1, sub, Some(b)).state, key);
      }
    }
  }

  lemma LocalPrepare(limits: Limits, s: Registry, sub: Submission, now: int)
    ensures var r := Prepare(limits, s, sub, now); Local(s, r.state, sub.Key()) && Quiet(s, r.state)
  {
    hide Local, AcquireAndInstall, TerminalRejection, Invalid, Submission.Shaped;
    var key, role := sub.Key(), sub.header.role;
    var s0 := s.(history := s.history + {sub});
    var s1 := TerminalRejection(s0, key, role.Duplex?, now).0;
    LocalSelf(s, s0, key);
    LocalPrune(s0, key, role.Duplex?, now);
    LocalThen(s, s0, s1, key);
    LocalAcquire(limits, s0, sub, now);
    LocalAcquire(limits, s1, sub, now);
    LocalThen(s, s0, AcquireAndInstall(limits, s0, sub, now).state, key);
    LocalThen(s, s1, AcquireAndInstall(limits, s1, sub, now).state, key);
  }

  lemma LocalFinish(s: Registry, d: Completed)
    ensures Local(s, Finish(s, d).0, d.key) && Finish(s, d).0.timers == s.timers
    ensures !Finish(s, d).1.Paired? && !Finish(s, d).1.Panicked? ==> Quiet(s, Finish(s, d).0)
    ensures Finish(s, d).1.Paired? ==>
              var t, flow := Finish(s, d).0, Finish(s, d).1.flow;
              && t.handed == s.handed + {flow.downlink} && flow.epoch in t.leases
              && t.leases - {flow.epoch} == s.leases - {flow.epoch}
  {
    hide Local, Aside, AbandonClaim, WriteResult, Release;
    match ActivateClaim(s, d.key, d.epoch, d.generations)
    case Refused(code) =>
      var s1 := AbandonClaim(s, d.key, d.epoch);
      var s2 := WriteResult(s1, d.downlink, code);
      LocalAbandon(s, d.key, d.epoch);
      LocalWrite(s1, d.downlink, code, d.key);
      LocalThen(s, s1, s2, d.key);
      LocalRelease(s2, d.permit, d.key);
      LocalThen(s, s2, Release(s2, d.permit), d.key);
    case Activated(s1) =>
      ClaimChanged(s.claims, d.key, s1.claims[d.key]);
      LocalClaim(s, Finish(s, d).0, d.key);
  }
}
