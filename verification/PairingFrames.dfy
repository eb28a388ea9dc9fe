/** Sections of the registry's calls that leave running flows, carriers and cancellations alone. */
module PairingFrames {
  import opened Wrappers
  import opened Flow
  import opened Links
  import opened Pairing

  ghost predicate TokensOk(claims: Claims, nextEpoch: nat) {
    && (forall k :: k in claims ==> claims[k].token < nextEpoch)
    && (forall j, k :: j in claims && k in claims && j != k ==> claims[j].token != claims[k].token)
  }

  /** Every claim active in `after` was there before, unchanged. */
  ghost predicate RunningKept(before: Claims, after: Claims) {
    forall k :: k in after && after[k].active ==> k in before && before[k] == after[k]
  }

  function Core(l: LinkTable): LinkTable {
    l.(budgets := [])
  }

  /** From `s` to `t` no flow starts running, running ones keep their claims or end, each claim has its own
      token, and carriers, cancellations and the submissions seen stay. */
  ghost predicate Tame(s: Registry, t: Registry) {
    && RunningKept(s.claims, t.claims)
    && (TokensOk(s.claims, s.nextEpoch) ==> TokensOk(t.claims, t.nextEpoch))
    && s.cancelled == t.cancelled && s.history == t.history
    && Core(s.links) == Core(t.links) && |s.links.budgets| == |t.links.budgets|
  }

  lemma TameThen(s: Registry, t: Registry, u: Registry)
    requires Tame(s, t) && Tame(t, u)
    ensures Tame(s, u)
  {
    hide TokensOk;
  }

  /** Steps that leave the claims as they are. */
  lemma TameAside(s: Registry, t: Registry)
    requires s.claims == t.claims && s.nextEpoch <= t.nextEpoch && s.cancelled == t.cancelled && s.history == t.history
    requires Core(s.links) == Core(t.links) && |s.links.budgets| == |t.links.budgets|
    ensures Tame(s, t)
  {
  }

  /** Steps that take claims away. */
  lemma TameRemoval(s: Registry, t: Registry, gone: set<FlowKey>)
    requires t.claims == s.claims - gone && s.nextEpoch == t.nextEpoch && s.cancelled == t.cancelled
             && s.history == t.history
    requires Core(s.links) == Core(t.links) && |s.links.budgets| == |t.links.budgets|
    ensures Tame(s, t)
  {
  }

  /** Steps that change one claim that is not running, or add one with the next token. */
  lemma TameUpdate(s: Registry, t: Registry, key: FlowKey, c: FlowClaim)
    requires t.claims == s.claims[key := c] && !c.active && s.cancelled == t.cancelled && s.history == t.history
    requires if key in s.claims then c.token == s.claims[key].token && s.nextEpoch <= t.nextEpoch
             else c.token == s.nextEpoch < t.nextEpoch
    requires Core(s.links) == Core(t.links) && |s.links.budgets| == |t.links.budgets|
    ensures Tame(s, t)
  {
  }

  lemma TameRelease(s: Registry, permit: Option<nat>)
    ensures var t := Release(s, permit);
            t.claims == s.claims && t.nextEpoch == s.nextEpoch && t.cancelled == s.cancelled && t.history == s.history
            && Core(t.links) == Core(s.links) && |t.links.budgets| == |s.links.budgets|
            && Tame(s, t)
  {
    TameAside(s, Release(s, permit));
  }

  lemma TameDropEntry(s: Registry, kind: FlowKind, key: FlowKey)
    ensures Tame(s, DropEntry(s, kind, key))
    ensures DropEntry(s, kind, key).claims == s.claims
  {
    var t := DropEntry(s, kind, key);
    if key in Pend(s, kind) {
      var w := WithPend(s, kind, Pend(s, kind) - {key});
      TameRelease(w, Pend(s, kind)[key].permit);
      TameAside(s, t);
    } else {
      TameAside(s, s);
    }
  }

  lemma TameReject(limits: Limits, s: Registry, key: FlowKey, code: FlowErrorCode, now: int, hint: FlowKey)
    ensures Tame(s, RejectSetup(limits, s, key, code, now, hint))
  {
    var r := RejectSetup(limits, s, key, code, now, hint);
    hide Bury, Release;
    if key in s.claims && s.claims[key].active {
      TameAside(s, s);
    } else {
      var s0 := DropEntry(s, Tcp, key);
      var s1 := DropEntry(s0, Udp, key);
      var s2 := s1.(claims := s1.claims - {key});
      TameDropEntry(s, Tcp, key);
      TameDropEntry(s0, Udp, key);
      hide DropEntry;
      assert r == s2.(rejections := r.rejections, answers := r.answers);
      hide RejectSetup;
      TameRemoval(s1, s2, {key});
      TameAside(s2, r);
      hide Tame;
      TameThen(s, s0, s1);
      TameThen(s, s1, s2);
      TameThen(s, s2, r);
    }
  }

  lemma TameClearStale(s: Registry, kind: FlowKind, key: FlowKey)
    ensures Tame(s, ClearStale(s, kind, key))
  {
    if key !in Pend(s, kind) {
      TameAside(s, s);
    } else {
      var p := Pend(s, kind)[key];
      var q := Trim(p, Current(s.links, key.session));
      hide Trim, Generations;
      var gone := q.uplink.None? && q.downlink.None?;
      var s1 := WithPend(s, kind, if gone then Pend(s, kind) - {key} else Pend(s, kind)[key := q]);
      TameRelease(s1, if gone || q.permit.None? then p.permit else None);
      var t := ClearStale(s, kind, key);
      hide Release, Tame;
      if key !in s.claims || s.claims[key].active {
        TameAside(s, t);
      } else if gone {
        TameRemoval(s, t, {key});
      } else {
        TameUpdate(s, t, key, t.claims[key]);
      }
    }
  }

  lemma TameReserve(
    limits: Limits, s: Registry, key: FlowKey, metadata: Metadata, target: Option<Target>, generation: Option<nat>)
    ensures var r := ReserveClaim(limits, s, key, metadata, target, generation);
            r.Granted? ==> Tame(s, r.state) && key in r.state.claims && !r.state.claims[key].active
  {
    var r := ReserveClaim(limits, s, key, metadata, target, generation);
    if r.Granted? {
      hide Tame;
      TameUpdate(s, r.state, key, r.state.claims[key]);
    }
  }

  lemma TameAbandon(s: Registry, key: FlowKey, epoch: nat)
    ensures Tame(s, AbandonClaim(s, key, epoch))
  {
    var t := AbandonClaim(s, key, epoch);
    if t == s {
      TameAside(s, t);
    } else {
      TameRemoval(s, t, {key});
    }
  }

  lemma TameSettle(s: Registry, kind: FlowKind, key: FlowKey, p: Pending)
    requires key in s.claims && !s.claims[key].active
    ensures Tame(s, Settle(s, kind, key, p).state)
  {
    var r := Settle(s, kind, key, p);
    var s1 := WithPend(s, kind, Pend(s, kind) - {key});
    hide Tame;
    TameAside(s, s1);
    TameAbandon(s1, key, p.epoch);
    if r.Waits? {
      TameUpdate(s, r.state, key, r.state.claims[key]);
    } else if r.Fails? {
      TameThen(s, s1, r.state);
    }
  }

  lemma TameInstallHalf(s: Registry, sub: Submission, p: Pending, permit: Option<nat>)
    requires sub.Key() in s.claims && !s.claims[sub.Key()].active
    ensures Tame(s, InstallHalf(s, sub, p, permit).state)
  {
    var kind, key := sub.via, sub.Key();
    hide Tame, Settle;
    TameAside(s, WithPend(s, kind, Pend(s, kind)[key := p]));
    TameSettle(s, kind, key, p.(uplink := sub.uplink, permit := permit, uplinkPath := Some(sub.path),
                                uplinkGeneration := sub.generation));
    TameSettle(s, kind, key, p.(downlink := sub.downlink, liveness := sub.liveness, downlinkPath := Some(sub.path),
                                downlinkGeneration := sub.generation));
  }

  lemma TameJoin(limits: Limits, s: Registry, sub: Submission, permit: Option<nat>)
    ensures Tame(s, Join(limits, s, sub, permit).state)
  {
    var kind, key := sub.via, sub.Key();
    TameReserve(limits, s, key, sub.Meta(), sub.target, sub.generation);
    TameAside(s, s);
    var j := Join(limits, s, sub, permit);
    hide Tame, ReserveClaim, InstallHalf, Pend, WithPend, Current, TokensOk, RunningKept, Core;
    match ReserveClaim(limits, s, key, sub.Meta(), sub.target, sub.generation)
    case Denied(_) =>
    case Granted(s1, epoch, _) =>
      var p := if key in Pend(s1, kind) then Pend(s1, kind)[key]
               else Pending(epoch, sub.Meta(), Current(s1.links, key.session), sub.target,
                            None, None, None, None, None, None, None, None);
      var p1 := if p.target.None? then p.(target := sub.target) else p;
      TameInstallHalf(s1, sub, p1, permit);
      TamePend(s1, kind, Pend(s1, kind)[key := p]);
      hide Join;
      TameThen(s, s1, j.state);
  }

  lemma TamePend(s: Registry, kind: FlowKind, m: map<FlowKey, Pending>)
    ensures Tame(s, WithPend(s, kind, m))
  {
    TameAside(s, WithPend(s, kind, m));
  }

  lemma TamePrune(s: Registry, key: FlowKey, consume: bool, now: int)
    ensures Tame(s, TerminalRejection(s, key, consume, now).0)
  {
    hide Live;
    TameAside(s, TerminalRejection(s, key, consume, now).0);
  }

  lemma TameInstall(limits: Limits, s: Registry, sub: Submission, permit: Option<nat>, now: int)
    ensures Tame(s, Install(limits, s, sub, permit, now).state)
  {
    var key := sub.Key();
    TameAside(s, s);
    hide Tame, ClearStale, TerminalRejection, Join;
    var s1 := ClearStale(s, sub.via, key);
    var s2 := TerminalRejection(s1, key, sub.header.role.Attach?, now).0;
    TameClearStale(s, sub.via, key);
    TamePrune(s1, key, sub.header.role.Attach?, now);
    TameThen(s, s1, s2);
    TameJoin(limits, s2, sub, permit);
    TameThen(s, s2, Join(limits, s2, sub, permit).state);
  }

  lemma TameInstallDuplex(limits: Limits, s: Registry, sub: Submission, permit: Option<nat>)
    ensures Tame(s, InstallDuplex(limits, s, sub, permit).state)
  {
    TameAside(s, s);
    TameReserve(limits, s, sub.Key(), sub.Meta(), sub.target, sub.generation);
    hide Tame, ReserveClaim;
  }

  lemma TameAcquire(limits: Limits, s: Registry, sub: Submission, now: int)
    ensures Tame(s, AcquireAndInstall(limits, s, sub, now).state)
  {
    hide Install, InstallDuplex;
    TameAside(s, s);
    TameInstall(limits, s, sub, None, now);
    TameInstallDuplex(limits, s, sub, None);
    hide Tame;
    if sub.session in s.links.counts {
      var b := s.links.counts[sub.session].budget;
      if b < |s.links.budgets| && s.links.budgets[b] > 0 {
        var s1 := s.(links := s.links.(budgets := s.links.budgets[b := s.links.budgets[b] - 1]));
        TameAside(s, s1);
        TameInstall(limits, s1, sub, Some(b), now);
        TameInstallDuplex(limits, s1, sub, Some(b));
        TameThen(s, s1, Install(limits, s1, sub, Some(b), now).state);
        TameThen(s, s1, InstallDuplex(limits, s1, sub, Some(b)).state);
      }
    }
  }

  lemma TameAdmit(limits: Limits, s: Registry, sub: Submission, now: int)
    ensures Tame(s, Admit(limits, s, sub, now).state)
  {
    var role := sub.header.role;
    hide Tame, AcquireAndInstall, TerminalRejection;
    var s1 := TerminalRejection(s, sub.Key(), role.Duplex?, now).0;
    TamePrune(s, sub.Key(), role.Duplex?, now);
    TameAcquire(limits, s, sub, now);
    TameAcquire(limits, s1, sub, now);
    TameThen(s, s1, AcquireAndInstall(limits, s1, sub, now).state);
  }

  lemma TamePrepare(limits: Limits, s: Registry, sub: Submission, now: int)
    ensures Tame(s.(history := s.history + {sub}), Prepare(limits, s, sub, now).state)
  {
    var s0 := s.(history := s.history + {sub});
    TameAside(s0, s0);
    hide Tame, Admit, Invalid;
    TameAdmit(limits, s0, sub, now);
  }

  lemma TameWrite(s: Registry, d: Option<Stream>, code: FlowErrorCode)
    ensures Tame(s, WriteResult(s, d, code))
  {
    TameAside(s, WriteResult(s, d, code));
  }

  lemma TameSubmit(limits: Limits, s: Registry, sub: Submission, now: int, hint: FlowKey)
    requires !Prepare(limits, s, sub, now).Completes?
    ensures Tame(s.(history := s.history + {sub}), Submit(limits, s, sub, now, hint).0)
  {
    var s0 := s.(history := s.history + {sub});
    TamePrepare(limits, s, sub, now);
    hide Prepare, RejectSetup, Release, WriteResult;
    var t := Submit(limits, s, sub, now, hint).0;
    match Prepare(limits, s, sub, now)
    case Waits(s1, epoch) =>
      TameAside(s1, t);
      hide Tame;
      TameThen(s0, s1, t);
    case Fails(s1, code, downlink, abort, hand) =>
      TameAside(s1, s1);
      hide Tame;
      var s2 := if abort then RejectSetup(limits, s1, sub.Key(), code, now, hint) else s1;
      TameReject(limits, s1, sub.Key(), code, now, hint);
      TameThen(s0, s1, s2);
      TameWrite(s2, downlink, code);
      TameThen(s0, s2, WriteResult(s2, downlink, code));
      TameRelease(WriteResult(s2, downlink, code), hand);
      TameThen(s0, WriteResult(s2, downlink, code), t);
  }

  lemma TameTimeout(limits: Limits, s: Registry, t: Timer, now: int, hint: FlowKey)
    ensures Tame(s, Timeout(limits, s, t, now, hint))
  {
    var s0 := s.(timers := s.timers - {t});
    TameAside(s, s0);
    hide Tame, DropEntry, RejectSetup, WriteResult, AbandonClaim;
    if t.key in Pend(s0, t.kind) && Pend(s0, t.kind)[t.key].epoch == t.epoch {
      var p := Pend(s0, t.kind)[t.key];
      var s1 := DropEntry(s0, t.kind, t.key);
      TameDropEntry(s0, t.kind, t.key);
      TameThen(s, s0, s1);
      var s2 := if p.uplink.Some? && p.downlink.None? then s1 else WriteResult(s1, p.downlink, PairTimeout);
      TameWrite(s1, p.downlink, PairTimeout);
      TameReject(limits, s1, t.key, PairTimeout, now, hint);
      TameAbandon(s2, t.key, t.epoch);
      if s2 != s1 {
        TameThen(s, s1, s2);
      }
      TameThen(s, s2, Timeout(limits, s, t, now, hint));
    }
  }

  lemma TameDropLease(s: Registry, epoch: nat)
    ensures Tame(s, DropLease(s, epoch))
  {
    if epoch !in s.leases {
      TameAside(s, s);
    } else {
      var lease := s.leases[epoch];
      var s0 := s.(leases := s.leases - {epoch});
      var s1 := FinishFlow(s0, lease.key, epoch);
      TameAside(s, s0);
      if s1 != s0 {
        TameRemoval(s, s1, {lease.key});
      }
      hide Tame, Release;
      TameRelease(s1, lease.permit);
      TameThen(s, s1, Release(s1, lease.permit));
    }
  }

  lemma {:induction false} TameRejectAll(
    limits: Limits, s: Registry, keys: set<FlowKey>, now: int, hints: seq<Hint>)
    ensures Tame(s, RejectAll(limits, s, keys, now, hints))
    decreases |keys|
  {
    TameAside(s, s);
    hide Tame, RejectSetup;
    if keys != {} {
      var k := NextKey(keys, hints);
      var hint := if hints == [] then k else hints[0].victim;
      var s1 := RejectSetup(limits, s, k, SessionReplaced, now, hint);
      TameReject(limits, s, k, SessionReplaced, now, hint);
      TameRejectAll(limits, s1, keys - {k}, now, if hints == [] then [] else hints[1..]);
      TameThen(s, s1, RejectAll(limits, s, keys, now, hints));
    }
  }

  lemma TameRefusal(s: Registry, d: Completed)
    requires ActivateClaim(s, d.key, d.epoch, d.generations).Refused?
    ensures Tame(s, Finish(s, d).0)
  {
    var code := ActivateClaim(s, d.key, d.epoch, d.generations).code;
    var s1 := AbandonClaim(s, d.key, d.epoch);
    var s2 := WriteResult(s1, d.downlink, code);
    TameAbandon(s, d.key, d.epoch);
    TameWrite(s1, d.downlink, code);
    TameRelease(s2, d.permit);
    assert Finish(s, d).0 == Release(s2, d.permit);
    hide Tame, Finish, AbandonClaim, WriteResult, Release;
    TameThen(s, s1, s2);
    TameThen(s, s2, Finish(s, d).0);
  }
}
