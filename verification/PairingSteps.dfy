/** How the building blocks of the registry calls keep the invariant. */
module PairingSteps {
  import opened Wrappers
  import opened Flow
  import opened Counting
  import opened Links
  import opened Pairing
  import opened PairingInvariant

  // ---------------------------------------------------------------------------------------------
  // Forgetting a half-open flow.

  lemma OneKind(limits: Limits, s: Registry, key: FlowKey)
    requires Books(limits, s)
    ensures !(key in s.tcp && key in s.udp)
  {
    hide ClaimsOk, LeasesOk, DistinctClaims, QuotaOk, TombstonesOk;
  }

  lemma EntriesForget(kind: FlowKind, m: Entries, claims: Claims, timers: set<Timer>, budgets: nat, key: FlowKey)
    requires EntriesOk(kind, m, claims, timers, budgets)
    ensures EntriesOk(kind, m - {key}, claims - {key}, timers, budgets)
    ensures key !in m ==> EntriesOk(kind, m, claims - {key}, timers, budgets)
  {
    hide HalfOk;
  }

  lemma ClaimsForget(
    claims: Claims, leases: Leases, halfOpen: set<FlowKey>, rest: set<FlowKey>, nextEpoch: nat, budgets: nat,
    key: FlowKey)
    requires ClaimsOk(claims, leases, halfOpen, nextEpoch) && LeasesOk(leases, claims, budgets)
    requires key in claims && !claims[key].active && halfOpen - {key} <= rest
    ensures ClaimsOk(claims - {key}, leases, rest, nextEpoch) && LeasesOk(leases, claims - {key}, budgets)
  {
  }

  lemma QuotaForget(claims: Claims, rejections: map<FlowKey, Tombstone>, key: FlowKey, maxPending: nat)
    requires DistinctClaims(claims) && QuotaOk(claims, maxPending) && TombstonesOk(rejections, claims.Keys, maxPending)
    ensures DistinctClaims(claims - {key}) && QuotaOk(claims - {key}, maxPending)
    ensures TombstonesOk(rejections, (claims - {key}).Keys, maxPending)
  {
    forall x
      ensures |Inactive(claims - {key}, x)| <= maxPending
    {
      SubsetSize(Inactive(claims - {key}, x), Inactive(claims, x));
    }
  }

  /** Entry, claim and permit of a half-open flow go together. */
  function Forget(s: Registry, kind: FlowKind, key: FlowKey): Registry {
    var t := DropEntry(s, kind, key);
    t.(claims := t.claims - {key})
  }

  /** The fields after forgetting a flow. */
  lemma ForgetFields(s: Registry, kind: FlowKind, key: FlowKey)
    requires key in Pend(s, kind)
    ensures var t := Forget(s, kind, key);
            && t.tcp == (if kind.Tcp? then s.tcp - {key} else s.tcp)
            && t.udp == (if kind.Udp? then s.udp - {key} else s.udp)
            && t.claims == s.claims - {key}
            && t == s.(tcp := t.tcp, udp := t.udp, claims := t.claims, links := s.links.(budgets := t.links.budgets))
            && |t.links.budgets| == |s.links.budgets|
            && t.links.budgets == Release(s, Pend(s, kind)[key].permit).links.budgets
  {
    ReleaseFrame(WithPend(s, kind, Pend(s, kind) - {key}), Pend(s, kind)[key].permit);
    ReleaseFrame(s, Pend(s, kind)[key].permit);
    ReleaseBudgets(s, WithPend(s, kind, Pend(s, kind) - {key}), Pend(s, kind)[key].permit);
    hide Release;
  }

  lemma ReleaseBudgets(s: Registry, t: Registry, permit: Option<nat>)
    requires s.links.budgets == t.links.budgets
    ensures Release(s, permit).links.budgets == Release(t, permit).links.budgets
  {
  }

  lemma EntryHasClaim(kind: FlowKind, m: Entries, claims: Claims, timers: set<Timer>, budgets: nat, key: FlowKey)
    requires EntriesOk(kind, m, claims, timers, budgets) && key in m
    ensures EntryOk(kind, key, m[key], claims, timers, budgets)
  {
  }

  lemma HalfOpenForget(tcp: Entries, udp: Entries, tcp2: Entries, udp2: Entries, key: FlowKey)
    requires tcp2 == tcp - {key} || tcp2 == tcp
    requires udp2 == udp - {key} || udp2 == udp
    ensures tcp.Keys + udp.Keys - {key} <= tcp2.Keys + udp2.Keys
  {
  }

  lemma ForgetBooks(limits: Limits, s: Registry, kind: FlowKind, key: FlowKey)
    requires Books(limits, s) && key in Pend(s, kind)
    ensures Books(limits, Forget(s, kind, key))
  {
    OneKind(limits, s, key);
    EntryHasClaim(kind, Pend(s, kind), s.claims, s.timers, |s.links.budgets|, key);
    ForgetFields(s, kind, key);
    hide Forget, EntriesOk, ClaimsOk, LeasesOk, DistinctClaims, QuotaOk, TombstonesOk, HalfOk;
    var t := Forget(s, kind, key);
    EntriesForget(Tcp, s.tcp, s.claims, s.timers, |s.links.budgets|, key);
    EntriesForget(Udp, s.udp, s.claims, s.timers, |s.links.budgets|, key);
    HalfOpenForget(s.tcp, s.udp, t.tcp, t.udp, key);
    ClaimsForget(s.claims, s.leases, s.tcp.Keys + s.udp.Keys, t.tcp.Keys + t.udp.Keys, s.nextEpoch,
                 |s.links.budgets|, key);
    QuotaForget(s.claims, s.rejections, key, limits.maxPending);
  }

  lemma DropPermit(limit: nat, budgets: seq<nat>, udp: Entries, leases: Leases, hand: Option<nat>, key: FlowKey)
    requires Permits(limit, budgets, udp, leases, hand) && key in udp
    requires udp[key].permit.Some? ==> udp[key].permit.value < |budgets|
    ensures udp[key].permit.None? ==> Permits(limit, budgets, udp - {key}, leases, hand)
    ensures udp[key].permit.Some? ==>
              var b := udp[key].permit.value;
              Permits(limit, budgets[b := budgets[b] + 1], udp - {key}, leases, hand)
  {
    hide Count;
    forall b | 0 <= b < |budgets|
      ensures Count(udp - {key}, EntryHolds(b)) == Count(udp, EntryHolds(b)) - One(udp[key].permit == Some(b))
    {
      CountRemove(udp, key, EntryHolds(b));
    }
  }

  lemma DownlinksForget(s: Registry, t: Registry, kind: FlowKind, key: FlowKey)
    requires Downlinks(s) && key in Pend(s, kind)
    requires Sources(Tcp, s.tcp, s.history) && Sources(Udp, s.udp, s.history)
    requires t.tcp == (if kind.Tcp? then s.tcp - {key} else s.tcp)
             && t.udp == (if kind.Udp? then s.udp - {key} else s.udp)
    requires t.answers == s.answers && t.handed == s.handed && t.history == s.history
    ensures Downlinks(t)
    ensures Sources(Tcp, t.tcp, t.history) && Sources(Udp, t.udp, t.history)
    ensures InHand(t, Pend(s, kind)[key].downlink)
  {
    hide Answered, Offered, SourceOk, AnswersOk;
  }

  lemma StillInHand(s: Registry, t: Registry, d: Option<Stream>)
    requires InHand(s, d)
    requires t.answers == s.answers && t.handed == s.handed && t.history == s.history
    requires forall k :: k in t.tcp ==> k in s.tcp && s.tcp[k] == t.tcp[k]
    requires forall k :: k in t.udp ==> k in s.udp && s.udp[k] == t.udp[k]
    ensures InHand(t, d)
  {
  }

  lemma ForgetPermits(limit: nat, s: Registry, kind: FlowKind, key: FlowKey, hand: Option<nat>)
    requires Permits(limit, s.links.budgets, s.udp, s.leases, hand) && key in Pend(s, kind)
    requires Pend(s, kind)[key].permit.Some? ==> kind.Udp? && Pend(s, kind)[key].permit.value < |s.links.budgets|
    ensures var t := Forget(s, kind, key); Permits(limit, t.links.budgets, t.udp, t.leases, hand)
  {
    ForgetFields(s, kind, key);
    hide Forget, Permits;
    if kind.Udp? {
      DropPermit(limit, s.links.budgets, s.udp, s.leases, hand, key);
    }
  }

  lemma ForgetKeeps(limits: Limits, s: Registry, kind: FlowKind, key: FlowKey, hand: Option<nat>, d: Option<Stream>)
    requires Within(limits, s, hand) && key in Pend(s, kind) && InHand(s, d)
    ensures Within(limits, Forget(s, kind, key), hand)
    ensures InHand(Forget(s, kind, key), Pend(s, kind)[key].downlink)
    ensures InHand(Forget(s, kind, key), d)
  {
    var t := Forget(s, kind, key);
    hide Permits, Downlinks, Sources, Links.TableOk, InHand, Release, DropEntry, EntriesOk;
    ForgetFields(s, kind, key);
    EntryHasClaim(kind, Pend(s, kind), s.claims, s.timers, |s.links.budgets|, key);
    ForgetPermits(limits.maxUdpFlows, s, kind, key, hand);
    ForgetBooks(limits, s, kind, key);
    hide Forget, Books;
    StillInHand(s, t, d);
    LinksIgnoreBudgets(s.links, t.links.budgets);
    DownlinksForget(s, t, kind, key);
  }

  // ---------------------------------------------------------------------------------------------
  // Tombstones.

  lemma FewerTombstones(
    m: map<FlowKey, Tombstone>, n: map<FlowKey, Tombstone>, claimed: set<FlowKey>, maxPending: nat)
    requires TombstonesOk(m, claimed, maxPending)
    requires forall k :: k in n ==> k in m && n[k] == m[k]
    ensures TombstonesOk(n, claimed, maxPending) && |n| <= |m|
  {
    SubmapSize(m, n);
  }

  lemma InsertTombstone(m: map<FlowKey, Tombstone>, claimed: set<FlowKey>, maxPending: nat, key: FlowKey, t: Tombstone)
    requires TombstonesOk(m, claimed, maxPending) && key !in claimed && t.code != InternalError
    requires key in m || |m| < maxPending
    ensures TombstonesOk(m[key := t], claimed, maxPending)
  {
    MapSize(m, key, t);
  }

  lemma LivePart(m: map<FlowKey, Tombstone>, now: int)
    ensures forall k :: k in Live(m, now) ==> k in m && Live(m, now)[k] == m[k]
  {
  }

  lemma WithoutOne(m: map<FlowKey, Tombstone>, v: FlowKey, claimed: set<FlowKey>, maxPending: nat)
    requires TombstonesOk(m, claimed, maxPending) && v in m
    ensures TombstonesOk(m - {v}, claimed, maxPending) && |m - {v}| < maxPending
  {
    FewerTombstones(m, m - {v}, claimed, maxPending);
    MapSize(m, v, m[v]);
  }

  lemma BuryFits(
    limits: Limits, rejections: map<FlowKey, Tombstone>, claimed: set<FlowKey>, key: FlowKey, code: FlowErrorCode,
    now: int, hint: FlowKey)
    requires limits.Valid() && TombstonesOk(rejections, claimed, limits.maxPending) && key !in claimed
             && code != InternalError
    ensures TombstonesOk(Bury(limits, rejections, key, code, now, hint), claimed, limits.maxPending)
  {
    hide IsOldest, TombstonesOk, Live;
    var live, t := Live(rejections, now), Tombstone(code, now + limits.timeout);
    LivePart(rejections, now);
    FewerTombstones(rejections, live, claimed, limits.maxPending);
    if key !in live && |live| >= limits.maxPending && live != map[] {
      var v := Victim(live, hint);
      WithoutOne(live, v, claimed, limits.maxPending);
      InsertTombstone(live - {v}, claimed, limits.maxPending, key, t);
    } else {
      InsertTombstone(live, claimed, limits.maxPending, key, t);
    }
  }

  lemma TombstoneKeeps(
    limits: Limits, s: Registry, key: FlowKey, code: FlowErrorCode, now: int, hint: FlowKey, hand: Option<nat>,
    d: Option<Stream>)
    requires limits.Valid() && Within(limits, s, hand) && key !in s.claims && InHand(s, d) && code != InternalError
    ensures Within(limits, AddTombstone(limits, s, key, code, now, hint), hand)
    ensures InHand(AddTombstone(limits, s, key, code, now, hint), d)
  {
    hide EntriesOk, ClaimsOk, LeasesOk, DistinctClaims, QuotaOk, Permits, Sources, Links.TableOk, AnswersOk,
      WaitingOk, Apart, ApartFrom, NotWaiting, Answered, Offered, TombstonesOk;
    hide Bury;
    BuryFits(limits, s.rejections, s.claims.Keys, key, code, now, hint);
  }

  lemma PruneKeeps(
    limits: Limits, s: Registry, key: FlowKey, consume: bool, now: int, hand: Option<nat>, d: Option<Stream>)
    requires Within(limits, s, hand) && InHand(s, d)
    ensures Within(limits, TerminalRejection(s, key, consume, now).0, hand)
    ensures InHand(TerminalRejection(s, key, consume, now).0, d)
  {
    hide EntriesOk, ClaimsOk, LeasesOk, DistinctClaims, QuotaOk, Permits, Sources, Links.TableOk, AnswersOk,
      WaitingOk, Apart, ApartFrom, NotWaiting, Answered, Offered;
    var live := Live(s.rejections, now);
    FewerTombstones(s.rejections, live, s.claims.Keys, limits.maxPending);
    FewerTombstones(live, live - {key}, s.claims.Keys, limits.maxPending);
    hide TombstonesOk;
  }

  // ---------------------------------------------------------------------------------------------
  // Rejecting a flow.

  lemma RejectHalfOpen(
    limits: Limits, s: Registry, kind: FlowKind, key: FlowKey, code: FlowErrorCode, now: int, hint: FlowKey)
    requires key in Pend(s, kind) && key !in Pend(s, if kind.Tcp? then Udp else Tcp)
    requires key in s.claims ==> !s.claims[key].active
    ensures var t, d := Forget(s, kind, key), Pend(s, kind)[key].downlink;
            RejectSetup(limits, s, key, code, now, hint)
            == if d.Some? then WriteResult(t, d, code) else AddTombstone(limits, t, key, code, now, hint)
  {
    hide AddTombstone, Release;
    if kind.Tcp? {
      assert DropEntry(DropEntry(s, Tcp, key), Udp, key) == DropEntry(s, kind, key) by {
        ReleaseFrame(s.(tcp := s.tcp - {key}), s.tcp[key].permit);
      }
    } else {
      assert DropEntry(s, Tcp, key) == s;
    }
  }

  lemma ReleaseFrame(s: Registry, permit: Option<nat>)
    ensures Release(s, permit) == s.(links := s.links.(budgets := Release(s, permit).links.budgets))
    ensures |Release(s, permit).links.budgets| == |s.links.budgets|
  {
  }

  lemma RejectUnknown(limits: Limits, s: Registry, key: FlowKey, code: FlowErrorCode, now: int, hint: FlowKey)
    requires key !in s.tcp && key !in s.udp && key !in s.claims
    ensures RejectSetup(limits, s, key, code, now, hint) == AddTombstone(limits, s, key, code, now, hint)
  {
    hide AddTombstone, Release;
    assert s.claims - {key} == s.claims;
    assert s.(claims := s.claims - {key}) == s;
  }

  lemma HalfOpenInactive(limits: Limits, s: Registry, key: FlowKey)
    requires Books(limits, s)
    ensures key in s.tcp || key in s.udp ==> key in s.claims && !s.claims[key].active
    ensures !(key in s.tcp || key in s.udp) && key in s.claims ==> s.claims[key].active
  {
    hide HalfOk, LeasesOk, DistinctClaims, QuotaOk, TombstonesOk;
  }

  /** After `reject_flow_setup` the flow is gone, unless it was already running. */
  lemma RejectKeeps(
    limits: Limits, s: Registry, key: FlowKey, code: FlowErrorCode, now: int, hint: FlowKey, hand: Option<nat>,
    d: Option<Stream>)
    requires limits.Valid() && Within(limits, s, hand) && InHand(s, d) && code != InternalError
    ensures Within(limits, RejectSetup(limits, s, key, code, now, hint), hand)
    ensures InHand(RejectSetup(limits, s, key, code, now, hint), d)
  {
    hide EntriesOk, ClaimsOk, LeasesOk, DistinctClaims, QuotaOk, TombstonesOk, Permits, Downlinks, Sources,
      Links.TableOk;
    hide InHand, Forget, AddTombstone, DropEntry, Release;
    HalfOpenInactive(limits, s, key);
    OneKind(limits, s, key);
    if key in s.claims && s.claims[key].active {
      assert RejectSetup(limits, s, key, code, now, hint) == s;
    } else if key in s.tcp || key in s.udp {
      hide Within, InHand, RejectSetup, AddTombstone, Forget;
      var kind := if key in s.tcp then Tcp else Udp;
      ForgetKeeps(limits, s, kind, key, hand, d);
      RejectHalfOpen(limits, s, kind, key, code, now, hint);
      var t, e := Forget(s, kind, key), Pend(s, kind)[key].downlink;
      if e.Some? {
        WriteKeeps(limits, t, hand, e, code);
        ApartInHand(s, kind, key, d);
        WriteElsewhere(t, e, code, d);
      } else {
        ForgetGone(s, kind, key);
        TombstoneKeeps(limits, t, key, code, now, hint, hand, d);
      }
    } else {
      hide Within, InHand, RejectSetup, AddTombstone;
      RejectUnknown(limits, s, key, code, now, hint);
      TombstoneKeeps(limits, s, key, code, now, hint, hand, d);
    }
  }

  lemma ApartInHand(s: Registry, kind: FlowKind, key: FlowKey, d: Option<Stream>)
    requires InHand(s, d) && key in Pend(s, kind)
    ensures d.Some? ==> d != Pend(s, kind)[key].downlink
  {
  }

  lemma ForgetGone(s: Registry, kind: FlowKind, key: FlowKey)
    ensures key !in Forget(s, kind, key).claims
  {
  }

  // ---------------------------------------------------------------------------------------------
  // The locked section of a submission.

  /** Every QUIC half of `p` is on the current generation. */
  predicate Fresh(p: Pending, current: Option<nat>) {
    forall i :: 0 <= i < |Generations(p)| ==> current == Some(Generations(p)[i])
  }

  lemma ClearStaleKeepsHalf(s: Registry, kind: FlowKind, key: FlowKey)
    requires key in Pend(s, kind) && EntryOk(kind, key, Pend(s, kind)[key], s.claims, s.timers, |s.links.budgets|)
    requires Fresh(Pend(s, kind)[key], Current(s.links, key.session))
    ensures ClearStale(s, kind, key) == s
  {
    var p := Pend(s, kind)[key];
    var c := s.claims[key];
    if p.uplinkGeneration.Some? {
      assert Generations(p)[0] == p.uplinkGeneration.value;
    }
    if p.downlinkGeneration.Some? {
      assert Generations(p)[|Generations(p)| - 1] == p.downlinkGeneration.value;
    }
    assert s.claims[key := c] == s.claims;
    assert Pend(s, kind)[key := p] == Pend(s, kind);
  }

  lemma ClearStaleDropsHalf(s: Registry, kind: FlowKind, key: FlowKey)
    requires key in Pend(s, kind) && EntryOk(kind, key, Pend(s, kind)[key], s.claims, s.timers, |s.links.budgets|)
    requires !Fresh(Pend(s, kind)[key], Current(s.links, key.session))
    ensures ClearStale(s, kind, key) == Forget(s, kind, key)
  {
    var p := Pend(s, kind)[key];
    assert p.permit.Some? ==> p.uplinkGeneration.Some?;
  }

  /** Clearing stale halves leaves a consistent state, in which a waiting half is on current carriers. */
  lemma ClearStaleKeeps(limits: Limits, s: Registry, kind: FlowKind, key: FlowKey, hand: Option<nat>, d: Option<Stream>)
    requires Within(limits, s, hand) && InHand(s, d)
    ensures var t := ClearStale(s, kind, key);
            && Within(limits, t, hand) && InHand(t, d)
            && t.links.counts == s.links.counts && t.rejections == s.rejections && t.history == s.history
            && (key in Pend(t, kind) ==> Fresh(Pend(t, kind)[key], Current(t.links, key.session)))
  {
    if key in Pend(s, kind) {
      EntryHasClaim(kind, Pend(s, kind), s.claims, s.timers, |s.links.budgets|, key);
      hide Within, InHand;
      if Fresh(Pend(s, kind)[key], Current(s.links, key.session)) {
        ClearStaleKeepsHalf(s, kind, key);
      } else {
        ClearStaleDropsHalf(s, kind, key);
        ForgetFields(s, kind, key);
        ForgetKeeps(limits, s, kind, key, hand, d);
      }
    }
  }

  // ---------------------------------------------------------------------------------------------
  // A first half waits.

  function FirstHalf(sub: Submission, permit: Option<nat>, current: Option<nat>, epoch: nat): Pending {
    if sub.header.role.Open?
    then Pending(epoch, sub.Meta(), current, sub.target, sub.uplink, None, None, permit, Some(sub.path), None,
                 sub.generation, None)
    else Pending(epoch, sub.Meta(), current, sub.target, None, sub.downlink, sub.liveness, None, None, Some(sub.path),
                 None, sub.generation)
  }

  function FirstClaim(sub: Submission, epoch: nat, token: nat): FlowClaim {
    FlowClaim(epoch, sub.Meta(), sub.target, false, token, Listed(sub.generation))
  }

  /** The state after the first half of a flow was installed. */
  function StartWaiting(s: Registry, sub: Submission, permit: Option<nat>): Registry {
    var key, kind, epoch := sub.Key(), sub.via, s.nextEpoch + 1;
    var p := FirstHalf(sub, permit, Current(s.links, key.session), epoch);
    var t := s.(claims := s.claims[key := FirstClaim(sub, epoch, s.nextEpoch)], nextEpoch := s.nextEpoch + 2,
                timers := s.timers + {Timer(kind, key, epoch)});
    WithPend(t, kind, Pend(s, kind)[key := p])
  }

  lemma StartFields(s: Registry, sub: Submission, permit: Option<nat>)
    ensures var t, key, epoch := StartWaiting(s, sub, permit), sub.Key(), s.nextEpoch + 1;
            var p := FirstHalf(sub, permit, Current(s.links, key.session), epoch);
            && t.tcp == (if sub.via.Tcp? then s.tcp[key := p] else s.tcp)
            && t.udp == (if sub.via.Udp? then s.udp[key := p] else s.udp)
            && t.claims == s.claims[key := FirstClaim(sub, epoch, s.nextEpoch)]
            && t.timers == s.timers + {Timer(sub.via, key, epoch)}
            && t == s.(tcp := t.tcp, udp := t.udp, claims := t.claims, timers := t.timers, nextEpoch := epoch + 1)
  {
  }

  /** A split submission that passed validation in a state with these links. */
  predicate Splittable(s: Registry, sub: Submission) {
    && sub.header.Valid() && !sub.header.role.Duplex? && sub.Shaped() && sub.header.kind == sub.via
    && (sub.header.role.Open? <==> sub.target.Some?)
    && sub.header.Lane().Quic? == sub.generation.Some?
    && LinkCurrent(s.links, sub.session, sub.generation)
  }

  /** The permit in hand belongs to an opening UDP submission and to nothing else. */
  predicate RightPermit(sub: Submission, permit: Option<nat>) {
    permit.Some? <==> sub.via.Udp? && !sub.header.role.Attach?
  }

  lemma FirstHalfOk(s: Registry, sub: Submission, permit: Option<nat>, claims: Claims, timers: set<Timer>)
    requires Splittable(s, sub) && RightPermit(sub, permit)
    requires permit.Some? ==> permit.value < |s.links.budgets|
    requires var epoch := s.nextEpoch + 1;
             && sub.Key() in claims && claims[sub.Key()] == FirstClaim(sub, epoch, s.nextEpoch)
             && Timer(sub.via, sub.Key(), epoch) in timers
    ensures var p := FirstHalf(sub, permit, Current(s.links, sub.session), s.nextEpoch + 1);
            EntryOk(sub.via, sub.Key(), p, claims, timers, |s.links.budgets|)
  {
  }

  lemma EntriesGrow(
    kind: FlowKind, m: Entries, claims: Claims, timers: set<Timer>, budgets: nat, key: FlowKey, c: FlowClaim,
    more: set<Timer>, p: Pending)
    requires EntriesOk(kind, m, claims, timers, budgets)
    requires key !in claims && timers <= more
    ensures EntriesOk(kind, m, claims[key := c], more, budgets)
    ensures EntryOk(kind, key, p, claims[key := c], more, budgets)
            ==> EntriesOk(kind, m[key := p], claims[key := c], more, budgets)
  {
    hide HalfOk;
  }

  lemma ClaimsGrow(
    claims: Claims, leases: Leases, halfOpen: set<FlowKey>, more: set<FlowKey>, epoch: nat, budgets: nat, key: FlowKey,
    c: FlowClaim)
    requires ClaimsOk(claims, leases, halfOpen, epoch) && LeasesOk(leases, claims, budgets) && DistinctClaims(claims)
    requires key !in claims && !c.active && c.token == epoch && c.epoch == epoch + 1
    requires halfOpen <= more && key in more
    ensures ClaimsOk(claims[key := c], leases, more, epoch + 2)
    ensures LeasesOk(leases, claims[key := c], budgets) && DistinctClaims(claims[key := c])
  {
  }

  lemma QuotaGrow(claims: Claims, rejections: map<FlowKey, Tombstone>, key: FlowKey, c: FlowClaim, maxPending: nat)
    requires QuotaOk(claims, maxPending) && TombstonesOk(rejections, claims.Keys, maxPending)
    requires key !in claims && key !in rejections && |Inactive(claims, key.session)| < maxPending
    ensures QuotaOk(claims[key := c], maxPending)
    ensures TombstonesOk(rejections, claims[key := c].Keys, maxPending)
  {
    var grown := claims[key := c];
    forall x
      ensures |Inactive(grown, x)| <= maxPending
    {
      var before, after := Inactive(claims, x), Inactive(grown, x);
      assert after <= before + {key};
      SubsetSize(after, before + {key});
      if x != key.session {
        assert after == before;
      }
    }
  }

  lemma HalfOpenGrow(tcp: Entries, udp: Entries, key: FlowKey, p: Pending)
    ensures tcp.Keys + udp.Keys <= tcp[key := p].Keys + udp.Keys
    ensures tcp.Keys + udp.Keys <= tcp.Keys + udp[key := p].Keys
    ensures key in tcp[key := p].Keys + udp.Keys && key in tcp.Keys + udp[key := p].Keys
  {
  }

  lemma StartBooks(limits: Limits, s: Registry, sub: Submission, permit: Option<nat>)
    requires Books(limits, s) && Splittable(s, sub) && RightPermit(sub, permit)
    requires permit.Some? ==> permit.value < |s.links.budgets|
    requires sub.Key() !in s.claims && sub.Key() !in s.rejections
    requires |Inactive(s.claims, sub.session)| < limits.maxPending
    ensures Books(limits, StartWaiting(s, sub, permit))
  {
    hide EntriesOk, ClaimsOk, LeasesOk, DistinctClaims, QuotaOk, TombstonesOk, EntryOk, Splittable;
    var key, t := sub.Key(), StartWaiting(s, sub, permit);
    StartFields(s, sub, permit);
    hide StartWaiting, FirstHalf;
    var p := FirstHalf(sub, permit, Current(s.links, key.session), s.nextEpoch + 1);
    var c := FirstClaim(sub, s.nextEpoch + 1, s.nextEpoch);
    FirstHalfOk(s, sub, permit, t.claims, t.timers);
    EntriesGrow(Tcp, s.tcp, s.claims, s.timers, |s.links.budgets|, key, c, t.timers, p);
    EntriesGrow(Udp, s.udp, s.claims, s.timers, |s.links.budgets|, key, c, t.timers, p);
    HalfOpenGrow(s.tcp, s.udp, key, p);
    ClaimsGrow(s.claims, s.leases, s.tcp.Keys + s.udp.Keys, t.tcp.Keys + t.udp.Keys, s.nextEpoch,
               |s.links.budgets|, key, c);
    QuotaGrow(s.claims, s.rejections, key, c, limits.maxPending);
  }

  lemma StorePermit(
    limit: nat, budgets: seq<nat>, udp: Entries, leases: Leases, permit: Option<nat>, key: FlowKey, p: Pending)
    requires Permits(limit, budgets, udp, leases, permit) && key !in udp && p.permit == permit
    ensures Permits(limit, budgets, udp[key := p], leases, None)
  {
    hide Count;
    forall b | 0 <= b < |budgets|
      ensures Count(udp[key := p], EntryHolds(b)) == Count(udp, EntryHolds(b)) + One(permit == Some(b))
    {
      CountUpdate(udp, key, p, EntryHolds(b));
      CountRemove(udp, key, EntryHolds(b));
    }
  }

  lemma WaitingGrow(m: Entries, s: Registry, key: FlowKey, p: Pending)
    requires WaitingOk(m, s.answers, s.handed, s.history) && Apart(m) && key !in m && InHand(s, p.downlink)
    requires p.downlink.Some? ==> NotWaiting(m, p.downlink.value)
    ensures WaitingOk(m[key := p], s.answers, s.handed, s.history) && Apart(m[key := p])
  {
    hide Answered, Offered;
  }

  lemma DownlinksGrow(s: Registry, t: Registry, kind: FlowKind, key: FlowKey, p: Pending)
    requires Downlinks(s) && InHand(s, p.downlink) && key !in s.tcp && key !in s.udp
    requires t.answers == s.answers && t.handed == s.handed && t.history == s.history
    requires t.tcp == (if kind.Tcp? then s.tcp[key := p] else s.tcp)
             && t.udp == (if kind.Udp? then s.udp[key := p] else s.udp)
    ensures Downlinks(t)
  {
    hide AnswersOk, WaitingOk, Apart, Answered, Offered;
    WaitingGrow(s.tcp, s, key, p);
    WaitingGrow(s.udp, s, key, p);
  }

  lemma SourcesGrow(kind: FlowKind, m: Entries, history: set<Submission>, key: FlowKey, p: Pending)
    requires Sources(kind, m, history) && SourceOk(kind, key, p, history)
    ensures Sources(kind, m[key := p], history)
  {
    hide SourceOk;
  }

  lemma StartKeeps(limits: Limits, s: Registry, sub: Submission, permit: Option<nat>)
    requires Within(limits, s, permit) && Splittable(s, sub) && RightPermit(sub, permit)
    requires sub.Key() !in s.claims && sub.Key() !in s.rejections && sub in s.history && InHand(s, sub.downlink)
    requires |Inactive(s.claims, sub.session)| < limits.maxPending
    ensures Inv(limits, StartWaiting(s, sub, permit))
  {
    hide EntriesOk, ClaimsOk, LeasesOk, DistinctClaims, QuotaOk, TombstonesOk, Splittable;
    hide Permits, Downlinks, Sources, Links.TableOk, SourceOk, InHand;
    var key, t := sub.Key(), StartWaiting(s, sub, permit);
    var p := FirstHalf(sub, permit, Current(s.links, key.session), s.nextEpoch + 1);
    assert key !in s.tcp && key !in s.udp by {
      HalfOpenInactive(limits, s, key);
    }
    PermitInRange(limits, s, permit);
    StartBooks(limits, s, sub, permit);
    StartFields(s, sub, permit);
    FirstHalfUses(s, sub, permit);
    hide StartWaiting, FirstHalf, Books;
    DownlinksGrow(s, t, sub.via, key, p);
    SourcesGrow(sub.via, Pend(s, sub.via), s.history, key, p);
    if sub.via.Udp? {
      StorePermit(limits.maxUdpFlows, s.links.budgets, s.udp, s.leases, permit, key, p);
    }
  }

  lemma PermitInRange(limits: Limits, s: Registry, hand: Option<nat>)
    requires Permits(limits.maxUdpFlows, s.links.budgets, s.udp, s.leases, hand)
    ensures hand.Some? ==> hand.value < |s.links.budgets|
  {
  }

  lemma FirstHalfUses(s: Registry, sub: Submission, permit: Option<nat>)
    requires Splittable(s, sub) && RightPermit(sub, permit) && sub in s.history && InHand(s, sub.downlink)
    ensures var p := FirstHalf(sub, permit, Current(s.links, sub.session), s.nextEpoch + 1);
            p.permit == permit && InHand(s, p.downlink) && SourceOk(sub.via, sub.Key(), p, s.history)
  {
    var p := FirstHalf(sub, permit, Current(s.links, sub.session), s.nextEpoch + 1);
    hide Answered, Offered, NotWaiting;
    assert p.uplink.Some? ==> UplinkFrom(p, sub.via, sub.Key(), sub);
    assert p.downlink.Some? ==> DownlinkFrom(p, sub.via, sub.Key(), sub);
  }

  // ---------------------------------------------------------------------------------------------
  // A flow starts running.

  /** The flow `key` goes active with claim `c` and lease `l`, and leaves the half-open flows of `kind`. */
  function StartRunning(
    s: Registry, kind: FlowKind, key: FlowKey, c: FlowClaim, l: FlowLease, nextEpoch: nat, d: Stream): Registry
  {
    WithPend(s, kind, Pend(s, kind) - {key}).(
      claims := s.claims[key := c], leases := s.leases[c.epoch := l], nextEpoch := nextEpoch, handed := s.handed + {d})
  }

  /** `c` may replace the claim of `key`: it keeps epoch and token, or both are new. */
  predicate MayRun(s: Registry, key: FlowKey, c: FlowClaim, l: FlowLease, nextEpoch: nat) {
    && c.active && l.key == key && l.token == c.token
    && if key in s.claims
       then !s.claims[key].active && c.epoch == s.claims[key].epoch && c.token == s.claims[key].token
            && nextEpoch == s.nextEpoch
       else c.epoch == c.token == s.nextEpoch && nextEpoch == s.nextEpoch + 1
  }

  lemma EntriesRun(
    kind: FlowKind, m: Entries, claims: Claims, timers: set<Timer>, budgets: nat, key: FlowKey, c: FlowClaim)
    requires EntriesOk(kind, m, claims, timers, budgets)
    ensures EntriesOk(kind, m - {key}, claims[key := c], timers, budgets)
    ensures key !in m ==> EntriesOk(kind, m, claims[key := c], timers, budgets)
  {
    hide HalfOk;
  }

  lemma ClaimsRun(
    s: Registry, halfOpen: set<FlowKey>, rest: set<FlowKey>, key: FlowKey, c: FlowClaim, l: FlowLease, nextEpoch: nat,
    budgets: nat)
    requires ClaimsOk(s.claims, s.leases, halfOpen, s.nextEpoch) && LeasesOk(s.leases, s.claims, budgets)
    requires DistinctClaims(s.claims) && MayRun(s, key, c, l, nextEpoch) && halfOpen - {key} <= rest
    requires l.permit.Some? ==> l.permit.value < budgets
    ensures ClaimsOk(s.claims[key := c], s.leases[c.epoch := l], rest, nextEpoch)
    ensures LeasesOk(s.leases[c.epoch := l], s.claims[key := c], budgets)
    ensures DistinctClaims(s.claims[key := c])
    ensures c.epoch !in s.leases
  {
    assert c.epoch !in s.leases;
  }

  lemma QuotaRun(claims: Claims, rejections: map<FlowKey, Tombstone>, key: FlowKey, c: FlowClaim, maxPending: nat)
    requires QuotaOk(claims, maxPending) && TombstonesOk(rejections, claims.Keys, maxPending)
    requires c.active && key !in rejections
    ensures QuotaOk(claims[key := c], maxPending)
    ensures TombstonesOk(rejections, claims[key := c].Keys, maxPending)
  {
    var running := claims[key := c];
    forall x
      ensures |Inactive(running, x)| <= maxPending
    {
      SubsetSize(Inactive(running, x), Inactive(claims, x));
    }
  }

  lemma RunBooks(
    limits: Limits, s: Registry, kind: FlowKind, key: FlowKey, c: FlowClaim, l: FlowLease, nextEpoch: nat, d: Stream)
    requires Books(limits, s) && MayRun(s, key, c, l, nextEpoch) && key !in s.rejections
    requires key !in Pend(s, if kind.Tcp? then Udp else Tcp)
    requires l.permit.Some? ==> l.permit.value < |s.links.budgets|
    ensures Books(limits, StartRunning(s, kind, key, c, l, nextEpoch, d))
    ensures c.epoch !in s.leases
  {
    hide EntriesOk, ClaimsOk, LeasesOk, DistinctClaims, QuotaOk, TombstonesOk;
    var t := StartRunning(s, kind, key, c, l, nextEpoch, d);
    EntriesRun(Tcp, s.tcp, s.claims, s.timers, |s.links.budgets|, key, c);
    EntriesRun(Udp, s.udp, s.claims, s.timers, |s.links.budgets|, key, c);
    HalfOpenForget(s.tcp, s.udp, t.tcp, t.udp, key);
    ClaimsRun(s, s.tcp.Keys + s.udp.Keys, t.tcp.Keys + t.udp.Keys, key, c, l, nextEpoch, |s.links.budgets|);
    QuotaRun(s.claims, s.rejections, key, c, limits.maxPending);
  }

  /** The permit of a starting flow moves from the call or the half-open flow into the lease. */
  lemma MovePermit(
    limit: nat, budgets: seq<nat>, udp: Entries, leases: Leases, hand: Option<nat>, key: FlowKey, e: nat, l: FlowLease)
    requires Permits(limit, budgets, udp, leases, hand) && e !in leases
    requires var stored := if key in udp then udp[key].permit else None;
             (stored == None || hand == None) && l.permit == if stored.Some? then stored else hand
    ensures Permits(limit, budgets, udp - {key}, leases[e := l], None)
  {
    hide Count;
    var stored := if key in udp then udp[key].permit else None;
    forall b | 0 <= b < |budgets|
      ensures Count(udp - {key}, EntryHolds(b)) == Count(udp, EntryHolds(b)) - One(stored == Some(b))
      ensures Count(leases[e := l], LeaseHolds(b)) == Count(leases, LeaseHolds(b)) + One(l.permit == Some(b))
    {
      CountRemove(udp, key, EntryHolds(b));
      CountUpdate(leases, e, l, LeaseHolds(b));
      CountRemove(leases, e, LeaseHolds(b));
    }
  }

  lemma HandOut(s: Registry, t: Registry, d: Stream)
    requires Downlinks(s) && InHand(s, Some(d))
    requires t.tcp == s.tcp && t.udp == s.udp && t.answers == s.answers && t.history == s.history
    requires t.handed == s.handed + {d}
    ensures Downlinks(t)
  {
    hide Offered;
  }

  /** A flow whose last half `d` is in hand or waiting starts running, and the invariant holds. */
  lemma RunKeeps(
    limits: Limits, s: Registry, kind: FlowKind, key: FlowKey, c: FlowClaim, l: FlowLease, nextEpoch: nat, d: Stream,
    hand: Option<nat>)
    requires Within(limits, s, hand) && MayRun(s, key, c, l, nextEpoch) && key !in s.rejections
    requires key !in Pend(s, if kind.Tcp? then Udp else Tcp)
    requires InHand(s, Some(d)) || (key in Pend(s, kind) && Pend(s, kind)[key].downlink == Some(d))
    requires var stored := if key in s.udp then s.udp[key].permit else None;
             (stored == None || hand == None) && l.permit == if stored.Some? then stored else hand
    ensures Inv(limits, StartRunning(s, kind, key, c, l, nextEpoch, d))
  {
    hide EntriesOk, ClaimsOk, LeasesOk, DistinctClaims, QuotaOk, TombstonesOk, Permits, Downlinks, Sources,
      Links.TableOk;
    hide InHand, MayRun, SourceOk;
    var t := StartRunning(s, kind, key, c, l, nextEpoch, d);
    PermitInRange(limits, s, hand);
    if key in s.udp {
      EntryHasClaim(Udp, s.udp, s.claims, s.timers, |s.links.budgets|, key);
    }
    RunBooks(limits, s, kind, key, c, l, nextEpoch, d);
    hide Books;
    MovePermit(limits.maxUdpFlows, s.links.budgets, s.udp, s.leases, hand, key, c.epoch, l);
    assert kind.Tcp? ==> s.udp - {key} == s.udp;
    var u := WithPend(s, kind, Pend(s, kind) - {key});
    if key in Pend(s, kind) {
      DownlinksForget(s, u, kind, key);
      if InHand(s, Some(d)) {
        StillInHand(s, u, Some(d));
      }
    } else {
      assert Pend(s, kind) - {key} == Pend(s, kind);
      assert u == s;
    }
    HandOut(u, t, d);
  }
}
