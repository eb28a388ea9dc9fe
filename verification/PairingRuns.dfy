/** Every run of the pairing registry: all its calls, each one step. */
module PairingRuns {
  import opened Wrappers
  import opened Flow
  import opened Counting
  import opened Links
  import opened Pairing
  import opened PairingInvariant
  import opened PairingSteps
  import opened PairingSubmit

  /** One call into the registry. `now` is the clock it reads, hints are the hash order it meets. */
  datatype Event =
    | Submits(sub: Submission, now: int, hint: FlowKey)
    | RejectsSetup(key: FlowKey, code: FlowErrorCode, now: int, hint: FlowKey)
    | TimerFires(timer: Timer, now: int, hint: FlowKey)
    | ClosesUdp(key: FlowKey)
    | DropsLease(epoch: nat)
    | RegistersTcp(session: SessionId)
    | RegistersQuic(session: SessionId, now: int, hints: seq<Hint>)
    | DropsTcpGuard(session: SessionId)
    | DropsQuicGuard(session: SessionId, generation: nat)
    | Purges(session: SessionId, generation: nat, now: int, hints: seq<Hint>)
    | CancelsAll

  ghost function Step(limits: Limits, s: Registry, e: Event): Registry {
    match e
    case Submits(sub, now, hint) => Submit(limits, s, sub, now, hint).0
    case RejectsSetup(key, code, now, hint) => RejectSetup(limits, s, key, code, now, hint)
    case TimerFires(timer, now, hint) => Timeout(limits, s, timer, now, hint)
    case ClosesUdp(key) => CancelUdp(s, key)
    case DropsLease(epoch) => DropLease(s, epoch)
    case RegistersTcp(x) => s.(links := RegisterTcpLink(s.links, x, limits.maxUdpFlows))
    case RegistersQuic(x, now, hints) => RegisterQuic(limits, s, x, now, hints)
    case DropsTcpGuard(x) => s.(links := DropTcpLink(s.links, x))
    case DropsQuicGuard(x, g) => DropQuicGuard(s, x, g)
    case Purges(x, g, now, hints) => Purge(limits, s, x, g, now, hints)
    case CancelsAll => CancelAll(s)
  }

  /** What the callers guarantee: decoded headers, a downlink of its own per submission, rejection codes of
      the connection handlers, a CLOSE that names no half-open TCP flow, guards dropped once. */
  ghost predicate Enabled(s: Registry, e: Event) {
    match e
    case Submits(sub, _, _) => sub.header.Valid() && NewDownlink(s, sub)
    case RejectsSetup(_, code, _, _) => code != InternalError
    case ClosesUdp(key) => key !in s.tcp
    case DropsTcpGuard(x) => x in s.links.tcpGuards
    case DropsQuicGuard(x, g) => g in s.links.quicGuards && s.links.quicGuards[g] == x
    case _ => true
  }

  // ---------------------------------------------------------------------------------------------
  // Timers.

  lemma EntriesWithoutTimer(kind: FlowKind, m: Entries, claims: Claims, timers: set<Timer>, budgets: nat, t: Timer)
    requires EntriesOk(kind, m, claims, timers, budgets)
    requires t.kind == kind && t.key in m ==> m[t.key].epoch != t.epoch
    ensures EntriesOk(kind, m, claims, timers - {t}, budgets)
  {
    hide HalfOk;
  }

  lemma TimerGone(limits: Limits, s: Registry, t: Timer)
    requires Inv(limits, s)
    requires t.key in Pend(s, t.kind) ==> Pend(s, t.kind)[t.key].epoch != t.epoch
    ensures Inv(limits, s.(timers := s.timers - {t}))
  {
    hide EntriesOk, ClaimsOk, LeasesOk, DistinctClaims, QuotaOk, TombstonesOk, Permits, Links.TableOk, Sources;
    hide AnswersOk, WaitingOk, Apart, ApartFrom;
    EntriesWithoutTimer(Tcp, s.tcp, s.claims, s.timers, |s.links.budgets|, t);
    EntriesWithoutTimer(Udp, s.udp, s.claims, s.timers, |s.links.budgets|, t);
  }

  lemma TimerDrops(limits: Limits, s: Registry, t: Timer, now: int, hint: FlowKey)
    requires t.key in Pend(s, t.kind) && Pend(s, t.kind)[t.key].epoch == t.epoch
    requires Pend(s, t.kind)[t.key].uplink.Some? != Pend(s, t.kind)[t.key].downlink.Some?
    ensures var s1, d := DropEntry(s.(timers := s.timers - {t}), t.kind, t.key), Pend(s, t.kind)[t.key].downlink;
            Timeout(limits, s, t, now, hint)
            == if d.None? then RejectSetup(limits, s1, t.key, PairTimeout, now, hint)
               else AbandonClaim(WriteResult(s1, d, PairTimeout), t.key, t.epoch)
  {
    hide DropEntry, RejectSetup, WriteResult, AbandonClaim;
  }

  /** A timer that finds its flow forgets it and reports the timeout to its downlink or a tombstone. */
  lemma TimeoutUnfolds(limits: Limits, s: Registry, t: Timer, now: int, hint: FlowKey)
    requires Books(limits, s) && t.key in Pend(s, t.kind) && Pend(s, t.kind)[t.key].epoch == t.epoch
    ensures var u := Forget(s, t.kind, t.key).(timers := s.timers - {t});
            var d := Pend(s, t.kind)[t.key].downlink;
            Timeout(limits, s, t, now, hint)
            == if d.Some? then WriteResult(u, d, PairTimeout)
               else AddTombstone(limits, u, t.key, PairTimeout, now, hint)
  {
    OneKind(limits, s, t.key);
    EntryHasClaim(t.kind, Pend(s, t.kind), s.claims, s.timers, |s.links.budgets|, t.key);
    hide Books, AddTombstone, DropEntry, RejectSetup, Forget, WriteResult, AbandonClaim;
    var p := Pend(s, t.kind)[t.key];
    TimerDrops(limits, s, t, now, hint);
    DropEntryFrame(s, s.timers - {t}, t.kind, t.key);
    hide Timeout, Pend;
    var s1 := DropEntry(s.(timers := s.timers - {t}), t.kind, t.key);
    if p.downlink.None? {
      RejectOrphan(limits, s1, t.key, PairTimeout, now, hint);
    } else {
      AbandonAfterWrite(s1, p.downlink, PairTimeout, t.key, t.epoch);
    }
  }

  lemma AbandonAfterWrite(s: Registry, d: Option<Stream>, code: FlowErrorCode, key: FlowKey, epoch: nat)
    requires key in s.claims && !s.claims[key].active && s.claims[key].epoch == epoch
    ensures AbandonClaim(WriteResult(s, d, code), key, epoch) == WriteResult(s.(claims := s.claims - {key}), d, code)
  {
  }

  lemma DropEntryFrame(s: Registry, timers: set<Timer>, kind: FlowKind, key: FlowKey)
    requires key in Pend(s, kind)
    ensures var s1 := DropEntry(s.(timers := timers), kind, key);
            && s1.(claims := s1.claims - {key}) == Forget(s, kind, key).(timers := timers)
            && s1.claims == s.claims && key !in Pend(s1, kind)
            && (key !in s.tcp || key !in s.udp ==> key !in s1.tcp && key !in s1.udp)
  {
    ReleaseFrame(WithPend(s, kind, Pend(s, kind) - {key}), Pend(s, kind)[key].permit);
    ReleaseFrame(WithPend(s.(timers := timers), kind, Pend(s, kind) - {key}), Pend(s, kind)[key].permit);
    ReleaseBudgets(WithPend(s, kind, Pend(s, kind) - {key}),
      WithPend(s.(timers := timers), kind, Pend(s, kind) - {key}),
                   Pend(s, kind)[key].permit);
    hide Release;
  }

  lemma RejectOrphan(limits: Limits, s: Registry, key: FlowKey, code: FlowErrorCode, now: int, hint: FlowKey)
    requires key !in s.tcp && key !in s.udp && (key in s.claims ==> !s.claims[key].active)
    ensures RejectSetup(limits, s, key, code, now, hint)
         == AddTombstone(limits, s.(claims := s.claims - {key}), key, code, now, hint)
  {
  }

  lemma ForgetTimed(limits: Limits, s: Registry, t: Timer)
    requires Inv(limits, s) && t.key in Pend(s, t.kind)
    ensures var u := Forget(s, t.kind, t.key).(timers := s.timers - {t});
            Inv(limits, u) && InHand(u, None) && InHand(u, Pend(s, t.kind)[t.key].downlink) && t.key !in u.claims
  {
    ForgetKeeps(limits, s, t.kind, t.key, None, None);
    ForgetFields(s, t.kind, t.key);
    var f, d := Forget(s, t.kind, t.key), Pend(s, t.kind)[t.key].downlink;
    hide Within, Forget;
    TimerGone(limits, f, t);
    StillInHand(f, f.(timers := s.timers - {t}), d);
  }

  lemma TimeoutKeeps(limits: Limits, s: Registry, t: Timer, now: int, hint: FlowKey)
    requires limits.Valid() && Inv(limits, s)
    ensures Inv(limits, Timeout(limits, s, t, now, hint))
  {
    if t.key in Pend(s, t.kind) && Pend(s, t.kind)[t.key].epoch == t.epoch {
      BooksHold(limits, s, None);
      hide Within, Books, InHand, Forget, AddTombstone;
      TimeoutUnfolds(limits, s, t, now, hint);
      hide Timeout;
      ForgetTimed(limits, s, t);
      var d := Pend(s, t.kind)[t.key].downlink;
      var u := Forget(s, t.kind, t.key).(timers := s.timers - {t});
      if d.Some? {
        WriteKeeps(limits, u, None, d, PairTimeout);
      } else {
        TombstoneKeeps(limits, u, t.key, PairTimeout, now, hint, None, None);
      }
    } else {
      hide Within;
      TimerGone(limits, s, t);
    }
  }

  // ---------------------------------------------------------------------------------------------
  // CLOSE.

  lemma CloseUdpEntry(limits: Limits, s: Registry, key: FlowKey)
    requires Books(limits, s) && key in s.udp
    ensures CancelUdp(s, key) == Forget(s, Udp, key)
  {
    EntryHasClaim(Udp, s.udp, s.claims, s.timers, |s.links.budgets|, key);
    hide Books, HalfOk;
    ReleaseFrame(s.(udp := s.udp - {key}), s.udp[key].permit);
    hide Release;
  }

  lemma CancelTokens(limits: Limits, s: Registry, tokens: set<nat>)
    requires Inv(limits, s)
    ensures Inv(limits, s.(cancelled := s.cancelled + tokens))
  {
    hide EntriesOk, ClaimsOk, LeasesOk, DistinctClaims, QuotaOk, TombstonesOk, Permits, Links.TableOk, Sources;
    hide AnswersOk, WaitingOk, Apart, ApartFrom;
  }

  /** `cancel_udp` does not look at the kind of the claim it abandons. Bookkeeping survives a CLOSE exactly
      when its flow id is not that of a half-open TCP flow. */
  lemma CloseKeepsIffNotTcp(limits: Limits, s: Registry, key: FlowKey)
    requires Inv(limits, s)
    ensures Inv(limits, CancelUdp(s, key)) <==> key !in s.tcp
  {
    BooksHold(limits, s, None);
    hide Within, Books;
    OneKind(limits, s, key);
    HalfOpenInactive(limits, s, key);
    var t := CancelUdp(s, key);
    if key in s.udp {
      CloseUdpEntry(limits, s, key);
      hide CancelUdp;
      ForgetKeeps(limits, s, Udp, key, None, None);
    } else if key in s.tcp {
      CloseBreaksTcp(limits, s, key);
      hide CancelUdp;
      if Inv(limits, t) {
        BooksHold(limits, t, None);
      }
    } else if key in s.claims {
      CloseRunning(limits, s, key);
    } else {
      assert t == s;
    }
  }

  lemma CloseRunning(limits: Limits, s: Registry, key: FlowKey)
    requires Inv(limits, s) && key in s.claims && s.claims[key].active && key !in s.udp
    ensures Inv(limits, CancelUdp(s, key))
  {
    hide Within;
    CancelTokens(limits, s, {s.claims[key].token});
    assert CancelUdp(s, key) == s.(cancelled := s.cancelled + {s.claims[key].token});
  }

  lemma CloseBreaksTcp(limits: Limits, s: Registry, key: FlowKey)
    requires Books(limits, s) && key in s.tcp
    ensures !Books(limits, CancelUdp(s, key))
  {
    OneKind(limits, s, key);
    HalfOpenInactive(limits, s, key);
    var t := CancelUdp(s, key);
    assert t == s.(claims := s.claims - {key});
    assert key in t.tcp && !EntryOk(Tcp, key, t.tcp[key], t.claims, t.timers, |t.links.budgets|);
    hide ClaimsOk, LeasesOk, DistinctClaims, QuotaOk, TombstonesOk, EntryOk;
  }

  // ---------------------------------------------------------------------------------------------
  // Leases.

  lemma LeaseDrop(limits: Limits, s: Registry, e: nat)
    requires Books(limits, s) && e in s.leases
    ensures var key := s.leases[e].key;
            Books(limits, s.(leases := s.leases - {e}, claims := s.claims - {key}))
    ensures FinishFlow(s.(leases := s.leases - {e}), s.leases[e].key, e)
         == s.(leases := s.leases - {e}, claims := s.claims - {s.leases[e].key})
    ensures s.leases[e].permit.Some? ==> s.leases[e].permit.value < |s.links.budgets|
  {
    var key := s.leases[e].key;
    HalfOpenInactive(limits, s, key);
    assert key !in s.tcp && key !in s.udp;
    EntriesForget(Tcp, s.tcp, s.claims, s.timers, |s.links.budgets|, key);
    EntriesForget(Udp, s.udp, s.claims, s.timers, |s.links.budgets|, key);
    QuotaForget(s.claims, s.rejections, key, limits.maxPending);
    ClaimsDrop(s, e, s.tcp.Keys + s.udp.Keys, |s.links.budgets|);
    hide EntriesOk, ClaimsOk, DistinctClaims, QuotaOk, TombstonesOk;
  }

  lemma ClaimsDrop(s: Registry, e: nat, halfOpen: set<FlowKey>, budgets: nat)
    requires ClaimsOk(s.claims, s.leases, halfOpen, s.nextEpoch) && LeasesOk(s.leases, s.claims, budgets)
    requires DistinctClaims(s.claims) && e in s.leases
    ensures ClaimsOk(s.claims - {s.leases[e].key}, s.leases - {e}, halfOpen, s.nextEpoch)
    ensures LeasesOk(s.leases - {e}, s.claims - {s.leases[e].key}, budgets)
  {
  }

  lemma LeasePermit(limit: nat, budgets: seq<nat>, udp: Entries, leases: Leases, e: nat)
    requires Permits(limit, budgets, udp, leases, None) && e in leases
    requires leases[e].permit.Some? ==> leases[e].permit.value < |budgets|
    ensures Permits(limit, budgets, udp, leases - {e}, leases[e].permit)
  {
    hide Count;
    forall b | 0 <= b < |budgets|
      ensures Count(leases - {e}, LeaseHolds(b)) == Count(leases, LeaseHolds(b)) - One(leases[e].permit == Some(b))
    {
      CountRemove(leases, e, LeaseHolds(b));
    }
  }

  lemma DropLeaseKeeps(limits: Limits, s: Registry, e: nat)
    requires Inv(limits, s)
    ensures Inv(limits, DropLease(s, e))
  {
    if e in s.leases {
      BooksHold(limits, s, None);
      LeaseDrop(limits, s, e);
      hide Books;
      LeasePermit(limits.maxUdpFlows, s.links.budgets, s.udp, s.leases, e);
      hide Permits, FinishFlow, Links.TableOk, Sources, AnswersOk, WaitingOk, Apart, ApartFrom;
      var t := s.(leases := s.leases - {e}, claims := s.claims - {s.leases[e].key});
      assert Within(limits, t, s.leases[e].permit);
      hide Within, Release;
      ReleaseKeeps(limits, t, s.leases[e].permit);
    }
  }

  lemma LeaseOwner(limits: Limits, s: Registry, e: nat)
    requires Books(limits, s) && e in s.leases
    ensures var k := s.leases[e].key;
            && k in s.claims && s.claims[k].active && s.claims[k].epoch == e
            && forall j :: j in s.claims && j != k ==> s.claims[j].epoch != e
  {
    hide EntriesOk, ClaimsOk, QuotaOk, TombstonesOk;
  }

  /** Dropping a lease ends exactly the running flow it was given for, found by its epoch, and gives its permit
      back; a lease that is gone already changes nothing. */
  lemma LeaseEndsItsFlow(limits: Limits, s: Registry, e: nat)
    requires Inv(limits, s)
    ensures e !in s.leases ==> DropLease(s, e) == s
    ensures e in s.leases ==>
              var t, l := DropLease(s, e), s.leases[e];
              && l.key in s.claims && s.claims[l.key].active && s.claims[l.key].epoch == e
              && (forall k :: k in s.claims && k != l.key ==> s.claims[k].epoch != e)
              && t == s.(leases := s.leases - {e}, claims := s.claims - {l.key}, links := t.links)
              && t.links == s.links.(budgets := t.links.budgets)
              && if l.permit.None? then t.links == s.links
                 else
                   && l.permit.value < |s.links.budgets|
                   && t.links.budgets == s.links.budgets[l.permit.value := s.links.budgets[l.permit.value] + 1]
  {
    hide Within, Books, FinishFlow;
    if e in s.leases {
      BooksHold(limits, s, None);
      LeaseOwner(limits, s, e);
      LeaseDrop(limits, s, e);
    }
  }

  // ---------------------------------------------------------------------------------------------
  // Links.

  lemma MoreBudgets(limits: Limits, s: Registry, budgets: nat)
    requires Books(limits, s) && |s.links.budgets| <= budgets
    ensures EntriesOk(Tcp, s.tcp, s.claims, s.timers, budgets) && EntriesOk(Udp, s.udp, s.claims, s.timers, budgets)
    ensures LeasesOk(s.leases, s.claims, budgets)
  {
    hide ClaimsOk, DistinctClaims, QuotaOk, TombstonesOk, HalfOk;
  }

  lemma NoHolders(limits: Limits, s: Registry, b: nat)
    requires Books(limits, s) && b >= |s.links.budgets|
    ensures Count(s.udp, EntryHolds(b)) == 0 && Count(s.leases, LeaseHolds(b)) == 0
  {
    hide ClaimsOk, DistinctClaims, QuotaOk, TombstonesOk, HalfOk;
    assert Matching(s.udp, EntryHolds(b)) == {};
    assert Matching(s.leases, LeaseHolds(b)) == {};
  }

  lemma NewBudget(limits: Limits, s: Registry)
    requires Books(limits, s) && Permits(limits.maxUdpFlows, s.links.budgets, s.udp, s.leases, None)
    ensures Permits(limits.maxUdpFlows, s.links.budgets + [limits.maxUdpFlows], s.udp, s.leases, None)
  {
    NoHolders(limits, s, |s.links.budgets|);
    hide Books, Count;
  }

  /** A new link table with the same budgets, or with one full budget more. */
  lemma LinksKeep(limits: Limits, s: Registry, links: LinkTable)
    requires Inv(limits, s) && Links.TableOk(links)
    requires links.budgets == s.links.budgets || links.budgets == s.links.budgets + [limits.maxUdpFlows]
    ensures Inv(limits, s.(links := links))
  {
    BooksHold(limits, s, None);
    MoreBudgets(limits, s, |links.budgets|);
    if links.budgets != s.links.budgets {
      NewBudget(limits, s);
    }
    hide EntriesOk, ClaimsOk, LeasesOk, DistinctClaims, QuotaOk, TombstonesOk, Permits, Links.TableOk, Sources;
    hide AnswersOk, WaitingOk, Apart, ApartFrom;
  }

  lemma {:induction false} RejectAllKeeps(limits: Limits, s: Registry, keys: set<FlowKey>, now: int, hints: seq<Hint>)
    requires limits.Valid() && Inv(limits, s)
    ensures Inv(limits, RejectAll(limits, s, keys, now, hints))
    decreases |keys|
  {
    hide Within;
    if keys != {} {
      var k := NextKey(keys, hints);
      var hint := if hints == [] then k else hints[0].victim;
      RejectKeeps(limits, s, k, SessionReplaced, now, hint, None, None);
      hide RejectSetup;
      RejectAllKeeps(limits, RejectSetup(limits, s, k, SessionReplaced, now, hint), keys - {k}, now,
                     if hints == [] then [] else hints[1..]);
    }
  }

  lemma RegisterQuicKeeps(limits: Limits, s: Registry, x: SessionId, now: int, hints: seq<Hint>)
    requires limits.Valid() && Inv(limits, s)
    ensures Inv(limits, RegisterQuic(limits, s, x, now, hints))
  {
    var (links, previous) := SwapQuic(s.links, x, limits.maxUdpFlows);
    SwapQuicKeepsInv(s.links, x, limits.maxUdpFlows);
    LinksKeep(limits, s, links);
    hide Within, SwapQuic;
    var s1 := s.(links := links);
    if previous.Some? {
      var g := previous.value;
      CancelTokens(limits, s1, set k | k in s1.claims && OwnedBy(k, s1.claims[k], x, g) :: s1.claims[k].token);
      RejectAllKeeps(limits, CancelPass(s1, x, g), Stale(CancelPass(s1, x, g), x, g), now, hints);
    }
  }

  lemma DropQuicGuardKeeps(limits: Limits, s: Registry, x: SessionId, g: nat)
    requires Inv(limits, s) && g in s.links.quicGuards && s.links.quicGuards[g] == x
    ensures Inv(limits, DropQuicGuard(s, x, g))
  {
    DropQuicKeepsInv(s.links, x, g);
    LinksKeep(limits, s, DropQuicLink(s.links, x, g));
    var s1 := s.(links := DropQuicLink(s.links, x, g));
    hide Within, DropQuicLink;
    CancelTokens(limits, s1, set k | k in s1.claims && OwnedBy(k, s1.claims[k], x, g) :: s1.claims[k].token);
  }

  // ---------------------------------------------------------------------------------------------
  // Shutdown.

  lemma ActiveOnly(
    claims: Claims, leases: Leases, halfOpen: set<FlowKey>, nextEpoch: nat, budgets: nat, maxPending: nat)
    requires ClaimsOk(claims, leases, halfOpen, nextEpoch) && LeasesOk(leases, claims, budgets)
             && DistinctClaims(claims)
    ensures ClaimsOk(ActiveClaims(claims), leases, {}, nextEpoch) && LeasesOk(leases, ActiveClaims(claims), budgets)
    ensures DistinctClaims(ActiveClaims(claims)) && QuotaOk(ActiveClaims(claims), maxPending)
  {
    assert forall x :: Inactive(ActiveClaims(claims), x) == {};
  }

  lemma NothingPending(claims: Claims, timers: set<Timer>, budgets: nat, maxPending: nat)
    ensures EntriesOk(Tcp, map[], claims, timers, budgets) && EntriesOk(Udp, map[], claims, timers, budgets)
    ensures TombstonesOk(map[], claims.Keys, maxPending)
    ensures var none: Entries := map[]; none.Keys + none.Keys == {}
  {
    var none: map<FlowKey, Tombstone> := map[];
    assert none.Keys == {};
  }

  lemma RefundedSize(s: Registry)
    ensures |Refunded(s)| == |s.links.budgets|
  {
  }

  lemma CancelAllBooks(limits: Limits, s: Registry)
    requires Books(limits, s)
    ensures Books(limits, CancelAll(s))
  {
    hide ActiveClaims, AllTokens, ClaimsOk, LeasesOk, DistinctClaims, QuotaOk, Refunded, EntriesOk, TombstonesOk;
    ActiveOnly(s.claims, s.leases, s.tcp.Keys + s.udp.Keys, s.nextEpoch, |s.links.budgets|, limits.maxPending);
    NothingPending(ActiveClaims(s.claims), s.timers, |s.links.budgets|, limits.maxPending);
    RefundedSize(s);
  }

  lemma NoTcpPermits(limits: Limits, s: Registry, b: nat)
    requires Books(limits, s)
    ensures HeldPermits(s.tcp, b) == {}
  {
    hide ClaimsOk, LeasesOk, DistinctClaims, QuotaOk, TombstonesOk;
  }

  lemma CancelAllPermits(limits: Limits, s: Registry)
    requires Books(limits, s) && Permits(limits.maxUdpFlows, s.links.budgets, s.udp, s.leases, None)
    ensures Permits(limits.maxUdpFlows, Refunded(s), map[], s.leases, None)
  {
    hide Books, Count;
    forall b | 0 <= b < |s.links.budgets|
      ensures Refunded(s)[b] == s.links.budgets[b] + Count(s.udp, EntryHolds(b))
      ensures Count(map[], EntryHolds(b)) == 0
    {
      NoTcpPermits(limits, s, b);
      HeldCount(s.udp, b);
    }
  }

  lemma HeldCount(m: Entries, b: nat)
    ensures |HeldPermits(m, b)| == Count(m, EntryHolds(b))
    ensures Count(map[], EntryHolds(b)) == 0
  {
    assert HeldPermits(m, b) == Matching(m, EntryHolds(b));
    assert Matching(map[], EntryHolds(b)) == {};
  }

  lemma CancelAllDownlinks(s: Registry)
    requires Downlinks(s)
    ensures Downlinks(CancelAll(s)) && Sources(Tcp, map[], s.history) && Sources(Udp, map[], s.history)
  {
    hide AnswersOk, Refunded, ActiveClaims, AllTokens;
  }

  lemma CancelAllKeeps(limits: Limits, s: Registry)
    requires Inv(limits, s)
    ensures Inv(limits, CancelAll(s))
  {
    BooksHold(limits, s, None);
    CancelAllBooks(limits, s);
    hide Books, Permits, Links.TableOk, Downlinks, Sources;
    CancelAllPermits(limits, s);
    CancelAllDownlinks(s);
    LinksIgnoreBudgets(s.links, Refunded(s));
    hide Refunded, ActiveClaims, AllTokens;
  }

  // ---------------------------------------------------------------------------------------------
  // Runs.

  lemma LinksOf(limits: Limits, s: Registry)
    requires Inv(limits, s)
    ensures Links.TableOk(s.links)
  {
    hide Books, Permits, Downlinks, Sources;
  }

  lemma TcpBudgets(l: LinkTable, x: SessionId, maxUdpFlows: nat)
    ensures var r := RegisterTcpLink(l, x, maxUdpFlows);
            r.budgets == l.budgets || r.budgets == l.budgets + [maxUdpFlows]
    ensures DropTcpLink(l, x).budgets == l.budgets
  {
  }

  lemma RegisterTcpKeeps(limits: Limits, s: Registry, x: SessionId)
    requires Inv(limits, s)
    ensures Inv(limits, s.(links := RegisterTcpLink(s.links, x, limits.maxUdpFlows)))
  {
    hide Within, RegisterTcpLink, Links.TableOk;
    LinksOf(limits, s);
    RegisterTcpKeepsInv(s.links, x, limits.maxUdpFlows);
    TcpBudgets(s.links, x, limits.maxUdpFlows);
    LinksKeep(limits, s, RegisterTcpLink(s.links, x, limits.maxUdpFlows));
  }

  lemma DropTcpGuardKeeps(limits: Limits, s: Registry, x: SessionId)
    requires Inv(limits, s) && x in s.links.tcpGuards
    ensures Inv(limits, s.(links := DropTcpLink(s.links, x)))
  {
    hide Within, DropTcpLink, Links.TableOk;
    LinksOf(limits, s);
    DropTcpKeepsInv(s.links, x);
    TcpBudgets(s.links, x, limits.maxUdpFlows);
    LinksKeep(limits, s, DropTcpLink(s.links, x));
  }

  lemma StepKeeps(limits: Limits, s: Registry, e: Event)
    requires limits.Valid() && Inv(limits, s) && Enabled(s, e)
    ensures Inv(limits, Step(limits, s, e))
  {
    hide Within, Submit, NewDownlink, RejectSetup, Timeout, CancelUdp, DropLease, RegisterTcpLink, RegisterQuic,
      DropTcpLink, DropQuicGuard, RejectAll, CancelAll;
    match e
    case Submits(sub, now, hint) => SubmitKeeps(limits, s, sub, now, hint);
    case RejectsSetup(key, code, now, hint) => RejectKeeps(limits, s, key, code, now, hint, None, None);
    case TimerFires(timer, now, hint) => TimeoutKeeps(limits, s, timer, now, hint);
    case ClosesUdp(key) => CloseKeepsIffNotTcp(limits, s, key);
    case DropsLease(epoch) => DropLeaseKeeps(limits, s, epoch);
    case RegistersTcp(x) => RegisterTcpKeeps(limits, s, x);
    case RegistersQuic(x, now, hints) => RegisterQuicKeeps(limits, s, x, now, hints);
    case DropsTcpGuard(x) => DropTcpGuardKeeps(limits, s, x);
    case DropsQuicGuard(x, g) => DropQuicGuardKeeps(limits, s, x, g);
    case Purges(x, g, now, hints) => RejectAllKeeps(limits, s, Stale(s, x, g), now, hints);
    case CancelsAll => CancelAllKeeps(limits, s);
  }

  /** The registry after a whole run. */
  ghost function After(limits: Limits, run: seq<Event>): Registry {
    if run == [] then INITIAL else Step(limits, After(limits, run[..|run| - 1]), run[|run| - 1])
  }

  /** Every event of the run was enabled where it happened. */
  ghost predicate LegalRun(limits: Limits, run: seq<Event>) {
    run == [] || (LegalRun(limits, run[..|run| - 1]) && Enabled(After(limits, run[..|run| - 1]), run[|run| - 1]))
  }

  lemma InitialInv(limits: Limits)
    ensures Inv(limits, INITIAL)
  {
    InvEmpty();
    assert forall x :: Inactive(INITIAL.claims, x) == {};
    assert INITIAL.rejections.Keys == {};
  }

  /** Bookkeeping, permit conservation, single answers and link accounting after every run of calls. */
  lemma {:induction false} RunKeepsInvariant(limits: Limits, run: seq<Event>)
    requires limits.Valid() && LegalRun(limits, run)
    ensures Inv(limits, After(limits, run))
  {
    if run == [] {
      InitialInv(limits);
    } else {
      hide Within, Step;
      RunKeepsInvariant(limits, run[..|run| - 1]);
      StepKeeps(limits, After(limits, run[..|run| - 1]), run[|run| - 1]);
    }
  }
}
