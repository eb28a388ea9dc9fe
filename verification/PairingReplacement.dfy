/** Replacing a QUIC carrier: nothing of the displaced generation is left behind, and everyone is told. */
module PairingReplacement {
  import opened Wrappers
  import opened Flow
  import opened Counting
  import opened Links
  import opened Pairing
  import opened PairingInvariant
  import opened PairingSteps
  import opened PairingSubmit
  import opened PairingRuns

  /** The tombstones that last until `when` or longer. */
  function Late(m: map<FlowKey, Tombstone>, when: int): set<FlowKey> {
    set k | k in m && m[k].expires >= when
  }

  /** The tombstones of `keys` all say SESSION_REPLACED until `when`, and every other one but the `late` ones
      expires sooner. */
  ghost predicate BuriedNow(m: map<FlowKey, Tombstone>, keys: set<FlowKey>, late: set<FlowKey>, when: int) {
    && (forall k :: k in keys ==> k in m && m[k] == Tombstone(SessionReplaced, when))
    && (forall k :: k in m && k !in keys && k !in late ==> m[k].expires < when)
  }

  /** A full table gives up an older tombstone, never one of this purge. */
  lemma BuryKeepsNew(
    limits: Limits, m: map<FlowKey, Tombstone>, keys: set<FlowKey>, late: set<FlowKey>, key: FlowKey, now: int,
    hint: FlowKey)
    requires limits.Valid() && BuriedNow(m, keys, late, now + limits.timeout) && key !in m
    requires |keys| + |late| < limits.maxPending
    ensures BuriedNow(Bury(limits, m, key, SessionReplaced, now, hint), keys + {key}, late, now + limits.timeout)
  {
    var live := Live(m, now);
    if key !in live && |live| >= limits.maxPending && live != map[] {
      var v := Victim(live, hint);
      if forall k :: k in live ==> k in keys + late {
        SubsetSize(live.Keys, keys + late);
        assert false;
      }
      var older :| older in live && older !in keys + late;
      assert live[v].expires <= live[older].expires;
    }
  }

  /** What rejecting one half-open flow changes. */
  lemma NoTombstone(limits: Limits, s: Registry, key: FlowKey)
    requires Books(limits, s) && key in s.claims
    ensures key !in s.rejections
  {
    assert TombstonesOk(s.rejections, s.claims.Keys, limits.maxPending);
    hide Books;
  }

  lemma PendEither(s: Registry, kind: FlowKind, key: FlowKey)
    requires key in Pend(s, kind) && (key !in s.tcp || key !in s.udp)
    ensures key in s.tcp || key in s.udp
    ensures key !in Pend(s, if kind.Tcp? then Udp else Tcp)
  {
  }

  lemma ForgetBoth(s: Registry, kind: FlowKind, key: FlowKey)
    requires key in Pend(s, kind) && key !in Pend(s, if kind.Tcp? then Udp else Tcp)
    ensures var t := Forget(s, kind, key);
            && t.tcp == s.tcp - {key} && t.udp == s.udp - {key} && t.claims == s.claims - {key}
            && t.cancelled == s.cancelled && t.links.counts == s.links.counts
            && t.answers == s.answers && t.rejections == s.rejections
  {
    ForgetFields(s, kind, key);
    hide Forget, Release;
    if kind.Tcp? {
      MinusAbsent(s.udp, key);
    } else {
      MinusAbsent(s.tcp, key);
    }
  }

  lemma RejectEffect(limits: Limits, s: Registry, kind: FlowKind, key: FlowKey, now: int, hint: FlowKey)
    requires Inv(limits, s) && key in Pend(s, kind)
    ensures var r, d := RejectSetup(limits, s, key, SessionReplaced, now, hint), Pend(s, kind)[key].downlink;
            && r.tcp == s.tcp - {key} && r.udp == s.udp - {key}
            && r.claims == s.claims - {key} && r.cancelled == s.cancelled && r.links.counts == s.links.counts
            && r.answers == (if d.Some? then s.answers + [Answer(d.value, SessionReplaced)] else s.answers)
            && r.rejections == (if d.Some? then s.rejections
               else Bury(limits, s.rejections, key, SessionReplaced, now, hint))
            && key !in s.rejections
  {
    BooksHold(limits, s, None);
    hide Within, Books, Bury, RejectSetup, Forget, Pend;
    OneKind(limits, s, key);
    HalfOpenInactive(limits, s, key);
    PendEither(s, kind, key);
    NoTombstone(limits, s, key);
    RejectHalfOpen(limits, s, kind, key, SessionReplaced, now, hint);
    ForgetBoth(s, kind, key);
  }

  /** After rejecting `keys`: those flows are gone, all others untouched, and each was answered. */
  ghost predicate Rejected(s: Registry, t: Registry, keys: set<FlowKey>) {
    && t.tcp == s.tcp - keys && t.udp == s.udp - keys && t.claims == s.claims - keys
    && t.cancelled == s.cancelled && t.links.counts == s.links.counts
    && s.answers <= t.answers
    && (forall k, d :: k in keys && DownlinkOf(s, k) == Some(d) ==> Answer(d, SessionReplaced) in t.answers)
  }

  function DownlinkOf(s: Registry, key: FlowKey): Option<Stream> {
    if key in s.tcp then s.tcp[key].downlink else if key in s.udp then s.udp[key].downlink else None
  }

  lemma RejectedFields(s: Registry, r: Registry, key: FlowKey)
    requires r.tcp == s.tcp - {key} && r.udp == s.udp - {key} && r.claims == s.claims - {key}
    requires r.cancelled == s.cancelled && r.links.counts == s.links.counts
    requires var d := DownlinkOf(s, key);
             r.answers == if d.Some? then s.answers + [Answer(d.value, SessionReplaced)] else s.answers
    ensures Rejected(s, r, {key})
  {
    if DownlinkOf(s, key).Some? {
      assert r.answers[|s.answers|] == Answer(DownlinkOf(s, key).value, SessionReplaced);
    }
  }

  lemma RejectedOne(limits: Limits, s: Registry, kind: FlowKind, key: FlowKey, now: int, hint: FlowKey)
    requires Inv(limits, s) && key in Pend(s, kind)
    ensures Rejected(s, RejectSetup(limits, s, key, SessionReplaced, now, hint), {key})
  {
    BooksHold(limits, s, None);
    OneKind(limits, s, key);
    hide Within, Books, RejectSetup, Bury, Rejected;
    RejectEffect(limits, s, kind, key, now, hint);
    RejectedFields(s, RejectSetup(limits, s, key, SessionReplaced, now, hint), key);
  }

  lemma RejectedThen(s: Registry, t: Registry, u: Registry, key: FlowKey, keys: set<FlowKey>)
    requires Rejected(s, t, {key}) && Rejected(t, u, keys - {key}) && key in keys
    ensures Rejected(s, u, keys)
  {
    assert s.tcp - {key} - (keys - {key}) == s.tcp - keys;
    assert s.udp - {key} - (keys - {key}) == s.udp - keys;
    assert s.claims - {key} - (keys - {key}) == s.claims - keys;
    forall k, d | k in keys && DownlinkOf(s, k) == Some(d)
      ensures Answer(d, SessionReplaced) in u.answers
    {
      if k != key {
        assert DownlinkOf(t, k) == DownlinkOf(s, k);
      }
    }
  }

  lemma {:induction false} RejectAllEffect(limits: Limits, s: Registry, keys: set<FlowKey>, now: int, hints: seq<Hint>)
    requires limits.Valid() && Inv(limits, s) && keys <= s.tcp.Keys + s.udp.Keys
    ensures Rejected(s, RejectAll(limits, s, keys, now, hints), keys)
    decreases |keys|
  {
    hide Within;
    if keys == {} {
      assert s.tcp - {} == s.tcp && s.udp - {} == s.udp && s.claims - {} == s.claims;
    } else {
      var k := NextKey(keys, hints);
      var hint := if hints == [] then k else hints[0].victim;
      var kind := if k in s.tcp then Tcp else Udp;
      RejectedOne(limits, s, kind, k, now, hint);
      RejectKeeps(limits, s, k, SessionReplaced, now, hint, None, None);
      hide RejectSetup;
      var t := RejectSetup(limits, s, k, SessionReplaced, now, hint);
      var rest := if hints == [] then [] else hints[1..];
      assert keys - {k} <= t.tcp.Keys + t.udp.Keys;
      RejectAllEffect(limits, t, keys - {k}, now, rest);
      hide Rejected;
      RejectedThen(s, t, RejectAll(limits, t, keys - {k}, now, rest), k, keys);
    }
  }

  /** The keys of `keys` whose uplink alone was waiting. */
  function Silent(s: Registry, keys: set<FlowKey>): set<FlowKey> {
    set k | k in keys && DownlinkOf(s, k).None?
  }

  lemma BuryOne(
    limits: Limits, s: Registry, kind: FlowKind, key: FlowKey, now: int, hint: FlowKey, buried: set<FlowKey>,
    late: set<FlowKey>)
    requires limits.Valid() && Inv(limits, s) && key in Pend(s, kind)
    requires BuriedNow(s.rejections, buried, late, now + limits.timeout)
    requires DownlinkOf(s, key).None? ==> |buried| + |late| < limits.maxPending
    ensures var r := RejectSetup(limits, s, key, SessionReplaced, now, hint);
            BuriedNow(r.rejections, if DownlinkOf(s, key).None? then buried + {key} else buried, late,
                      now + limits.timeout)
  {
    BooksHold(limits, s, None);
    OneKind(limits, s, key);
    hide Within, Books, RejectSetup, Bury, BuriedNow;
    RejectEffect(limits, s, kind, key, now, hint);
    if DownlinkOf(s, key).None? {
      BuryKeepsNew(limits, s.rejections, buried, late, key, now, hint);
    }
  }

  lemma SilentStep(s: Registry, t: Registry, keys: set<FlowKey>, key: FlowKey, buried: set<FlowKey>)
    requires key in keys && t.tcp == s.tcp - {key} && t.udp == s.udp - {key}
    ensures var now := if DownlinkOf(s, key).None? then buried + {key} else buried;
            now + Silent(t, keys - {key}) == buried + Silent(s, keys)
    ensures |Silent(s, keys)| == |Silent(t, keys - {key})| + if DownlinkOf(s, key).None? then 1 else 0
  {
    assert forall k :: k in keys - {key} ==> DownlinkOf(t, k) == DownlinkOf(s, k);
    assert Silent(t, keys - {key}) == Silent(s, keys) - {key};
  }

  /** With room for them all, every flow that had no downlink yet keeps its new tombstone. */
  lemma {:induction false} RejectAllBuries(
    limits: Limits, s: Registry, keys: set<FlowKey>, now: int, hints: seq<Hint>, buried: set<FlowKey>,
    late: set<FlowKey>)
    requires limits.Valid() && Inv(limits, s) && keys <= s.tcp.Keys + s.udp.Keys && buried !! keys
    requires BuriedNow(s.rejections, buried, late, now + limits.timeout)
    requires |buried| + |late| + |Silent(s, keys)| <= limits.maxPending
    ensures BuriedNow(RejectAll(limits, s, keys, now, hints).rejections, buried + Silent(s, keys), late,
                      now + limits.timeout)
    decreases |keys|
  {
    hide Within, BuriedNow;
    if keys == {} {
      assert buried + Silent(s, keys) == buried;
    } else {
      var k := NextKey(keys, hints);
      var hint := if hints == [] then k else hints[0].victim;
      var kind := if k in s.tcp then Tcp else Udp;
      RejectedOne(limits, s, kind, k, now, hint);
      RejectKeeps(limits, s, k, SessionReplaced, now, hint, None, None);
      var t := RejectSetup(limits, s, k, SessionReplaced, now, hint);
      SilentStep(s, t, keys, k, buried);
      BuryOne(limits, s, kind, k, now, hint, buried, late);
      hide RejectSetup, Silent;
      assert keys - {k} <= t.tcp.Keys + t.udp.Keys;
      RejectAllBuries(limits, t, keys - {k}, now, if hints == [] then [] else hints[1..],
                      if DownlinkOf(s, k).None? then buried + {k} else buried, late);
    }
  }

  /** A hint that names a waiting key is followed. */
  lemma RejectNext(limits: Limits, s: Registry, keys: set<FlowKey>, now: int, h: Hint, more: seq<Hint>)
    requires h.next in keys
    ensures RejectAll(limits, s, keys, now, [h] + more)
         == RejectAll(limits, RejectSetup(limits, s, h.next, SessionReplaced, now, h.victim), keys - {h.next},
                      now, more)
  {
    hide RejectSetup;
    var hints := [h] + more;
    assert hints[0] == h && hints[1..] == more;
  }

  // ---------------------------------------------------------------------------------------------
  // The whole replacement.

  lemma QuotaOf(limits: Limits, s: Registry, x: SessionId)
    requires Books(limits, s)
    ensures |Inactive(s.claims, x)| <= limits.maxPending
  {
    assert QuotaOk(s.claims, limits.maxPending);
    hide Books;
  }

  lemma StaleIsInactive(limits: Limits, s: Registry, x: SessionId, g: nat)
    requires Books(limits, s)
    ensures Stale(s, x, g) <= Inactive(s.claims, x)
    ensures Stale(s, x, g) <= s.tcp.Keys + s.udp.Keys
  {
    hide Books;
    forall k | k in Stale(s, x, g)
      ensures k in Inactive(s.claims, x)
    {
      HalfOpenInactive(limits, s, k);
    }
  }

  lemma StaleFits(limits: Limits, s: Registry, x: SessionId, g: nat)
    requires Inv(limits, s)
    ensures |Stale(s, x, g)| <= limits.maxPending
    ensures Stale(s, x, g) <= s.tcp.Keys + s.udp.Keys
  {
    BooksHold(limits, s, None);
    hide *;
    StaleIsInactive(limits, s, x, g);
    QuotaOf(limits, s, x);
    SubsetSize(Stale(s, x, g), Inactive(s.claims, x));
  }

  lemma HalfSnapshot(kind: FlowKind, p: Pending, g: nat)
    requires HalfOk(kind, p) && g in Generations(p)
    ensures p.snapshot == Some(g)
  {
  }

  lemma NoSnapshotNoGeneration(limits: Limits, s: Registry, kind: FlowKind, key: FlowKey, g: nat)
    requires Inv(limits, s) && key in Pend(s, kind) && g in Generations(Pend(s, kind)[key])
    ensures Pend(s, kind)[key].snapshot == Some(g)
  {
    EntryFacts(limits, s, None, kind, key);
    hide Within, Generations, HalfOk, SourceOk;
    HalfSnapshot(kind, Pend(s, kind)[key], g);
  }

  /** The registry right after the generation swap and the cancel pass. */
  function Swapped(limits: Limits, s: Registry, x: SessionId, g: nat): Registry {
    CancelPass(s.(links := SwapQuic(s.links, x, limits.maxUdpFlows).0), x, g)
  }

  lemma SwappedFields(limits: Limits, s: Registry, x: SessionId, g: nat)
    requires Current(s.links, x) == Some(g)
    ensures var t := Swapped(limits, s, x, g);
            && t.tcp == s.tcp && t.udp == s.udp && t.claims == s.claims && t.rejections == s.rejections
               && t.answers == s.answers
            && t.cancelled == s.cancelled
                              + (set k | k in s.claims && OwnedBy(k, s.claims[k], x, g) :: s.claims[k].token)
            && x in t.links.counts && t.links.counts[x].quic == Some(s.links.nextGeneration)
            && Stale(t, x, g) == Stale(s, x, g)
  {
  }

  lemma SwappedQuiet(limits: Limits, s: Registry, x: SessionId, g: nat)
    ensures var t := Swapped(limits, s, x, g); t.tcp == s.tcp && t.udp == s.udp && t.rejections == s.rejections
  {
  }

  lemma SwappedKeeps(limits: Limits, s: Registry, x: SessionId, g: nat)
    requires limits.Valid() && Inv(limits, s) && Current(s.links, x) == Some(g)
    ensures Inv(limits, Swapped(limits, s, x, g))
  {
    SwapQuicKeepsInv(s.links, x, limits.maxUdpFlows);
    var s1 := s.(links := SwapQuic(s.links, x, limits.maxUdpFlows).0);
    LinksKeep(limits, s, s1.links);
    hide Within;
    CancelTokens(limits, s1, set k | k in s1.claims && OwnedBy(k, s1.claims[k], x, g) :: s1.claims[k].token);
  }

  lemma ReplacementIs(limits: Limits, s: Registry, x: SessionId, g: nat, now: int, hints: seq<Hint>)
    requires Current(s.links, x) == Some(g)
    ensures RegisterQuic(limits, s, x, now, hints)
         == RejectAll(limits, Swapped(limits, s, x, g), Stale(s, x, g), now, hints)
  {
    SwappedFields(limits, s, x, g);
    hide RejectAll;
  }

  /** When `register_quic_link` has displaced generation `g` of session `x`, no half-open flow refers to
      `g`, flows of other snapshots are untouched, every purged flow got SESSION_REPLACED on its downlink,
      and exactly the running flows that own `g` were cancelled. */
  lemma ReplacementLeavesNothingStale(limits: Limits, s: Registry, x: SessionId, g: nat, now: int, hints: seq<Hint>)
    requires limits.Valid() && Inv(limits, s) && Current(s.links, x) == Some(g)
    ensures var t := RegisterQuic(limits, s, x, now, hints);
            && Current(t.links, x) == Some(s.links.nextGeneration)
            && (forall kind, k :: k in Pend(t, kind) && k.session == x ==>
                  Pend(t, kind)[k].snapshot != Some(g) && g !in Generations(Pend(t, kind)[k]))
            && t.tcp == s.tcp - Stale(s, x, g) && t.udp == s.udp - Stale(s, x, g)
               && t.claims == s.claims - Stale(s, x, g)
            && (forall k, d :: k in Stale(s, x, g) && DownlinkOf(s, k) == Some(d) ==>
                Answer(d, SessionReplaced) in t.answers)
            && t.cancelled == s.cancelled
                              + (set k | k in s.claims && OwnedBy(k, s.claims[k], x, g) :: s.claims[k].token)
  {
    hide Within, Links.TableOk, Generations, RejectAll;
    var u, t := Swapped(limits, s, x, g), RegisterQuic(limits, s, x, now, hints);
    SwappedKeeps(limits, s, x, g);
    StaleFits(limits, s, x, g);
    RegisterQuicKeeps(limits, s, x, now, hints);
    SwappedFields(limits, s, x, g);
    ReplacementIs(limits, s, x, g, now, hints);
    hide RegisterQuic, Swapped, Inv;
    RejectAllEffect(limits, u, Stale(s, x, g), now, hints);
    SameDownlinks(s, u);
    forall kind, k | k in Pend(t, kind) && k.session == x
      ensures Pend(t, kind)[k].snapshot != Some(g) && g !in Generations(Pend(t, kind)[k])
    {
      assert k !in Stale(s, x, g);
      if g in Generations(Pend(t, kind)[k]) {
        NoSnapshotNoGeneration(limits, t, kind, k, g);
      }
    }
  }

  lemma SameDownlinks(s: Registry, t: Registry)
    requires t.tcp == s.tcp && t.udp == s.udp
    ensures forall k :: DownlinkOf(t, k) == DownlinkOf(s, k)
  {
  }

  /** A purged flow whose downlink had not come yet leaves a tombstone that is still there when the
      replacement is done, provided the table has room for all of them beside the tombstones made at this
      instant or later. */
  lemma ReplacementLeavesTombstones(limits: Limits, s: Registry, x: SessionId, g: nat, now: int, hints: seq<Hint>)
    requires limits.Valid() && Inv(limits, s) && Current(s.links, x) == Some(g)
    requires |Silent(s, Stale(s, x, g))| + |Late(s.rejections, now + limits.timeout)| <= limits.maxPending
    ensures var t := RegisterQuic(limits, s, x, now, hints);
            forall k :: k in Silent(s, Stale(s, x, g)) ==>
              k in t.rejections && t.rejections[k] == Tombstone(SessionReplaced, now + limits.timeout)
  {
    hide Within, RejectAll, RegisterQuic, Swapped, Late, Stale, Silent, BuriedNow, Inv, Current;
    var u, late := Swapped(limits, s, x, g), Late(s.rejections, now + limits.timeout);
    SwappedKeeps(limits, s, x, g);
    StaleFits(limits, s, x, g);
    SwappedQuiet(limits, s, x, g);
    ReplacementIs(limits, s, x, g, now, hints);
    SameSilent(s, u, Stale(s, x, g));
    NothingBuried(u.rejections, now + limits.timeout);
    RejectAllBuries(limits, u, Stale(s, x, g), now, hints, {}, late);
    assert {} + Silent(u, Stale(s, x, g)) == Silent(u, Stale(s, x, g));
    BuriedThen(RegisterQuic(limits, s, x, now, hints).rejections, Silent(s, Stale(s, x, g)), late,
               now + limits.timeout);
  }

  lemma SameSilent(s: Registry, t: Registry, keys: set<FlowKey>)
    requires t.tcp == s.tcp && t.udp == s.udp
    ensures Silent(t, keys) == Silent(s, keys)
  {
    SameDownlinks(s, t);
  }

  lemma NothingBuried(m: map<FlowKey, Tombstone>, when: int)
    ensures BuriedNow(m, {}, Late(m, when), when)
  {
  }

  lemma BuriedThen(m: map<FlowKey, Tombstone>, keys: set<FlowKey>, late: set<FlowKey>, when: int)
    requires BuriedNow(m, keys, late, when)
    ensures forall k :: k in keys ==> k in m && m[k] == Tombstone(SessionReplaced, when)
  {
  }
}
