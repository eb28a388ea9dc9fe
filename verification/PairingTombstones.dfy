/** Exactly when a replacement leaves a tombstone for every flow it silences. */
module PairingTombstones {
  import opened Wrappers
  import opened Flow
  import opened Counting
  import opened Links
  import opened Pairing
  import opened PairingInvariant
  import opened PairingSteps
  import opened PairingSubmit
  import opened PairingRuns
  import opened PairingReplacement

  type Tombstones = map<FlowKey, Tombstone>

  /** The tombstones of `keys` expire exactly at `when`. */
  ghost predicate DueAt(m: Tombstones, keys: set<FlowKey>, when: int) {
    forall k :: k in keys ==> k in m && m[k].expires == when
  }

  /** A full table without a tombstone that expires before the ones made now. */
  ghost predicate Crammed(limits: Limits, m: Tombstones, now: int) {
    |Live(m, now)| >= limits.maxPending && Live(m, now).Keys <= Late(m, now + limits.timeout)
  }

  /** The tombstones of the purge so far and those as late as them. */
  ghost function Crowd(m: Tombstones, buried: set<FlowKey>, when: int): nat {
    |buried| + |Late(m, when) - buried|
  }

  ghost function SilentCount(s: Registry, keys: set<FlowKey>): nat {
    |Silent(s, keys)|
  }

  /** A table that is full of tombstones no older than the new ones gives up whichever of the oldest comes
      first, so one of `buried` may go. */
  lemma BuryLosesOne(limits: Limits, m: Tombstones, buried: set<FlowKey>, key: FlowKey, now: int, lost: FlowKey)
    requires limits.Valid() && DueAt(m, buried, now + limits.timeout) && lost in buried && key !in m
    requires Crammed(limits, m, now)
    ensures lost !in Bury(limits, m, key, SessionReplaced, now, lost)
  {
    var live := Live(m, now);
    assert lost in live && IsOldest(live, lost);
  }

  /** Otherwise what the purge has buried stays, and so do the tombstones as late as it. */
  lemma BuryKeepsLate(limits: Limits, m: Tombstones, buried: set<FlowKey>, key: FlowKey, now: int, hint: FlowKey)
    requires limits.Valid() && DueAt(m, buried, now + limits.timeout) && key !in m
    requires !Crammed(limits, m, now)
    ensures var r := Bury(limits, m, key, SessionReplaced, now, hint);
            && DueAt(r, buried + {key}, now + limits.timeout)
            && Late(r, now + limits.timeout) - (buried + {key}) == Late(m, now + limits.timeout) - buried
  {
    var live, when := Live(m, now), now + limits.timeout;
    var r := Bury(limits, m, key, SessionReplaced, now, hint);
    if |live| >= limits.maxPending {
      var v := Victim(live, hint);
      var older :| older in live && older !in Late(m, when);
      assert live[v].expires <= live[older].expires < when;
    }
    assert forall k :: k in r && k != key ==> k in m && r[k] == m[k];
    assert forall k :: k in m && m[k].expires >= when ==> k in r;
  }

  lemma BuryIs(limits: Limits, m: Tombstones, key: FlowKey, now: int, hint: FlowKey)
    ensures var r := Bury(limits, m, key, SessionReplaced, now, hint);
            key in r && r[key] == Tombstone(SessionReplaced, now + limits.timeout)
  {
  }

  lemma FullOfLate(limits: Limits, m: Tombstones, key: FlowKey, now: int, hint: FlowKey)
    requires limits.Valid() && key !in m && |m| <= limits.maxPending
    requires Crammed(limits, m, now)
    ensures var r, when := Bury(limits, m, key, SessionReplaced, now, hint), now + limits.timeout;
            && DueAt(r, {key}, when) && r[key].code == SessionReplaced
            && |Late(r, when) - {key}| >= |Late(m, when)| - 1 && |Late(m, when)| >= limits.maxPending
  {
    var live, when := Live(m, now), now + limits.timeout;
    var v := Victim(live, hint);
    var r := Bury(limits, m, key, SessionReplaced, now, hint);
    assert r == (live - {v})[key := Tombstone(SessionReplaced, when)];
    hide Bury, IsOldest;
    assert live.Keys == Late(m, when);
    assert Late(r, when) - {key} == Late(m, when) - {v};
    assert |live.Keys| == |live|;
  }

  /** The first tombstone of the purge is always kept; at worst it takes the place of one as late. */
  lemma FirstBuried(limits: Limits, m: Tombstones, key: FlowKey, now: int, hint: FlowKey)
    requires limits.Valid() && key !in m && |m| <= limits.maxPending
    ensures var r, when := Bury(limits, m, key, SessionReplaced, now, hint), now + limits.timeout;
            && DueAt(r, {key}, when) && r[key].code == SessionReplaced
            && |Late(r, when) - {key}| >= |Late(m, when)| - 1
            && (|Late(m, when)| < limits.maxPending ==> |Late(r, when) - {key}| == |Late(m, when)|)
  {
    var when := now + limits.timeout;
    if !Crammed(limits, m, now) {
      BuryKeepsLate(limits, m, {}, key, now, hint);
      assert {} + {key} == {key} && Late(m, when) - {} == Late(m, when);
      BuryIs(limits, m, key, now, hint);
    } else {
      FullOfLate(limits, m, key, now, hint);
    }
    hide Bury, Late;
  }

  /** What is neither buried nor still to be rejected does not come back. */
  lemma {:induction false} GoneForGood(
    limits: Limits, s: Registry, keys: set<FlowKey>, now: int, hints: seq<Hint>, lost: FlowKey)
    requires limits.Valid() && Inv(limits, s) && keys <= s.tcp.Keys + s.udp.Keys
    requires lost !in keys && lost !in s.rejections
    ensures lost !in RejectAll(limits, s, keys, now, hints).rejections
    decreases |keys|
  {
    hide Within;
    if keys != {} {
      var k := NextKey(keys, hints);
      var hint := if hints == [] then k else hints[0].victim;
      var t := RejectSetup(limits, s, k, SessionReplaced, now, hint);
      OneStep(limits, s, keys, k, now, hint);
      BuryAddsOnlyKey(limits, s.rejections, k, now, hint);
      hide RejectSetup, Bury;
      GoneForGood(limits, t, keys - {k}, now, if hints == [] then [] else hints[1..], lost);
    }
  }

  lemma BuryAddsOnlyKey(limits: Limits, m: Tombstones, key: FlowKey, now: int, hint: FlowKey)
    ensures forall k :: k in Bury(limits, m, key, SessionReplaced, now, hint) ==> k == key || k in m
  {
  }

  /** Rejecting one flow of `keys`. */
  lemma OneStep(limits: Limits, s: Registry, keys: set<FlowKey>, k: FlowKey, now: int, hint: FlowKey)
    requires limits.Valid() && Inv(limits, s) && keys <= s.tcp.Keys + s.udp.Keys && k in keys
    ensures var t := RejectSetup(limits, s, k, SessionReplaced, now, hint);
            && Inv(limits, t) && keys - {k} <= t.tcp.Keys + t.udp.Keys
            && t.tcp == s.tcp - {k} && t.udp == s.udp - {k}
            && t.rejections == (if DownlinkOf(s, k).Some? then s.rejections
                                else Bury(limits, s.rejections, k, SessionReplaced, now, hint))
            && k !in s.rejections && |s.rejections| <= limits.maxPending && |t.rejections| <= limits.maxPending
  {
    hide Within, Books, Bury, RejectSetup;
    var kind := if k in s.tcp then Tcp else Udp;
    var t := RejectSetup(limits, s, k, SessionReplaced, now, hint);
    BooksHold(limits, s, None);
    OneKind(limits, s, k);
    RejectEffect(limits, s, kind, k, now, hint);
    RejectKeeps(limits, s, k, SessionReplaced, now, hint, None, None);
    BooksHold(limits, t, None);
    Bounded(limits, s);
    Bounded(limits, t);
  }

  lemma Bounded(limits: Limits, s: Registry)
    requires Books(limits, s)
    ensures |s.rejections| <= limits.maxPending
  {
    assert TombstonesOk(s.rejections, s.claims.Keys, limits.maxPending);
    hide Books;
  }

  lemma LateFits(m: Tombstones, buried: set<FlowKey>, when: int)
    requires DueAt(m, buried, when)
    ensures Crowd(m, buried, when) <= |m|
  {
    var late := Late(m, when) - buried;
    assert buried !! late;
    assert |buried + late| == |buried| + |late|;
    SubsetSize(buried + late, m.Keys);
  }

  lemma SilentPart(s: Registry, keys: set<FlowKey>)
    ensures Silent(s, keys) <= keys && SilentCount(s, keys) <= |keys|
  {
    SubsetSize(Silent(s, keys), keys);
  }

  lemma SilentNext(s: Registry, t: Registry, keys: set<FlowKey>, k: FlowKey)
    requires k in keys && t.tcp == s.tcp - {k} && t.udp == s.udp - {k}
    ensures k in Silent(s, keys) <==> DownlinkOf(s, k).None?
    ensures Silent(t, keys - {k}) <= Silent(s, keys)
    ensures SilentCount(s, keys) == SilentCount(t, keys - {k}) + if DownlinkOf(s, k).None? then 1 else 0
  {
    SilentStep(s, t, keys, k, {});
    assert Silent(t, keys - {k}) <= {} + Silent(s, keys);
  }

  lemma HasBooks(limits: Limits, s: Registry)
    requires Inv(limits, s)
    ensures Books(limits, s)
  {
    BooksHold(limits, s, None);
  }

  lemma OneMoreBuried(limits: Limits, m: Tombstones, buried: set<FlowKey>, key: FlowKey, now: int, hint: FlowKey)
    requires limits.Valid() && DueAt(m, buried, now + limits.timeout) && key !in m && key !in buried
    requires !Crammed(limits, m, now)
    ensures var r, when := Bury(limits, m, key, SessionReplaced, now, hint), now + limits.timeout;
            && DueAt(r, buried + {key}, when)
            && Crowd(r, buried + {key}, when) == Crowd(m, buried, when) + 1
  {
    hide Bury, Late, DueAt, Crammed;
    BuryKeepsLate(limits, m, buried, key, now, hint);
  }

  ghost predicate Parted(a: set<FlowKey>, b: set<FlowKey>) {
    a !! b
  }

  lemma PartedNext(a: set<FlowKey>, b: set<FlowKey>, k: FlowKey, x: FlowKey)
    requires Parted(a, b) && k in b && x in a
    ensures k !in a && x !in b - {k} && Parted(a, b - {k}) && Parted(a + {k}, b - {k}) && a + {k} != {}
  {
  }

  /** With more tombstones to bury than there is room for, some hash order loses one of them. */
  lemma {:induction false} LoseOne(limits: Limits, s: Registry, keys: set<FlowKey>, now: int, buried: set<FlowKey>)
    returns (hints: seq<Hint>, lost: FlowKey)
    requires limits.Valid() && Inv(limits, s) && keys <= s.tcp.Keys + s.udp.Keys && Parted(buried, keys) && buried != {}
    requires DueAt(s.rejections, buried, now + limits.timeout)
    requires Crowd(s.rejections, buried, now + limits.timeout) + SilentCount(s, keys) > limits.maxPending
    ensures lost in buried || lost in Silent(s, keys)
    ensures lost !in RejectAll(limits, s, keys, now, hints).rejections
    decreases keys
  {
    hide *;
    var when := now + limits.timeout;
    if keys == {} {
      SilentPart(s, keys);
      HasBooks(limits, s);
      Bounded(limits, s);
      LateFits(s.rejections, buried, when);
      assert false;
    } else {
      var k :| k in keys;
      var b :| b in buried;
      var t := RejectSetup(limits, s, k, SessionReplaced, now, b);
      OneStep(limits, s, keys, k, now, b);
      SilentNext(s, t, keys, k);
      PartedNext(buried, keys, k, b);
      var rest: seq<Hint>;
      if DownlinkOf(s, k).Some? {
        rest, lost := LoseOne(limits, t, keys - {k}, now, buried);
      } else if Crammed(limits, s.rejections, now) {
        BuryLosesOne(limits, s.rejections, buried, k, now, b);
        rest, lost := [], b;
        GoneForGood(limits, t, keys - {k}, now, rest, lost);
      } else {
        OneMoreBuried(limits, s.rejections, buried, k, now, b);
        rest, lost := LoseOne(limits, t, keys - {k}, now, buried + {k});
        assert lost == k || lost in buried || lost in Silent(t, keys - {k});
      }
      hints := [Hint(k, b)] + rest;
      RejectNext(limits, s, keys, now, Hint(k, b), rest);
    }
  }

  lemma LateSize(m: Tombstones, when: int)
    ensures |Late(m, when)| <= |m|
  {
    SubsetSize(Late(m, when), m.Keys);
  }

  lemma {:induction false} LoseSome(limits: Limits, s: Registry, keys: set<FlowKey>, now: int)
    returns (hints: seq<Hint>, lost: FlowKey)
    requires limits.Valid() && Inv(limits, s) && keys <= s.tcp.Keys + s.udp.Keys && SilentCount(s, keys) >= 2
    requires |Late(s.rejections, now + limits.timeout)| + SilentCount(s, keys) > limits.maxPending
    ensures lost in Silent(s, keys) && lost !in RejectAll(limits, s, keys, now, hints).rejections
    decreases keys
  {
    hide *;
    SilentPart(s, keys);
    var k :| k in keys;
    var t := RejectSetup(limits, s, k, SessionReplaced, now, k);
    OneStep(limits, s, keys, k, now, k);
    SilentNext(s, t, keys, k);
    var rest: seq<Hint>;
    if DownlinkOf(s, k).Some? {
      rest, lost := LoseSome(limits, t, keys - {k}, now);
    } else {
      OverFull(limits, s.rejections, k, now, k);
      assert Parted({k}, keys - {k}) by { AloneParted(k, keys); }
      rest, lost := LoseOne(limits, t, keys - {k}, now, {k});
    }
    hints := [Hint(k, k)] + rest;
    RejectNext(limits, s, keys, now, Hint(k, k), rest);
  }

  lemma AloneParted(k: FlowKey, keys: set<FlowKey>)
    ensures Parted({k}, keys - {k})
  {
  }

  lemma OverFull(limits: Limits, m: Tombstones, key: FlowKey, now: int, hint: FlowKey)
    requires limits.Valid() && key !in m && |m| <= limits.maxPending
    ensures var r, when := Bury(limits, m, key, SessionReplaced, now, hint), now + limits.timeout;
            && DueAt(r, {key}, when)
            && Crowd(r, {key}, when) >= if |Late(m, when)| < limits.maxPending then |Late(m, when)| + 1
               else limits.maxPending
  {
    hide Bury, Late, DueAt;
    FirstBuried(limits, m, key, now, hint);
    LateSize(m, now + limits.timeout);
  }

  /** Flows with a downlink leave the tombstones alone. */
  lemma {:induction false} NobodySilent(limits: Limits, s: Registry, keys: set<FlowKey>, now: int, hints: seq<Hint>)
    requires limits.Valid() && Inv(limits, s) && keys <= s.tcp.Keys + s.udp.Keys && Silent(s, keys) == {}
    ensures RejectAll(limits, s, keys, now, hints).rejections == s.rejections
    decreases |keys|
  {
    hide Within;
    if keys != {} {
      var k := NextKey(keys, hints);
      var hint := if hints == [] then k else hints[0].victim;
      var t := RejectSetup(limits, s, k, SessionReplaced, now, hint);
      OneStep(limits, s, keys, k, now, hint);
      SilentStep(s, t, keys, k, {});
      assert k !in Silent(s, keys);
      hide RejectSetup, Bury;
      NobodySilent(limits, t, keys - {k}, now, if hints == [] then [] else hints[1..]);
    }
  }

  /** A single tombstone is always kept. */
  lemma {:induction false} OneIsKept(limits: Limits, s: Registry, keys: set<FlowKey>, now: int, hints: seq<Hint>)
    requires limits.Valid() && Inv(limits, s) && keys <= s.tcp.Keys + s.udp.Keys && |Silent(s, keys)| <= 1
    ensures Silent(s, keys) <= RejectAll(limits, s, keys, now, hints).rejections.Keys
    decreases |keys|
  {
    hide Within;
    if keys == {} {
      assert Silent(s, keys) == {};
    } else {
      var k := NextKey(keys, hints);
      var hint := if hints == [] then k else hints[0].victim;
      var t := RejectSetup(limits, s, k, SessionReplaced, now, hint);
      OneStep(limits, s, keys, k, now, hint);
      SilentStep(s, t, keys, k, {});
      var rest := if hints == [] then [] else hints[1..];
      hide RejectSetup, Bury, Silent;
      if DownlinkOf(s, k).Some? {
        OneIsKept(limits, t, keys - {k}, now, rest);
        assert {} + Silent(t, keys - {k}) == {} + Silent(s, keys);
      } else {
        FirstBuried(limits, s.rejections, k, now, hint);
        NobodySilent(limits, t, keys - {k}, now, rest);
        assert {} + {k} + {} == {} + Silent(s, keys);
      }
    }
  }

  /** Whatever order the hash tables come in, displacing `g` leaves a tombstone for each flow it silences. */
  ghost predicate KeepsAll(limits: Limits, s: Registry, x: SessionId, g: nat, now: int) {
    forall hints: seq<Hint> :: Silent(s, Stale(s, x, g)) <= RegisterQuic(limits, s, x, now, hints).rejections.Keys
  }

  /** The exact condition: at most one flow is silenced, or there is room for all of them beside the
      tombstones made at this very instant or later. */
  lemma KeepsAllIffRoom(limits: Limits, s: Registry, x: SessionId, g: nat, now: int)
    requires limits.Valid() && Inv(limits, s) && Current(s.links, x) == Some(g)
    ensures KeepsAll(limits, s, x, g, now)
       <==> (|Silent(s, Stale(s, x, g))| <= 1
             || |Silent(s, Stale(s, x, g))| + |Late(s.rejections, now + limits.timeout)| <= limits.maxPending)
  {
    hide Within, RejectAll;
    var u, keys := Swapped(limits, s, x, g), Stale(s, x, g);
    SwappedKeeps(limits, s, x, g);
    StaleFits(limits, s, x, g);
    SwappedFields(limits, s, x, g);
    SameDownlinks(s, u);
    assert Silent(u, keys) == Silent(s, keys);
    hide RegisterQuic, Swapped, Stale, Silent;
    if |Silent(s, keys)| <= 1 {
      forall hints: seq<Hint>
        ensures Silent(s, keys) <= RegisterQuic(limits, s, x, now, hints).rejections.Keys
      {
        OneIsKept(limits, u, keys, now, hints);
        ReplacementIs(limits, s, x, g, now, hints);
      }
    } else if |Silent(s, keys)| + |Late(s.rejections, now + limits.timeout)| <= limits.maxPending {
      forall hints: seq<Hint>
        ensures Silent(s, keys) <= RegisterQuic(limits, s, x, now, hints).rejections.Keys
      {
        ReplacementLeavesTombstones(limits, s, x, g, now, hints);
      }
    } else {
      assert SilentCount(u, keys) == |Silent(s, keys)|;
      var hints, lost := LoseSome(limits, u, keys, now);
      ReplacementIs(limits, s, x, g, now, hints);
      assert lost in Silent(s, keys) && lost !in RegisterQuic(limits, s, x, now, hints).rejections.Keys;
    }
  }
}
