/** Legal runs in which the registry does less than one might expect of it. */
module PairingWitnesses {
  import opened Wrappers
  import opened Flow
  import opened Counting
  import opened Links
  import opened Pairing
  import opened PairingInvariant
  import opened PairingSteps
  import opened PairingSubmit
  import opened PairingRuns
  import opened PairingReplacement
  import opened PairingTombstones
  import PairingOrder
  import TargetCodec

  const SESSION: SessionId := 7

  /** The OPEN half of a TCP flow of session 7: uplink over TLS, downlink over QUIC. */
  function Opening(id: nat): Submission {
    Submission(Tcp, SESSION, FlowHeader(Open, id, Tcp, TlsTcp, Quic), Some(TargetCodec.V4([1, 2, 3, 4], 80)),
               LinkPath("", ""), None, Some(0), None, None)
  }

  function Submitting(id: nat): Event {
    Submits(Opening(id), 0, Opening(id).Key())
  }

  lemma RunOn(limits: Limits, run: seq<Event>, e: Event)
    ensures After(limits, run + [e]) == Step(limits, After(limits, run), e)
    ensures LegalRun(limits, run + [e]) <==> LegalRun(limits, run) && Enabled(After(limits, run), e)
  {
    hide Step, Enabled;
    assert (run + [e])[..|run|] == run;
  }

  lemma RunNone(limits: Limits)
    ensures After(limits, []) == INITIAL && LegalRun(limits, [])
  {
  }

  /** An OPEN that nothing stands in the way of waits, and changes nothing but its own flow. */
  lemma OpeningWaits(limits: Limits, s: Registry, id: nat)
    requires 0 < id < 0x1_0000_0000 && LinkCurrent(s.links, SESSION, None)
             && Opening(id).Key() !in Live(s.rejections, 0)
    requires var k := Opening(id).Key(); k !in s.claims && k !in s.tcp && k !in s.udp
    requires |Inactive(s.claims, SESSION)| < limits.maxPending
    ensures Enabled(s, Submitting(id))
    ensures var t, k := Step(limits, s, Submitting(id)), Opening(id).Key();
            && t.links == s.links && t.udp == s.udp && t.rejections == Live(s.rejections, 0)
            && t.tcp.Keys == s.tcp.Keys + {k} && t.tcp[k].downlink == None
            && t.tcp[k].snapshot == Current(s.links, SESSION)
            && (forall j :: j in s.tcp && j != k ==> t.tcp[j] == s.tcp[j])
            && t.claims.Keys == s.claims.Keys + {k}
  {
    hide Submit, Live, Inactive;
    var sub := Opening(id);
    assert PairingOrder.Admissible(s, sub, 0);
    PairingOrder.FirstWaits(limits, s, sub, 0, sub.Key());
    StartFields(PairingOrder.Primed(s, sub, 0), sub, None);
  }

  // ---------------------------------------------------------------------------------------------
  // CLOSE does not look at the kind of the flow it names.

  /** A legal run after which a CLOSE that names the id of a half-open TCP flow leaves its half behind
      without a claim. */
  lemma CloseCanOrphan(limits: Limits)
    requires limits.Valid()
    ensures var run, k := [RegistersTcp(SESSION), Submitting(1)], Opening(1).Key();
            var s, t := After(limits, run), CancelUdp(After(limits, run), k);
            LegalRun(limits, run) && k in s.claims && k in s.tcp && k !in t.claims && k in t.tcp && !Inv(limits, t)
  {
    hide *;
    var first, second := RegistersTcp(SESSION), Submitting(1);
    assert [] + [first] == [first] && [first] + [second] == [first, second];
    RunNone(limits);
    RunOn(limits, [], first);
    RunOn(limits, [first], second);
    TcpLinkUp(limits);
    OpeningWaits(limits, After(limits, [first]), 1);
    RunKeepsInvariant(limits, [first, second]);
    CloseOrphans(limits, After(limits, [first, second]), Opening(1).Key());
  }

  lemma TcpLinkUp(limits: Limits)
    requires limits.Valid()
    ensures Enabled(INITIAL, RegistersTcp(SESSION))
    ensures var s := Step(limits, INITIAL, RegistersTcp(SESSION));
            && LinkCurrent(s.links, SESSION, None) && Opening(1).Key() !in Live(s.rejections, 0)
            && (var k := Opening(1).Key(); k !in s.claims && k !in s.tcp && k !in s.udp)
            && |Inactive(s.claims, SESSION)| < limits.maxPending
  {
    assert Inactive(INITIAL.claims, SESSION) == {};
  }

  lemma CloseOrphans(limits: Limits, s: Registry, key: FlowKey)
    requires Inv(limits, s) && key in s.tcp
    ensures key !in CancelUdp(s, key).claims && key in CancelUdp(s, key).tcp && !Inv(limits, CancelUdp(s, key))
  {
    CloseKeepsIffNotTcp(limits, s, key);
    BooksHold(limits, s, None);
    hide Within, Books;
    OneKind(limits, s, key);
    HalfOpenInactive(limits, s, key);
  }

  // ---------------------------------------------------------------------------------------------
  // A replacement can evict a tombstone it has just made.

  function FirstKey(): FlowKey {
    Opening(1).Key()
  }

  function SecondKey(): FlowKey {
    Opening(2).Key()
  }

  /** Two OPENs wait without a downlink on a session whose QUIC generation is 1. */
  ghost predicate TwoWait(s: Registry) {
    && LinkCurrent(s.links, SESSION, None) && Current(s.links, SESSION) == Some(1)
    && s.tcp.Keys == {FirstKey(), SecondKey()} && s.udp == map[] && s.claims.Keys == s.tcp.Keys
    && forall k :: k in s.tcp ==> s.tcp[k].downlink == None && s.tcp[k].snapshot == Some(1)
  }

  function Unknown(i: nat): FlowKey {
    FlowKey(SESSION + 1 + i, 1)
  }

  function Rejecting(i: nat): Event {
    RejectsSetup(Unknown(i), DialFailed, 0, Unknown(i))
  }

  /** Both carriers, two OPENs, and setups of `n` flows of other sessions that fail, all at one instant. */
  function Crowding(n: nat): seq<Event> {
    if n == 0 then [RegistersTcp(SESSION), RegistersQuic(SESSION, 0, []), Submitting(1), Submitting(2)]
    else Crowding(n - 1) + [Rejecting(n - 1)]
  }

  lemma LinksUp(limits: Limits)
    requires limits.Valid()
    ensures var s := Step(limits, Step(limits, INITIAL, RegistersTcp(SESSION)), RegistersQuic(SESSION, 0, []));
            && LinkCurrent(s.links, SESSION, None) && Current(s.links, SESSION) == Some(1)
            && s.tcp == map[] && s.udp == map[] && s.claims == map[] && s.rejections == map[]
  {
  }

  lemma NobodyInactive()
    ensures Inactive(map[], SESSION) == {} && Live(map[], 0) == map[]
  {
  }

  lemma OneInactive(claims: Claims, k: FlowKey)
    requires claims.Keys == {k}
    ensures |Inactive(claims, SESSION)| <= 1
  {
    SubsetSize(Inactive(claims, SESSION), {k});
  }

  lemma SecondOpening(limits: Limits, s: Registry)
    requires limits.maxPending >= 2 && LinkCurrent(s.links, SESSION, None) && Current(s.links, SESSION) == Some(1)
    requires s.tcp == map[] && s.udp == map[] && s.claims == map[] && s.rejections == map[]
    ensures Enabled(s, Submitting(1)) && Enabled(Step(limits, s, Submitting(1)), Submitting(2))
    ensures var t := Step(limits, Step(limits, s, Submitting(1)), Submitting(2));
            TwoWait(t) && t.rejections == map[]
  {
    hide Step, Enabled, Inactive, Live, LinkCurrent, Current;
    NobodyInactive();
    OpeningWaits(limits, s, 1);
    var t := Step(limits, s, Submitting(1));
    OneInactive(t.claims, FirstKey());
    OpeningWaits(limits, t, 2);
  }

  lemma CrowdingStart(limits: Limits)
    requires limits.Valid() && limits.maxPending >= 2
    ensures LegalRun(limits, Crowding(0)) && TwoWait(After(limits, Crowding(0)))
    ensures After(limits, Crowding(0)).rejections == map[]
  {
    hide Step, After, LegalRun, Enabled, TwoWait, LinkCurrent, Current, Opening;
    var a, b, c, d := RegistersTcp(SESSION), RegistersQuic(SESSION, 0, []), Submitting(1), Submitting(2);
    assert [] + [a] == [a] && [a] + [b] == [a, b] && [a, b] + [c] == [a, b, c] && [a, b, c] + [d] == [a, b, c, d];
    RunNone(limits);
    RunOn(limits, [], a);
    RunOn(limits, [a], b);
    RunOn(limits, [a, b], c);
    RunOn(limits, [a, b, c], d);
    LinksUp(limits);
    LinksEnabled(After(limits, []), After(limits, [a]));
    SecondOpening(limits, After(limits, [a, b]));
  }

  lemma LinksEnabled(s: Registry, t: Registry)
    ensures Enabled(s, RegistersTcp(SESSION)) && Enabled(t, RegistersQuic(SESSION, 0, []))
  {
  }

  lemma BuryUnknown(limits: Limits, s: Registry, i: nat)
    requires TwoWait(s)
    ensures Enabled(s, Rejecting(i))
    ensures Step(limits, s, Rejecting(i))
            == s.(rejections := Bury(limits, s.rejections, Unknown(i), DialFailed, 0, Unknown(i)))
  {
    hide Bury;
    MinusAbsent(s.claims, Unknown(i));
  }

  /** `n` tombstones, all made at the same instant. */
  ghost predicate Packed(limits: Limits, m: Tombstones, n: nat) {
    && |m| == n
    && forall k :: k in m ==> m[k].expires == limits.timeout && SESSION < k.session <= SESSION + n
  }

  lemma BuryAnother(limits: Limits, m: Tombstones, n: nat)
    requires limits.Valid() && n < limits.maxPending && Packed(limits, m, n)
    ensures Packed(limits, Bury(limits, m, Unknown(n), DialFailed, 0, Unknown(n)), n + 1)
  {
    var k := Unknown(n);
    assert Live(m, 0) == m;
    assert k !in m;
    MapSize(m, k, Tombstone(DialFailed, limits.timeout));
    MinusAbsent(m, k);
  }

  lemma {:induction false} CrowdingRun(limits: Limits, n: nat)
    requires limits.Valid() && limits.maxPending >= 2 && n <= limits.maxPending
    ensures LegalRun(limits, Crowding(n)) && TwoWait(After(limits, Crowding(n)))
    ensures Packed(limits, After(limits, Crowding(n)).rejections, n)
  {
    hide Step, After, LegalRun, Enabled, TwoWait, Bury, Packed;
    if n == 0 {
      CrowdingStart(limits);
      NothingPacked(limits);
    } else {
      CrowdingRun(limits, n - 1);
      var s := After(limits, Crowding(n - 1));
      RunOn(limits, Crowding(n - 1), Rejecting(n - 1));
      BuryUnknown(limits, s, n - 1);
      BuryAnother(limits, s.rejections, n - 1);
      StillTwo(s, Bury(limits, s.rejections, Unknown(n - 1), DialFailed, 0, Unknown(n - 1)));
    }
  }

  lemma NothingPacked(limits: Limits)
    ensures Packed(limits, map[], 0)
  {
  }

  lemma StillTwo(s: Registry, m: Tombstones)
    requires TwoWait(s)
    ensures TwoWait(s.(rejections := m))
  {
  }

  lemma BothSilent(s: Registry)
    requires TwoWait(s)
    ensures Silent(s, Stale(s, SESSION, 1)) == {FirstKey(), SecondKey()} && |{FirstKey(), SecondKey()}| == 2
  {
    assert FirstKey() != SecondKey();
  }

  lemma AllLate(limits: Limits, m: Tombstones, n: nat)
    requires Packed(limits, m, n)
    ensures |Late(m, limits.timeout)| == n
  {
    assert Late(m, limits.timeout) == m.Keys;
  }

  /** Wherever two tombstones are allowed, there is a legal run after which replacing the carrier silences two
      flows and, in some hash order, keeps a tombstone for only one of them. */
  lemma TombstoneCanBeLost(limits: Limits)
    requires limits.Valid() && limits.maxPending >= 2
    ensures var run := Crowding(limits.maxPending - 1);
            var s := After(limits, run);
            && LegalRun(limits, run) && Current(s.links, SESSION) == Some(1)
            && Silent(s, Stale(s, SESSION, 1)) == {FirstKey(), SecondKey()}
            && exists hints: seq<Hint> ::
                 var t := After(limits, run + [RegistersQuic(SESSION, 0, hints)]);
                 FirstKey() !in t.rejections || SecondKey() !in t.rejections
  {
    hide After, LegalRun, Packed, Silent, Stale, Late, KeepsAll, Within, FirstKey, SecondKey, RegisterQuic;
    var n := limits.maxPending - 1;
    var run := Crowding(n);
    var s := After(limits, run);
    CrowdingRun(limits, n);
    RunKeepsInvariant(limits, run);
    BothSilent(s);
    AllLate(limits, s.rejections, n);
    KeepsAllIffRoom(limits, s, SESSION, 1, 0);
    var hints := SomeoneLost(limits, s);
    RunOn(limits, run, RegistersQuic(SESSION, 0, hints));
  }

  lemma SomeoneLost(limits: Limits, s: Registry) returns (hints: seq<Hint>)
    requires !KeepsAll(limits, s, SESSION, 1, 0) && Silent(s, Stale(s, SESSION, 1)) == {FirstKey(), SecondKey()}
    ensures var t := Step(limits, s, RegistersQuic(SESSION, 0, hints));
            FirstKey() !in t.rejections || SecondKey() !in t.rejections
  {
    hide RegisterQuic, Silent, Stale, FirstKey, SecondKey;
    hints :| !({FirstKey(), SecondKey()} <= RegisterQuic(limits, s, SESSION, 0, hints).rejections.Keys);
  }
}
