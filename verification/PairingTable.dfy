/** What becomes of a submission, as one table over the registry it meets: paired, waiting, or refused with which
    code. The conditions speak of the submission, the carriers, the claims, the tombstones and the budget as they
    are before the call. */
module PairingTable {
  import opened Wrappers
  import opened Flow
  import opened Counting
  import opened Links
  import opened Pairing
  import opened PairingInvariant
  import opened PairingSteps
  import opened PairingSubmit
  import opened PairingOrder
  import opened PairingReplacement

  /** `abort` gives the whole flow up, not just this half of it. */
  datatype Verdict = Pair | Wait | Refuse(code: FlowErrorCode, abort: bool)

  /** The header is for the other protocol, or its target is missing or out of place. */
  predicate Misfit(sub: Submission) {
    sub.header.kind != sub.via || (sub.target.Some? <==> sub.header.role.Attach?)
  }

  /** The submission came on the carrier its header names, and a QUIC one is the current. */
  predicate OnItsCarrier(l: LinkTable, sub: Submission) {
    if sub.header.Lane().Quic? then sub.generation.Some? && Current(l, sub.session) == sub.generation
    else sub.generation.None?
  }

  /** It brings the stream halves of its role; a UDP one brings no other. */
  predicate HalvesFit(sub: Submission) {
    && (!sub.header.role.Attach? ==> sub.uplink.Some?)
    && (!sub.header.role.Open? ==> sub.downlink.Some?)
    && (sub.via.Udp? ==> (sub.uplink.Some? <==> !sub.header.role.Attach?))
    && (sub.via.Udp? ==> (sub.downlink.Some? <==> !sub.header.role.Open?))
  }

  /** The code of a tombstone that has not expired. */
  function Buried(s: Registry, key: FlowKey, now: int): Option<FlowErrorCode> {
    if key in s.rejections && s.rejections[key].expires > now then Some(s.rejections[key].code) else None
  }

  /** What stands in the way of the permit an opening UDP flow takes. */
  function NoPermit(l: LinkTable, sub: Submission): Option<FlowErrorCode> {
    if sub.via.Tcp? || sub.header.role.Attach? then None
    else if sub.session !in l.counts then Some(SessionReplaced)
    else if l.counts[sub.session].budget >= |l.budgets| || l.budgets[l.counts[sub.session].budget] == 0
    then Some(FlowLimit)
    else None
  }

  /** A session whose TLS half comes needs a TCP carrier. */
  predicate CarrierUp(l: LinkTable, sub: Submission) {
    sub.session in l.counts && (sub.generation.None? ==> l.counts[sub.session].tcp > 0)
  }

  /** The flow waits for its other half, but on a QUIC carrier that was replaced. */
  predicate Outdated(s: Registry, kind: FlowKind, key: FlowKey) {
    key in Pend(s, kind) && !Fresh(Pend(s, kind)[key], Current(s.links, key.session))
  }

  /** The flow waits for exactly the half that `sub` brings. */
  predicate Partner(s: Registry, sub: Submission) {
    && sub.Key() in Pend(s, sub.via) && Pend(s, sub.via)[sub.Key()].metadata == sub.Meta()
    && (if sub.header.role.Open? then Pend(s, sub.via)[sub.Key()].uplink.None?
        else Pend(s, sub.via)[sub.Key()].downlink.None?)
  }

  function AtItsFlow(limits: Limits, s: Registry, sub: Submission): Verdict {
    if sub.Key() in s.claims && !Outdated(s, sub.via, sub.Key()) then
      if Partner(s, sub) then Pair else Refuse(MetadataConflict, true)
    else if Outdated(s, sub.via, sub.Key()) || |Inactive(s.claims, sub.session)| < limits.maxPending then Wait
    else Refuse(FlowLimit, true)
  }

  function Half(limits: Limits, s: Registry, sub: Submission, now: int): Verdict {
    if !CarrierUp(s.links, sub) then Refuse(SessionReplaced, sub.header.role.Open?)
    else if Buried(s, sub.Key(), now).Some? then Refuse(Buried(s, sub.Key(), now).value, false)
    else AtItsFlow(limits, s, sub)
  }

  function Both(limits: Limits, s: Registry, sub: Submission): Verdict {
    if sub.Key() in s.claims then Refuse(MetadataConflict, false)
    else if |Inactive(s.claims, sub.session)| < limits.maxPending then Pair
    else Refuse(FlowLimit, false)
  }

  /** What the table says once the header is valid and no tombstone was met early. */
  function Rest(limits: Limits, s: Registry, sub: Submission, now: int): Verdict {
    if NoPermit(s.links, sub).Some? then Refuse(NoPermit(s.links, sub).value, sub.header.role.Open?)
    else if sub.header.role.Duplex? then Both(limits, s, sub)
    else Half(limits, s, sub, now)
  }

  /** The table. */
  function Decide(limits: Limits, s: Registry, sub: Submission, now: int): Verdict {
    var role, buried := sub.header.role, Buried(s, sub.Key(), now);
    if Misfit(sub) then Refuse(InvalidRequest, role.Open?)
    else if !OnItsCarrier(s.links, sub) then Refuse(SessionReplaced, role.Open?)
    else if !HalvesFit(sub) then Refuse(InvalidRequest, role.Open?)
    else if buried.Some? && (role.Duplex? || (role.Open? && sub.via.Udp?)) then Refuse(buried.value, false)
    else Rest(limits, s, sub, now)
  }

  /** Flows and answers are as they were. */
  ghost predicate SameFlows(s: Registry, t: Registry) {
    t.tcp == s.tcp && t.udp == s.udp && t.claims == s.claims && t.answers == s.answers
  }

  /** The half of `sub` waits under this epoch. */
  predicate InPlace(s: Registry, sub: Submission, epoch: nat) {
    && sub.Key() in Pend(s, sub.via)
    && var p := Pend(s, sub.via)[sub.Key()];
    && p.epoch == epoch && p.metadata == sub.Meta()
    && (if sub.header.role.Open? then p.uplink == sub.uplink && p.target == sub.target && p.downlink.None?
        else p.downlink == sub.downlink && p.liveness == sub.liveness && p.uplink.None?)
  }

  /** A call on `s` that got as far as `r` ends as the verdict says. A refusal has the downlink of an ATTACH or
      DUPLEX still to answer, and finds the flow it gives up as it was. */
  ghost predicate Ends(r: Installed, v: Verdict, s: Registry, sub: Submission) {
    match v
    case Pair => r.Completes? && Finish(r.state, r.done).1.Paired?
    case Wait => r.Waits? && r.epoch == s.nextEpoch + 1 < r.state.nextEpoch && InPlace(r.state, sub, r.epoch)
    case Refuse(code, abort) =>
      && r.Fails? && r.code == code && r.abort == abort
      && (r.downlink == None || r.downlink == sub.downlink) && (!sub.header.role.Open? ==> r.downlink == sub.downlink)
      && (abort ==> SameFlows(s, r.state))
  }

  lemma EndsFrame(r: Installed, v: Verdict, s: Registry, t: Registry, sub: Submission)
    requires Ends(r, v, t, sub) && SameFlows(s, t) && t.nextEpoch == s.nextEpoch
    ensures Ends(r, v, s, sub)
  {
    hide Finish;
  }

  // ---------------------------------------------------------------------------------------------
  // From the inside out.

  lemma JoinEnds(limits: Limits, s: Registry, sub: Submission, permit: Option<nat>)
    requires Joinable(limits, s, sub, permit)
    ensures !Outdated(s, sub.via, sub.Key())
    ensures Ends(Join(limits, s, sub, permit), AtItsFlow(limits, s, sub), s, sub)
  {
    hide Within, InHand, Fresh, Splittable, Join, EntryOk, Finish, Inactive;
    var key := sub.Key();
    KeyFacts(limits, s, permit, sub.via, key);
    if key in s.claims {
      if s.claims[key].active || s.claims[key].metadata != sub.Meta() {
        JoinDenied(limits, s, sub, permit);
        NoPartner(s, sub);
      } else {
        assert sub.header.kind == sub.via by { SplittableKind(s, sub); }
        var q := Pend(s, sub.via)[key];
        SameMetadata(s, sub, q);
        if if sub.header.role.Open? then q.uplink.Some? else q.downlink.Some? {
          JoinDuplicate(limits, s, sub, permit);
        } else {
          CompletingHere(s, sub, q);
          JoinPair(limits, s, sub, permit, q);
        }
      }
    } else if |Inactive(s.claims, sub.session)| >= limits.maxPending {
      JoinDenied(limits, s, sub, permit);
    } else {
      JoinNew(limits, s, sub, permit);
      StartInstalls(s, sub, permit);
    }
  }

  lemma StartInstalls(s: Registry, sub: Submission, permit: Option<nat>)
    requires Splittable(s, sub)
    ensures var t := StartWaiting(s, sub, permit);
            InPlace(t, sub, s.nextEpoch + 1) && t.nextEpoch == s.nextEpoch + 2
  {
    StartFields(s, sub, permit);
  }

  lemma NoPartner(s: Registry, sub: Submission)
    requires sub.Key() in s.claims && (s.claims[sub.Key()].active || s.claims[sub.Key()].metadata != sub.Meta())
    requires sub.Key() in Pend(s, sub.via) ==>
               EntryOk(sub.via, sub.Key(), Pend(s, sub.via)[sub.Key()], s.claims, s.timers, |s.links.budgets|)
    ensures !Partner(s, sub)
  {
  }

  lemma SameMetadata(s: Registry, sub: Submission, q: Pending)
    requires EntryOk(sub.via, sub.Key(), q, s.claims, s.timers, |s.links.budgets|)
    ensures q.metadata == s.claims[sub.Key()].metadata
  {
  }

  /** Clearing a stale half comes down to forgetting its flow. */
  lemma ClearedVerdict(limits: Limits, s: Registry, sub: Submission, hand: Option<nat>)
    requires limits.Valid() && Within(limits, s, hand)
    ensures var t := ClearStale(s, sub.via, sub.Key());
            && t.rejections == s.rejections && t.nextEpoch == s.nextEpoch
            && (Outdated(s, sub.via, sub.Key()) ==>
                  sub.Key() !in t.claims && |Inactive(t.claims, sub.session)| < limits.maxPending)
            && (!Outdated(s, sub.via, sub.Key()) ==> t == s)
  {
    var kind, key := sub.via, sub.Key();
    BooksHold(limits, s, hand);
    hide Within, Books, Fresh, EntryOk, Inactive, Forget;
    if key in Pend(s, kind) {
      EntryFacts(limits, s, hand, kind, key);
      if Outdated(s, kind, key) {
        ClearStaleDropsHalf(s, kind, key);
        ForgetFields(s, kind, key);
        QuotaLess(limits, s, key);
      } else {
        ClearStaleKeepsHalf(s, kind, key);
      }
    }
  }

  lemma QuotaLess(limits: Limits, s: Registry, key: FlowKey)
    requires limits.Valid() && Books(limits, s) && (key in s.tcp || key in s.udp)
    ensures |Inactive(s.claims - {key}, key.session)| < limits.maxPending
  {
    hide Books, QuotaOk;
    HalfOpenInactive(limits, s, key);
    QuotaOf(limits, s, key.session);
    assert Inactive(s.claims - {key}, key.session) == Inactive(s.claims, key.session) - {key};
  }

  lemma QuotaOf(limits: Limits, s: Registry, x: SessionId)
    requires Books(limits, s)
    ensures |Inactive(s.claims, x)| <= limits.maxPending
  {
    hide EntriesOk, ClaimsOk, LeasesOk, DistinctClaims, TombstonesOk;
  }

  lemma BuriedIs(s: Registry, key: FlowKey, consume: bool, now: int)
    ensures TerminalRejection(s, key, consume, now).1 == Buried(s, key, now)
  {
  }

  lemma CarrierIs(s: Registry, sub: Submission)
    requires Invalid(s, sub).None?
    ensures LinkCurrent(s.links, sub.session, sub.generation) <==> CarrierUp(s.links, sub)
  {
  }

  /** A verdict at the flow does not depend on tombstones. */
  lemma VerdictFrame(limits: Limits, s: Registry, t: Registry, sub: Submission)
    requires t == s.(rejections := t.rejections)
    ensures AtItsFlow(limits, t, sub) == AtItsFlow(limits, s, sub)
  {
  }

  lemma FreeKeyWaits(limits: Limits, s: Registry, sub: Submission)
    requires sub.Key() !in s.claims && |Inactive(s.claims, sub.session)| < limits.maxPending
    ensures AtItsFlow(limits, s, sub) == Wait
  {
  }

  lemma OutdatedWaits(limits: Limits, s: Registry, sub: Submission)
    requires Outdated(s, sub.via, sub.Key())
    ensures AtItsFlow(limits, s, sub) == Wait
  {
  }

  /** The locked section once stale halves are cleared. */
  lemma ClearedEnds(limits: Limits, s: Registry, sub: Submission, permit: Option<nat>, now: int)
    requires Within(limits, s, permit) && InHand(s, sub.downlink) && Splittable(s, sub) && RightPermit(sub, permit)
    requires sub in s.history
    requires sub.Key() in Pend(s, sub.via) ==> Fresh(Pend(s, sub.via)[sub.Key()], Current(s.links, sub.session))
    ensures var (t, rejection) := TerminalRejection(s, sub.Key(), sub.header.role.Attach?, now);
            && rejection == Buried(s, sub.Key(), now)
            && (rejection.None? ==> Ends(Join(limits, t, sub, permit), AtItsFlow(limits, s, sub), s, sub))
  {
    hide Within, Books, InHand, Join, Fresh, AtItsFlow, Finish, Buried, TerminalRejection, Splittable, Outdated;
    var key, consume := sub.Key(), sub.header.role.Attach?;
    BooksHold(limits, s, permit);
    PruneKeeps(limits, s, key, consume, now, permit, sub.downlink);
    PruneFrame(limits, s, key, consume, now);
    BuriedIs(s, key, consume, now);
    var (t, rejection) := TerminalRejection(s, key, consume, now);
    if rejection.None? {
      SplittableFrame(s, t, sub);
      JoinEnds(limits, t, sub, permit);
      VerdictFrame(limits, s, t, sub);
      EndsFrame(Join(limits, t, sub, permit), AtItsFlow(limits, s, sub), s, t, sub);
    }
  }

  lemma InstallEnds(limits: Limits, s: Registry, sub: Submission, permit: Option<nat>, now: int)
    requires limits.Valid() && Within(limits, s, permit)
    requires sub.header.Valid() && !sub.header.role.Duplex? && sub.Shaped()
    requires sub in s.history && InHand(s, sub.downlink) && RightPermit(sub, permit) && Invalid(s, sub).None?
    ensures Ends(Install(limits, s, sub, permit, now), Half(limits, s, sub, now), s, sub)
  {
    hide Within, InHand, Join, Fresh, AtItsFlow, Finish, ClearStale, Buried, TerminalRejection, Outdated, Inactive,
      Invalid, Splittable, LinkCurrent, CarrierUp, RightPermit;
    var key := sub.Key();
    CarrierIs(s, sub);
    if LinkCurrent(s.links, key.session, sub.generation) {
      var s1 := ClearStale(s, sub.via, key);
      SplittableHere(s, sub);
      ClearStaleKeeps(limits, s, sub.via, key, permit, sub.downlink);
      ClearedVerdict(limits, s, sub, permit);
      SplittableFrame(s, s1, sub);
      ClearedEnds(limits, s1, sub, permit, now);
      BuriedFrame(s, s1, key, now);
      if Outdated(s, sub.via, key) {
        FreeKeyWaits(limits, s1, sub);
        OutdatedWaits(limits, s, sub);
      }
    }
  }

  lemma BuriedFrame(s: Registry, t: Registry, key: FlowKey, now: int)
    requires t.rejections == s.rejections
    ensures Buried(t, key, now) == Buried(s, key, now)
  {
  }

  lemma DuplexEnds(limits: Limits, s: Registry, sub: Submission, permit: Option<nat>)
    requires Within(limits, s, permit) && sub.header.Valid() && sub.header.role.Duplex? && sub.Shaped()
    requires Invalid(s, sub).None?
    ensures Ends(InstallDuplex(limits, s, sub, permit), Both(limits, s, sub), s, sub)
  {
    hide Within, InstallDuplex, Invalid, EntryOk, Inactive, Finish;
    var key := sub.Key();
    KeyFacts(limits, s, permit, Tcp, key);
    if key in s.claims || |Inactive(s.claims, sub.session)| >= limits.maxPending {
      if key in s.claims {
        DuplexApart(limits, s, permit, sub);
      }
      DuplexDenied(limits, s, sub, permit);
    } else {
      DuplexNew(limits, s, sub, permit);
    }
  }

  // ---------------------------------------------------------------------------------------------
  // The whole call.

  lemma PermitFrame(limits: Limits, s: Registry, b: nat, sub: Submission, now: int)
    requires b < |s.links.budgets| && s.links.budgets[b] > 0
    ensures Half(limits, Acquire(s, b), sub, now) == Half(limits, s, sub, now)
    ensures Both(limits, Acquire(s, b), sub) == Both(limits, s, sub)
  {
    hide Inactive, Fresh;
  }

  lemma InstalledEnds(limits: Limits, s: Registry, sub: Submission, permit: Option<nat>, now: int)
    requires limits.Valid() && Within(limits, s, permit) && sub.header.Valid() && sub.Shaped()
    requires sub in s.history && InHand(s, sub.downlink) && RightPermit(sub, permit) && Invalid(s, sub).None?
    ensures Ends(if sub.header.role.Duplex? then InstallDuplex(limits, s, sub, permit)
                 else Install(limits, s, sub, permit, now),
                 if sub.header.role.Duplex? then Both(limits, s, sub) else Half(limits, s, sub, now), s, sub)
  {
    hide Ends, Both, Half, Within, InHand;
    if sub.header.role.Duplex? {
      DuplexEnds(limits, s, sub, permit);
    } else {
      InstallEnds(limits, s, sub, permit, now);
    }
  }

  lemma AcquireEnds(limits: Limits, s: Registry, sub: Submission, now: int)
    requires limits.Valid() && Inv(limits, s) && sub.header.Valid() && sub.Shaped()
    requires sub in s.history && InHand(s, sub.downlink) && Invalid(s, sub).None?
    ensures Ends(AcquireAndInstall(limits, s, sub, now), Rest(limits, s, sub, now), s, sub)
  {
    hide Within, InHand, Install, InstallDuplex, Invalid, Both, Half, Finish;
    if sub.via.Udp? && !sub.header.role.Attach? {
      if NoPermit(s.links, sub).None? {
        var b := s.links.counts[sub.session].budget;
        AcquireKeeps(limits, s, b, sub.downlink);
        InvalidFrame(s, Acquire(s, b), sub);
        InstalledEnds(limits, Acquire(s, b), sub, Some(b), now);
        PermitFrame(limits, s, b, sub, now);
      }
    } else {
      InstalledEnds(limits, s, sub, None, now);
    }
  }

  lemma RestFrame(limits: Limits, s: Registry, t: Registry, sub: Submission, now: int)
    requires t == s.(rejections := t.rejections) && Buried(t, sub.Key(), now) == Buried(s, sub.Key(), now)
    ensures Rest(limits, t, sub, now) == Rest(limits, s, sub, now)
  {
    hide Inactive, Fresh;
  }

  lemma PrunedNone(s: Registry, key: FlowKey, consume: bool, now: int)
    requires Buried(s, key, now).None?
    ensures Buried(TerminalRejection(s, key, consume, now).0, key, now).None?
  {
  }

  lemma AdmitEnds(limits: Limits, s: Registry, sub: Submission, now: int)
    requires limits.Valid() && Inv(limits, s) && sub.header.Valid() && sub.Shaped()
    requires sub in s.history && InHand(s, sub.downlink) && Invalid(s, sub).None?
    ensures var role, buried := sub.header.role, Buried(s, sub.Key(), now);
            Ends(Admit(limits, s, sub, now),
                 if buried.Some? && (role.Duplex? || (role.Open? && sub.via.Udp?)) then Refuse(buried.value, false)
                 else Rest(limits, s, sub, now), s, sub)
  {
    hide Within, Books, InHand, AcquireAndInstall, Invalid, Rest, Buried, TerminalRejection, Finish;
    var key, role := sub.Key(), sub.header.role;
    if role.Duplex? || (role.Open? && sub.via.Udp?) {
      BooksHold(limits, s, None);
      PruneFrame(limits, s, key, role.Duplex?, now);
      PruneKeeps(limits, s, key, role.Duplex?, now, None, sub.downlink);
      BuriedIs(s, key, role.Duplex?, now);
      var (s1, rejection) := TerminalRejection(s, key, role.Duplex?, now);
      if rejection.None? {
        InvalidFrame(s, s1, sub);
        PrunedNone(s, key, role.Duplex?, now);
        RestFrame(limits, s, s1, sub, now);
        AcquireEnds(limits, s1, sub, now);
      }
    } else {
      AcquireEnds(limits, s, sub, now);
    }
  }

  /** The source's validation decides the table's first rows. */
  lemma ValidationIs(s: Registry, sub: Submission)
    ensures Invalid(s, sub) == (if Misfit(sub) then Some(InvalidRequest)
                                else if !OnItsCarrier(s.links, sub) then Some(SessionReplaced) else None)
    ensures sub.Shaped() <==> HalvesFit(sub)
  {
  }

  lemma DecideFrame(limits: Limits, s: Registry, sub: Submission, now: int)
    ensures Decide(limits, s.(history := s.history + {sub}), sub, now) == Decide(limits, s, sub, now)
  {
    hide Inactive, Fresh;
  }

  lemma PrepareEnds(limits: Limits, s: Registry, sub: Submission, now: int)
    requires limits.Valid() && Inv(limits, s) && sub.header.Valid() && NewDownlink(s, sub)
    ensures Ends(Prepare(limits, s, sub, now), Decide(limits, s, sub, now), s, sub)
  {
    hide Within, InHand, NewDownlink, Admit, Invalid, Rest, Buried, Finish;
    hide Misfit, OnItsCarrier, HalvesFit, Submission.Shaped;
    var s0 := s.(history := s.history + {sub});
    HistoryKeeps(limits, s, sub);
    ValidationIs(s0, sub);
    DecideFrame(limits, s, sub, now);
    if Invalid(s0, sub).None? && sub.Shaped() {
      AdmitEnds(limits, s0, sub, now);
    }
  }

  /** The table decides every submission: `Paired`, `Waiting` and each refusal arise exactly where it says so. */
  lemma TableDecides(limits: Limits, s: Registry, sub: Submission, now: int, hint: FlowKey)
    requires limits.Valid() && Inv(limits, s) && sub.header.Valid() && NewDownlink(s, sub)
    ensures var outcome, v := Submit(limits, s, sub, now, hint).1, Decide(limits, s, sub, now);
            && (outcome.Paired? <==> v.Pair?)
            && (outcome == Waiting(s.nextEpoch + 1) <==> v.Wait?)
            && (outcome.Waiting? ==> v.Wait? && InPlace(Submit(limits, s, sub, now, hint).0, sub, outcome.epoch))
            && (forall code :: outcome == Rejected(code) <==> v.Refuse? && v.code == code)
  {
    hide Within, NewDownlink, Prepare, Decide, RejectSetup, Release, WriteResult;
    PrepareEnds(limits, s, sub, now);
    hide Finish;
  }

  // ---------------------------------------------------------------------------------------------
  // A duplex flow.

  lemma DuplexFacts(limits: Limits, s: Registry, sub: Submission, now: int)
    requires sub.header.role.Duplex? && Decide(limits, s, sub, now).Pair?
    ensures Invalid(s, sub).None? && sub.Shaped() && sub.Key() !in Live(s.rejections, now) && HasPermit(s, sub)
    ensures sub.via.Udp? ==> sub.session in s.links.counts
    ensures sub.Key() !in s.claims && |Inactive(s.claims, sub.session)| < limits.maxPending
  {
    hide Inactive;
    ValidationIs(s, sub);
  }

  lemma PrepareDuplex(limits: Limits, s: Registry, sub: Submission, now: int)
    requires sub.header.role.Duplex? && Invalid(s, sub).None? && sub.Shaped() && HasPermit(s, sub)
    requires sub.Key() !in Live(s.rejections, now) && (sub.via.Udp? ==> sub.session in s.links.counts)
    ensures Prepare(limits, s, sub, now) == InstallDuplex(limits, Primed(s, sub, now), sub, Needs(s, sub))
  {
    hide InstallDuplex, Install, Live, TerminalRejection;
    var s0 := s.(history := s.history + {sub});
    InvalidFrame(s, s0, sub);
    hide Invalid, Submission.Shaped;
    PruneMissing(s0, sub.Key(), true, now);
  }

  /** A duplex flow the table lets through runs at once: both halves are its own, under one fresh epoch, on the
      current generation, with its permit in its lease. */
  lemma DuplexPairs(limits: Limits, s: Registry, sub: Submission, now: int, hint: FlowKey)
    requires limits.Valid() && Inv(limits, s) && sub.header.Valid() && NewDownlink(s, sub)
    requires sub.header.role.Duplex? && Decide(limits, s, sub, now).Pair?
    ensures sub.downlink.Some?
    ensures var (t, outcome) := Submit(limits, s, sub, now, hint);
            var c := FlowClaim(s.nextEpoch, sub.Meta(), sub.target, true, s.nextEpoch, Listed(sub.generation));
            && outcome.Paired? && outcome.flow.key == sub.Key() && MadeOf(s.links, outcome.flow, sub, sub)
            && outcome.flow.epoch == s.nextEpoch
            && t == StartRunning(Primed(s, sub, now), sub.via, sub.Key(), c,
                                 FlowLease(sub.Key(), s.nextEpoch, Needs(s, sub)), s.nextEpoch + 1, sub.downlink.value)
  {
    hide Within, NewDownlink, Prepare, InstallDuplex, Live, Inactive, StartRunning, MadeOf, Invalid, Decide, EntryOk;
    var u := Primed(s, sub, now);
    DuplexFacts(limits, s, sub, now);
    PrepareDuplex(limits, s, sub, now);
    KeyFacts(limits, s, None, sub.via, sub.Key());
    InvalidFrame(s, u, sub);
    DuplexNew(limits, u, sub, Needs(s, sub));
    MadeFrame(s.links, u.links, sub, sub);
    hide Finish;
  }

  /** Who made a flow does not depend on the budgets. */
  lemma MadeFrame(l: LinkTable, m: LinkTable, o: Submission, a: Submission)
    requires l.counts == m.counts
    ensures forall flow :: MadeOf(m, flow, o, a) ==> MadeOf(l, flow, o, a)
  {
  }

  // ---------------------------------------------------------------------------------------------
  // A refusal.

  /** `reject_flow_setup`, exactly: a running flow is left alone; any other is forgotten, and its failure goes to
      the downlink that waits or into a tombstone. */
  lemma RejectsExactly(limits: Limits, s: Registry, key: FlowKey, code: FlowErrorCode, now: int, hint: FlowKey)
    requires Books(limits, s)
    ensures var t := RejectSetup(limits, s, key, code, now, hint);
            if key in s.claims && s.claims[key].active then t == s
            else
              && t.tcp == s.tcp - {key} && t.udp == s.udp - {key} && t.claims == s.claims - {key}
              && match DownlinkOf(s, key)
                 case Some(d) => t.answers == s.answers + [Answer(d, code)] && t.rejections == s.rejections
                 case None => t.answers == s.answers && t.rejections == Bury(limits, s.rejections, key, code, now, hint)
  {
    hide Books, Bury, Release, Forget, RejectSetup, DropEntry;
    HalfOpenInactive(limits, s, key);
    OneKind(limits, s, key);
    if key in s.claims && s.claims[key].active {
      RejectRunning(limits, s, key, code, now, hint);
    } else if key in s.tcp || key in s.udp {
      var kind := if key in s.tcp then Tcp else Udp;
      RejectHalfOpen(limits, s, kind, key, code, now, hint);
      ForgetBoth(s, kind, key);
    } else {
      RejectUnknown(limits, s, key, code, now, hint);
      MinusAbsent(s.tcp, key);
      MinusAbsent(s.udp, key);
      MinusAbsent(s.claims, key);
    }
  }

  lemma RejectRunning(limits: Limits, s: Registry, key: FlowKey, code: FlowErrorCode, now: int, hint: FlowKey)
    requires key in s.claims && s.claims[key].active
    ensures RejectSetup(limits, s, key, code, now, hint) == s
  {
  }

  lemma BuriedCode(
    limits: Limits, m: map<FlowKey, Tombstone>, key: FlowKey, code: FlowErrorCode, now: int, hint: FlowKey)
    ensures var r := Bury(limits, m, key, code, now, hint);
            key in r && r[key] == Tombstone(code, now + limits.timeout)
  {
  }

  /** Nothing but the answer and the budgets. */
  lemma Answering(s: Registry, d: Option<Stream>, code: FlowErrorCode, hand: Option<nat>)
    ensures var t := Release(WriteResult(s, d, code), hand);
            && t.tcp == s.tcp && t.udp == s.udp && t.claims == s.claims && t.rejections == s.rejections
            && t.answers == s.answers + (if d.Some? then [Answer(d.value, code)] else [])
  {
    ReleaseFrame(WriteResult(s, d, code), hand);
    hide Release;
    assert s.answers + [] == s.answers;
  }

  /** How a refused submission leaves its own flow and whom it tells. */
  ghost predicate Told(s: Registry, t: Registry, sub: Submission, code: FlowErrorCode, abort: bool) {
    var key := sub.Key();
    && (!sub.header.role.Open? && sub.downlink.Some? ==> Answer(sub.downlink.value, code) in t.answers)
    && (abort && !(key in s.claims && s.claims[key].active) ==>
          && key !in t.tcp && key !in t.udp && key !in t.claims
          && match DownlinkOf(s, key)
             case Some(d) => Answer(d, code) in t.answers
             case None => key in t.rejections && t.rejections[key].code == code)
  }

  /** A refused ATTACH or DUPLEX is told why. A flow that is given up is gone, and the reason is with its waiting
      downlink or in a tombstone for the half that is still to come. */
  lemma RefusedIsTold(limits: Limits, s: Registry, sub: Submission, now: int, hint: FlowKey)
    requires limits.Valid() && Inv(limits, s) && sub.header.Valid() && NewDownlink(s, sub)
    requires Decide(limits, s, sub, now).Refuse?
    ensures var v := Decide(limits, s, sub, now);
            Told(s, Submit(limits, s, sub, now, hint).0, sub, v.code, v.abort)
  {
    hide Within, Books, NewDownlink, Prepare, Decide, RejectSetup, Release, WriteResult, Bury;
    PrepareEnds(limits, s, sub, now);
    PrepareGood(limits, s, sub, now);
    var r, key := Prepare(limits, s, sub, now), sub.Key();
    BooksHold(limits, r.state, r.hand);
    RejectsExactly(limits, r.state, key, r.code, now, hint);
    BuriedCode(limits, r.state.rejections, key, r.code, now, hint);
    var u := if r.abort then RejectSetup(limits, r.state, key, r.code, now, hint) else r.state;
    Answering(u, r.downlink, r.code, r.hand);
  }

  // ---------------------------------------------------------------------------------------------
  // A tombstone.

  /** Nothing keeps the submission from meeting the tombstone of its flow. */
  predicate MeetsTombstone(s: Registry, sub: Submission, now: int) {
    && !Misfit(sub) && OnItsCarrier(s.links, sub) && HalvesFit(sub) && Buried(s, sub.Key(), now).Some?
    && (sub.header.role.Duplex? || (sub.header.role.Open? && sub.via.Udp?) || CarrierUp(s.links, sub))
  }

  lemma BuriedHasNoFlow(limits: Limits, s: Registry, key: FlowKey, now: int)
    requires Inv(limits, s) && Buried(s, key, now).Some?
    ensures key !in s.claims && key !in s.tcp && key !in s.udp
  {
    BooksHold(limits, s, None);
    hide Within;
    HalfOpenInactive(limits, s, key);
    hide EntriesOk, ClaimsOk, LeasesOk, DistinctClaims, QuotaOk;
  }

  lemma PreparedTombstone(limits: Limits, s: Registry, sub: Submission, now: int)
    requires MeetsTombstone(s, sub, now) && sub.Key() !in Pend(s, sub.via)
    ensures var s0 := s.(history := s.history + {sub});
            Prepare(limits, s, sub, now)
            == Fails(TerminalRejection(s0, sub.Key(), !sub.header.role.Open?, now).0, Buried(s, sub.Key(), now).value,
                     sub.downlink, false, None)
  {
    var s0, key, role := s.(history := s.history + {sub}), sub.Key(), sub.header.role;
    ValidationIs(s0, sub);
    CarrierIs(s0, sub);
    BuriedIs(s0, key, true, now);
    BuriedIs(s0, key, false, now);
    BuriedFrame(s, s0, key, now);
    hide Buried, TerminalRejection, Invalid, Join, InstallDuplex, LinkCurrent, CarrierUp, Submission.Shaped;
    assert ClearStale(s0, sub.via, key) == s0;
    hide ClearStale;
  }

  /** A tombstone refuses every half that meets it with its code. An ATTACH or DUPLEX uses it up, an OPEN leaves it
      for the half that can carry the answer; nothing else changes. */
  lemma TombstoneAnswers(limits: Limits, s: Registry, sub: Submission, now: int, hint: FlowKey)
    requires Inv(limits, s) && MeetsTombstone(s, sub, now)
    ensures var (t, outcome) := Submit(limits, s, sub, now, hint);
            var code, live := Buried(s, sub.Key(), now).value, Live(s.rejections, now);
            && outcome == Rejected(code)
            && t == s.(history := s.history + {sub},
                       rejections := if sub.header.role.Open? then live else live - {sub.Key()},
                       answers := s.answers + if sub.downlink.Some? then [Answer(sub.downlink.value, code)] else [])
  {
    hide Within, Prepare, Buried, MeetsTombstone, Live;
    HasTombstone(s, sub, now);
    BuriedHasNoFlow(limits, s, sub.Key(), now);
    PreparedTombstone(limits, s, sub, now);
    assert s.answers + [] == s.answers;
  }

  lemma HasTombstone(s: Registry, sub: Submission, now: int)
    requires MeetsTombstone(s, sub, now)
    ensures Buried(s, sub.Key(), now).Some?
  {
  }
}
