/** What ends a flow, exactly: CLOSE, a refused activation, shutdown. */
module PairingEndings {
  import opened Wrappers
  import opened Flow
  import opened Counting
  import opened Links
  import opened Pairing
  import opened PairingInvariant
  import opened PairingSteps
  import opened PairingSubmit
  import opened PairingRuns

  /** The flow is on its way through a relay that nobody has told to stop. */
  predicate Runs(s: Registry, key: FlowKey) {
    key in s.claims && s.claims[key].active && s.claims[key].token !in s.cancelled
  }

  /** One unit more in the budget the permit came from. */
  function Returned(budgets: seq<nat>, permit: Option<nat>): seq<nat> {
    if permit.Some? && permit.value < |budgets| then budgets[permit.value := budgets[permit.value] + 1] else budgets
  }

  /** CLOSE, exactly: a running flow is cancelled and nothing else happens; a half-open UDP flow goes with its claim
      and its permit returns; of a half-open TCP flow the claim goes; an unknown flow changes nothing. */
  lemma CloseExactly(limits: Limits, s: Registry, key: FlowKey)
    requires Inv(limits, s)
    ensures var t := CancelUdp(s, key);
            if key in s.udp then
              t == s.(udp := s.udp - {key}, claims := s.claims - {key},
                      links := s.links.(budgets := Returned(s.links.budgets, s.udp[key].permit)))
            else if key !in s.claims then t == s
            else if s.claims[key].active then t == s.(cancelled := s.cancelled + {s.claims[key].token}) && !Runs(t, key)
            else key in s.tcp && t == s.(claims := s.claims - {key})
  {
    hide Within, Books, CancelUdp, Returned;
    BooksHold(limits, s, None);
    HalfOpenInactive(limits, s, key);
    if key in s.udp {
      CloseHalfOpen(s, key);
    } else {
      CloseOther(s, key);
    }
  }

  lemma CloseHalfOpen(s: Registry, key: FlowKey)
    requires key in s.udp && key in s.claims && !s.claims[key].active
    ensures CancelUdp(s, key) == s.(udp := s.udp - {key}, claims := s.claims - {key},
                                    links := s.links.(budgets := Returned(s.links.budgets, s.udp[key].permit)))
  {
  }

  lemma CloseOther(s: Registry, key: FlowKey)
    requires key !in s.udp
    ensures var t := CancelUdp(s, key);
            if key !in s.claims then t == s
            else if s.claims[key].active then t == s.(cancelled := s.cancelled + {s.claims[key].token}) && !Runs(t, key)
            else t == s.(claims := s.claims - {key})
  {
  }

  /** A generation the flow was made on is not the current one any more. */
  predicate Outrun(l: LinkTable, d: Completed) {
    exists i :: 0 <= i < |d.generations| && Current(l, d.key.session) != Some(d.generations[i])
  }

  /** An activation is refused exactly when a generation was replaced meanwhile or the claim is gone. Then the claim
      is given up, the downlink told once and the permit returned; nothing else changes and no flow is handed out. */
  lemma RefusedGivesUp(s: Registry, d: Completed)
    ensures ActivateClaim(s, d.key, d.epoch, d.generations).Refused? <==> d.key !in s.claims || Outrun(s.links, d)
    ensures var r := ActivateClaim(s, d.key, d.epoch, d.generations);
            r.Refused? ==>
              && Finish(s, d).1 == Rejected(r.code)
              && r.code == (if Outrun(s.links, d) then SessionReplaced else InternalError)
              && Finish(s, d).0 ==
                 s.(claims := if d.key in s.claims && !s.claims[d.key].active && s.claims[d.key].epoch == d.epoch
                              then s.claims - {d.key} else s.claims,
                    answers := s.answers + (if d.downlink.Some? then [Answer(d.downlink.value, r.code)] else []),
                    links := s.links.(budgets := Returned(s.links.budgets, d.permit)))
  {
    assert s.answers + [] == s.answers;
  }

  /** After shutdown nothing runs or waits: every claim that is left is cancelled, and every half-open flow and
      tombstone is gone. Running flows keep their claims until their leases are dropped. */
  lemma ShutdownStopsAll(s: Registry)
    ensures var t := CancelAll(s);
            && t.tcp == map[] && t.udp == map[] && t.rejections == map[]
            && (forall k :: !Runs(t, k))
            && (forall k :: k in t.claims <==> k in s.claims && s.claims[k].active)
            && (forall k :: k in t.claims ==> t.claims[k] == s.claims[k])
            && (forall k :: k in s.claims ==> s.claims[k].token in t.cancelled)
            && s.cancelled <= t.cancelled && t.leases == s.leases && t.answers == s.answers
  {
    hide Refunded;
    var t := CancelAll(s);
    forall k | k in s.claims
      ensures s.claims[k].token in t.cancelled
    {
      assert s.claims[k].token in AllTokens(s.claims);
    }
  }
}
