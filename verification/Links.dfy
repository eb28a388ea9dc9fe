/** The link table of the pairing registry: authenticated carriers per session, the current QUIC
    generation, the UDP flow budgets and the link statistics (src/portal/pairing/link.rs). */
module Links {
  import opened Wrappers
  import opened Counting

  /** A 16-byte session identifier; only equality is used. */
  type SessionId = nat

  /** `budget` names the semaphore made with this entry: an index into `LinkTable.budgets`. */
  datatype LinkCounts = LinkCounts(tcp: nat, quic: Option<nat>, budget: nat)

  datatype Stats = Stats(pairs: int, tcp: int, quic: int)

  /** `tcpGuards` and `quicGuards` are the link guards not dropped yet, the latter by generation. */
  datatype LinkTable = LinkTable(
    counts: map<SessionId, LinkCounts>,
    nextGeneration: nat,
    budgets: seq<nat>,
    tcpGuards: multiset<SessionId>,
    quicGuards: map<nat, SessionId>,
    stats: Stats)

  const EMPTY := LinkTable(map[], 1, [], multiset{}, map[], Stats(0, 0, 0))

  predicate IsPaired(c: LinkCounts) {
    c.tcp > 0 && c.quic.Some?
  }

  function Current(l: LinkTable, x: SessionId): Option<nat> {
    if x in l.counts then l.counts[x].quic else None
  }

  function WithEntry(l: LinkTable, x: SessionId, maxUdpFlows: nat): (r: LinkTable)
    ensures x in r.counts && forall y :: Current(r, y) == Current(l, y)
  {
    if x in l.counts then l
    else l.(counts := l.counts[x := LinkCounts(0, None, |l.budgets|)], budgets := l.budgets + [maxUdpFlows])
  }

  function RegisterTcpLink(l: LinkTable, x: SessionId, maxUdpFlows: nat): LinkTable {
    var l1 := WithEntry(l, x, maxUdpFlows);
    var c := l1.counts[x];
    var gained := if !IsPaired(c) && c.quic.Some? then 1 else 0;
    l1.(counts := l1.counts[x := c.(tcp := c.tcp + 1)],
        tcpGuards := l1.tcpGuards + multiset{x},
        stats := l1.stats.(pairs := l1.stats.pairs + gained, tcp := l1.stats.tcp + 1))
  }

  /** Makes generation `g` current and reports the one it displaces. */
  function SwapIn(l: LinkTable, x: SessionId, maxUdpFlows: nat, g: nat): (LinkTable, Option<nat>) {
    var l1 := WithEntry(l, x, maxUdpFlows);
    var c := l1.counts[x];
    var gained := if c.quic.None? && !IsPaired(c) && c.tcp > 0 then 1 else 0;
    var added := if c.quic.None? then 1 else 0;
    (l1.(counts := l1.counts[x := c.(quic := Some(g))],
         quicGuards := l1.quicGuards[g := x],
         stats := l1.stats.(pairs := l1.stats.pairs + gained, quic := l1.stats.quic + added)),
     c.quic)
  }

  function TakeGeneration(l: LinkTable): LinkTable {
    l.(nextGeneration := l.nextGeneration + 1)
  }

  /** Takes a fresh generation and makes it current. */
  function SwapQuic(l: LinkTable, x: SessionId, maxUdpFlows: nat): (LinkTable, Option<nat>) {
    SwapIn(TakeGeneration(l), x, maxUdpFlows, l.nextGeneration)
  }

  /** Shared tail of a guard drop: `c` has lost one carrier. */
  function AfterDrop(l: LinkTable, x: SessionId, c: LinkCounts): LinkTable
    requires x in l.counts
  {
    var lost := if IsPaired(l.counts[x]) && !IsPaired(c) then 1 else 0;
    l.(counts := if c.tcp == 0 && c.quic.None? then l.counts - {x} else l.counts[x := c],
       stats := l.stats.(pairs := l.stats.pairs - lost))
  }

  function DropTcpLink(l: LinkTable, x: SessionId): LinkTable {
    var l1 := l.(tcpGuards := l.tcpGuards - multiset{x});
    if x !in l1.counts then l1
    else
      var c := l1.counts[x];
      var l2 := AfterDrop(l1, x, c.(tcp := if c.tcp == 0 then 0 else c.tcp - 1));
      l2.(stats := l2.stats.(tcp := l2.stats.tcp - 1))
  }

  /** A displaced guard leaves the table alone; the current one takes its session's QUIC link away. */
  function DropQuicLink(l: LinkTable, x: SessionId, g: nat): LinkTable {
    var l1 := l.(quicGuards := l.quicGuards - {g});
    if Current(l1, x) != Some(g) then l1
    else
      var l2 := AfterDrop(l1, x, l1.counts[x].(quic := None));
      l2.(stats := l2.stats.(quic := l2.stats.quic - 1))
  }

  // ---------------------------------------------------------------------------------------------
  // Every table the operations can build.

  ghost function PairedEntry(): (SessionId, LinkCounts) -> bool {
    (x: SessionId, c: LinkCounts) => IsPaired(c)
  }

  ghost function QuicEntry(): (SessionId, LinkCounts) -> bool {
    (x: SessionId, c: LinkCounts) => c.quic.Some?
  }

  ghost predicate LinkOk(l: LinkTable, x: SessionId)
    requires x in l.counts
  {
    var c := l.counts[x];
    && c.tcp == l.tcpGuards[x]
    && (c.tcp > 0 || c.quic.Some?)
    && c.budget < |l.budgets|
    && (c.quic.Some? ==> c.quic.value in l.quicGuards && l.quicGuards[c.quic.value] == x)
  }

  ghost predicate TalliesOk(l: LinkTable) {
    l.stats == Stats(Count(l.counts, PairedEntry()), |l.tcpGuards|, Count(l.counts, QuicEntry()))
  }

  /** Counts equal live guards, an entry exists exactly while it has a carrier, each current generation
      has its own live guard, and the statistics are the true numbers. */
  ghost predicate TableOk(l: LinkTable) {
    && (forall x :: x in l.counts ==> LinkOk(l, x))
    && (forall x :: x in l.tcpGuards ==> x in l.counts)
    && (forall g :: g in l.quicGuards ==> 0 < g < l.nextGeneration)
    && l.nextGeneration > 0
    && TalliesOk(l)
  }

  lemma UpdateCounts(m: map<SessionId, LinkCounts>, x: SessionId, c: LinkCounts)
    ensures Count(m[x := c], PairedEntry())
            == Count(m, PairedEntry()) - One(x in m && IsPaired(m[x])) + One(IsPaired(c))
    ensures Count(m[x := c], QuicEntry()) == Count(m, QuicEntry()) - One(x in m && m[x].quic.Some?) + One(c.quic.Some?)
    ensures Count(m - {x}, PairedEntry()) == Count(m, PairedEntry()) - One(x in m && IsPaired(m[x]))
    ensures Count(m - {x}, QuicEntry()) == Count(m, QuicEntry()) - One(x in m && m[x].quic.Some?)
  {
    CountUpdate(m, x, c, PairedEntry());
    CountUpdate(m, x, c, QuicEntry());
    CountRemove(m, x, PairedEntry());
    CountRemove(m, x, QuicEntry());
  }

  lemma InvEmpty()
    ensures TableOk(EMPTY)
  {
    assert Matching(EMPTY.counts, PairedEntry()) == {} && Matching(EMPTY.counts, QuicEntry()) == {};
  }

  lemma EntryTallies(l: LinkTable, x: SessionId, maxUdpFlows: nat)
    requires TalliesOk(l)
    ensures TalliesOk(WithEntry(l, x, maxUdpFlows))
  {
    UpdateCounts(l.counts, x, LinkCounts(0, None, |l.budgets|));
  }

  lemma RegisterTcpKeepsInv(l: LinkTable, x: SessionId, maxUdpFlows: nat)
    requires TableOk(l)
    ensures TableOk(RegisterTcpLink(l, x, maxUdpFlows))
  {
    var l1 := WithEntry(l, x, maxUdpFlows);
    EntryTallies(l, x, maxUdpFlows);
    UpdateCounts(l1.counts, x, l1.counts[x].(tcp := l1.counts[x].tcp + 1));
    var r := RegisterTcpLink(l, x, maxUdpFlows);
    forall y | y in r.counts
      ensures LinkOk(r, y)
    {
      assert y != x ==> LinkOk(l, y);
    }
  }

  lemma EntryOkAside(l: LinkTable, x: SessionId, maxUdpFlows: nat)
    requires TableOk(l)
    ensures var r := WithEntry(l, x, maxUdpFlows);
            && TalliesOk(r) && r.tcpGuards == l.tcpGuards && r.quicGuards == l.quicGuards
            && r.nextGeneration == l.nextGeneration && r.counts[x].budget < |r.budgets|
               && r.counts[x].tcp == r.tcpGuards[x]
            && forall y :: y in r.counts && y != x ==> LinkOk(r, y)
  {
    EntryTallies(l, x, maxUdpFlows);
    hide TalliesOk;
    var r := WithEntry(l, x, maxUdpFlows);
    forall y | y in r.counts && y != x
      ensures LinkOk(r, y)
    {
      assert LinkOk(l, y);
    }
    assert x in l.counts ==> LinkOk(l, x);
  }

  lemma SwapTallies(l: LinkTable, x: SessionId, maxUdpFlows: nat, g: nat)
    requires TalliesOk(l)
    ensures TalliesOk(SwapIn(l, x, maxUdpFlows, g).0)
  {
    EntryTallies(l, x, maxUdpFlows);
    var l1 := WithEntry(l, x, maxUdpFlows);
    UpdateCounts(l1.counts, x, l1.counts[x].(quic := Some(g)));
    hide Count, WithEntry;
  }

  lemma SwapInKeepsInv(l: LinkTable, x: SessionId, maxUdpFlows: nat, g: nat)
    requires TableOk(l) && 0 < g < l.nextGeneration && g !in l.quicGuards
    ensures TableOk(SwapIn(l, x, maxUdpFlows, g).0)
  {
    EntryOkAside(l, x, maxUdpFlows);
    SwapTallies(l, x, maxUdpFlows, g);
    hide WithEntry, TalliesOk;
    var l1, r := WithEntry(l, x, maxUdpFlows), SwapIn(l, x, maxUdpFlows, g).0;
    forall y | y in r.counts
      ensures LinkOk(r, y)
    {
      assert y != x ==> LinkOk(l1, y);
    }
  }

  lemma TakeKeepsInv(l: LinkTable)
    requires TableOk(l)
    ensures TableOk(TakeGeneration(l)) && l.nextGeneration !in l.quicGuards
  {
    assert forall x :: x in l.counts ==> LinkOk(l, x) && LinkOk(TakeGeneration(l), x);
  }

  lemma SwapQuicKeepsInv(l: LinkTable, x: SessionId, maxUdpFlows: nat)
    requires TableOk(l)
    ensures TableOk(SwapQuic(l, x, maxUdpFlows).0)
  {
    TakeKeepsInv(l);
    SwapInKeepsInv(TakeGeneration(l), x, maxUdpFlows, l.nextGeneration);
    hide TableOk, SwapIn;
  }

  /** Dropping a guard keeps the table right, and `saturating_sub` never saturates. */
  lemma DropTcpKeepsInv(l: LinkTable, x: SessionId)
    requires TableOk(l) && x in l.tcpGuards
    ensures x in l.counts && l.counts[x].tcp > 0
    ensures TableOk(DropTcpLink(l, x))
  {
    var c := l.counts[x];
    UpdateCounts(l.counts, x, c.(tcp := c.tcp - 1));
  }

  lemma DropQuicKeepsInv(l: LinkTable, x: SessionId, g: nat)
    requires TableOk(l) && g in l.quicGuards && l.quicGuards[g] == x
    ensures TableOk(DropQuicLink(l, x, g))
  {
    if Current(l, x) == Some(g) {
      UpdateCounts(l.counts, x, l.counts[x].(quic := None));
    }
  }

  // ---------------------------------------------------------------------------------------------
  // What each operation does to a session's carriers.

  function TcpOf(l: LinkTable, x: SessionId): nat {
    if x in l.counts then l.counts[x].tcp else 0
  }

  /** No other session is touched; this one is in the table exactly while it has a carrier. */
  ghost predicate OnlySession(l: LinkTable, r: LinkTable, x: SessionId) {
    && r.counts - {x} == l.counts - {x}
    && (x in r.counts <==> TcpOf(r, x) > 0 || Current(r, x).Some?)
    && (x in l.counts && x in r.counts ==> r.counts[x].budget == l.counts[x].budget)
  }

  /** One more TCP carrier and its guard; the QUIC generation stays. */
  lemma RegisterTcpCounts(l: LinkTable, x: SessionId, maxUdpFlows: nat)
    ensures var r := RegisterTcpLink(l, x, maxUdpFlows);
            && OnlySession(l, r, x) && TcpOf(r, x) == TcpOf(l, x) + 1 && Current(r, x) == Current(l, x)
            && r.tcpGuards == l.tcpGuards + multiset{x} && r.quicGuards == l.quicGuards
            && r.nextGeneration == l.nextGeneration
            && (x !in l.counts ==> r.counts[x].budget == |l.budgets| && r.budgets == l.budgets + [maxUdpFlows])
            && (x in l.counts ==> r.budgets == l.budgets)
  {
  }

  /** One TCP carrier fewer; the session goes with its last carrier. */
  lemma DropTcpCounts(l: LinkTable, x: SessionId)
    requires TableOk(l) && x in l.tcpGuards
    ensures var r := DropTcpLink(l, x);
            && OnlySession(l, r, x) && TcpOf(r, x) == TcpOf(l, x) - 1 && Current(r, x) == Current(l, x)
            && r.tcpGuards == l.tcpGuards - multiset{x} && r.quicGuards == l.quicGuards
            && r.nextGeneration == l.nextGeneration && r.budgets == l.budgets
  {
    GuardHasEntry(l, x);
    hide TableOk;
  }

  lemma GuardHasEntry(l: LinkTable, x: SessionId)
    requires TableOk(l) && x in l.tcpGuards
    ensures x in l.counts && l.counts[x].tcp > 0
  {
  }

  /** The next generation becomes current and the one before it is reported. */
  lemma SwapQuicCounts(l: LinkTable, x: SessionId, maxUdpFlows: nat)
    ensures var (r, previous) := SwapQuic(l, x, maxUdpFlows);
            && OnlySession(l, r, x) && TcpOf(r, x) == TcpOf(l, x) && Current(r, x) == Some(l.nextGeneration)
            && previous == Current(l, x) && r.nextGeneration == l.nextGeneration + 1
            && r.tcpGuards == l.tcpGuards && r.quicGuards == l.quicGuards[l.nextGeneration := x]
            && (x !in l.counts ==> r.counts[x].budget == |l.budgets| && r.budgets == l.budgets + [maxUdpFlows])
            && (x in l.counts ==> r.budgets == l.budgets)
  {
  }

  /** The guard of the current generation takes it away; any other leaves all carriers alone. */
  lemma DropQuicCounts(l: LinkTable, x: SessionId, g: nat)
    requires TableOk(l)
    ensures var r := DropQuicLink(l, x, g);
            && OnlySession(l, r, x) && TcpOf(r, x) == TcpOf(l, x)
            && Current(r, x) == (if Current(l, x) == Some(g) then None else Current(l, x))
            && r.tcpGuards == l.tcpGuards && r.quicGuards == l.quicGuards - {g}
            && r.nextGeneration == l.nextGeneration && r.budgets == l.budgets
  {
    EntryHasCarrier(l, x);
    hide TableOk;
  }

  lemma EntryHasCarrier(l: LinkTable, x: SessionId)
    requires TableOk(l)
    ensures x in l.counts ==> l.counts[x].tcp > 0 || l.counts[x].quic.Some?
  {
  }
}
