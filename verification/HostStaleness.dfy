/** When a request is stale, said of the rows: what the sweep may release and must not leave behind. */
module HostStaleness {
  import opened Collections
  import opened HostModel
  import opened ConductorModel
  import opened HostPromotion
  import opened HostInvariant
  import opened HostSweep

  predicate OwnLease(h: Host, y: Id, l: Id) { l in h.leases && h.leases[l].request == y }

  /** The lease that stands for a request: its own, or its parent's when it has none of its own. */
  predicate StandsFor(h: Host, y: Id, l: Id)
    requires y in h.requests
  {
    OwnLease(h, y, l) || (h.requests[y].parent == Some(l) && forall m | m in h.leases :: h.leases[m].request != y)
  }

  /** Fences and automatic releases are no sign of life. */
  predicate SignOfLife(e: HostEvent, y: Id) {
    e.request == y && e.reason !in {LeaseExpired, StaleSlotAutoReleased, CdpMaxHoldExceeded}
  }

  predicate PromotionOf(e: HostEvent, y: Id) { e.request == y && e.reason == HostResourcePromoted }

  predicate LeaseEventOf(e: HostEvent, y: Id) { e.request == y && e.lease.Some? }

  /** The request has shown no sign of life after time t: by asking, by a heartbeat of the lease that
      stands for it, by its owner being seen, or by an event. */
  predicate SilentSince(h: Host, y: Id, t: int)
    requires y in h.requests
  {
    && h.requests[y].createdAt <= t
    && (h.requests[y].ownerSeen.Some? ==> h.requests[y].ownerSeen.value <= t)
    && (forall l | l in h.leases && StandsFor(h, y, l) :: h.leases[l].lastHeartbeat <= t)
    && forall k | 0 <= k < |h.events| && SignOfLife(h.events[k], y) :: h.events[k].at <= t
  }

  predicate RanOut(h: Host, y: Id, now: int)
    requires y in h.requests
  {
    forall l | l in h.leases && StandsFor(h, y, l) :: h.leases[l].expiresAt <= now
  }

  predicate IsGone(env: Env, process: Option<Identity>) { process.Some? ==> env.liveness(process.value) == Gone }

  /** Every process recorded for the request is gone. A waiter with no recorded owner needs its own,
      longer silence; a child must have a process recorded of its own. */
  predicate NobodyLeft(h: Host, env: Env, y: Id)
    requires y in h.requests
  {
    var row := h.requests[y];
    && IsGone(env, row.owner)
    && match row.state
       case Queued =>
         row.owner.Some? || (env.config.queuedTtl > 0 && SilentSince(h, y, env.now - env.config.queuedTtl))
       case Inherited =>
         && (forall l | l in h.leases && OwnLease(h, y, l) :: IsGone(env, h.leases[l].process))
         && (row.owner.Some? || exists l :: l in h.leases && OwnLease(h, y, l) && h.leases[l].process.Some?)
       case _ => forall l | l in h.leases && StandsFor(h, y, l) :: IsGone(env, h.leases[l].process)
  }

  /** The request began to hold at time t or before: it was last promoted by then; or else first
      appeared with a lease; or else asked. */
  predicate HoldsSince(h: Host, y: Id, t: int)
    requires y in h.requests
  {
    if exists k :: 0 <= k < |h.events| && PromotionOf(h.events[k], y) then
      forall k | 0 <= k < |h.events| && PromotionOf(h.events[k], y) :: h.events[k].at <= t
    else if exists k :: 0 <= k < |h.events| && LeaseEventOf(h.events[k], y) then
      exists k :: 0 <= k < |h.events| && LeaseEventOf(h.events[k], y) && h.events[k].at <= t
    else h.requests[y].createdAt <= t
  }

  predicate PastMaxHold(h: Host, env: Env, y: Id)
    requires y in h.requests
  {
    && h.requests[y].state == Active && h.requests[y].key in {CdpChatgpt, CdpPerplexity}
    && env.config.cdpMaxHold > 0 && HoldsSince(h, y, env.now - env.config.cdpMaxHold)
  }

  predicate Unfinished(state: RequestState) { state in {Queued, Active, Inherited, RecoveryRequired} }

  /** What the sweep is for: an unfinished request past its maximum hold; or one silent for the whole
      TTL, its lease run out if it executes, with nobody left. */
  predicate Stale(h: Host, env: Env, y: Id) {
    && y in h.requests && Unfinished(h.requests[y].state)
    && (|| PastMaxHold(h, env, y)
        || (&& env.config.ttl > 0 && SilentSince(h, y, env.now - env.config.ttl)
            && (h.requests[y].state in {Active, Inherited} ==> RanOut(h, y, env.now))
            && NobodyLeft(h, env, y)))
  }

  /** Some other child still inherits from the lease that stands for the request. */
  predicate ChildLeft(h: Host, y: Id, gone: set<Id>)
    requires y in h.requests
  {
    exists c :: && c in h.requests && c != y && c !in gone && h.requests[c].state == Inherited
                && h.requests[c].parent.Some? && StandsFor(h, y, h.requests[c].parent.value)
  }

  // ---- the sweep's decision in these terms ----

  lemma {:induction false} LatestEventBy(events: seq<HostEvent>, id: Id, t: int)
    ensures (LatestEvent(events, id).Some? ==> LatestEvent(events, id).value <= t) <==>
            forall k | 0 <= k < |events| && SignOfLife(events[k], id) :: events[k].at <= t
  {
    if events != [] {
      var last := |events| - 1;
      LatestEventBy(events[..last], id, t);
      assert forall k | 0 <= k < last :: events[..last][k] == events[k];
    }
  }

  lemma {:induction false} LatestPromotionBy(events: seq<HostEvent>, id: Id, t: int)
    ensures LatestPromotion(events, id).Some? <==>
            exists k :: 0 <= k < |events| && PromotionOf(events[k], id)
    ensures (LatestPromotion(events, id).Some? ==> LatestPromotion(events, id).value <= t) <==>
            forall k | 0 <= k < |events| && PromotionOf(events[k], id) :: events[k].at <= t
  {
    if events != [] {
      var last := |events| - 1;
      LatestPromotionBy(events[..last], id, t);
      assert forall k | 0 <= k < last :: events[..last][k] == events[k];
      assert PromotionOf(events[last], id) ==> LatestPromotion(events, id).Some?;
    }
  }

  lemma {:induction false} FirstLeaseEventBy(events: seq<HostEvent>, id: Id, t: int)
    ensures FirstLeaseEvent(events, id).Some? <==>
            exists k :: 0 <= k < |events| && LeaseEventOf(events[k], id)
    ensures (FirstLeaseEvent(events, id).Some? && FirstLeaseEvent(events, id).value <= t) <==>
            exists k :: 0 <= k < |events| && LeaseEventOf(events[k], id) && events[k].at <= t
  {
    if events != [] {
      var last := |events| - 1;
      FirstLeaseEventBy(events[..last], id, t);
      assert forall k | 0 <= k < last :: events[..last][k] == events[k];
      assert LeaseEventOf(events[last], id) ==> FirstLeaseEvent(events, id).Some?;
    }
  }

  lemma ActivationBy(h: Host, y: Id, t: int)
    requires y in h.requests
    ensures Activation(h, y, h.requests[y]) <= t <==> HoldsSince(h, y, t)
  {
    LatestPromotionBy(h.events, y, t);
    FirstLeaseEventBy(h.events, y, t);
  }

  lemma ConsultedStands(h: Host, y: Id, l: Id)
    requires LeasesSound(h) && y in h.requests && l in h.leases
    ensures ConsultedLease(h, y, h.requests[y]) == Some(l) <==> StandsFor(h, y, l)
  {
  }

  lemma ActivityBy(h: Host, y: Id, t: int)
    requires LeasesSound(h) && y in h.requests
    ensures LatestActivity(h, y, h.requests[y]) <= t <==> SilentSince(h, y, t)
  {
    LatestEventBy(h.events, y, t);
    var consulted := ConsultedLease(h, y, h.requests[y]);
    forall l | l in h.leases ensures consulted == Some(l) <==> StandsFor(h, y, l) { ConsultedStands(h, y, l); }
  }

  lemma MaxHoldBy(h: Host, env: Env, y: Id)
    requires y in h.requests
    ensures MaxHoldExceeded(h, env, y, h.requests[y]) <==> PastMaxHold(h, env, y)
  {
    ActivationBy(h, y, env.now - env.config.cdpMaxHold);
  }

  lemma RanOutBy(h: Host, env: Env, y: Id)
    requires LeasesSound(h) && y in h.requests
    ensures HeartbeatExpired(h, env, y, h.requests[y]) <==> RanOut(h, y, env.now)
  {
    forall l | l in h.leases ensures ConsultedLease(h, y, h.requests[y]) == Some(l) <==> StandsFor(h, y, l) {
      ConsultedStands(h, y, l);
    }
  }

  /** The processes recorded on the lease found for a request, if any lease satisfies p. */
  lemma ProcessesGone(h: Host, env: Env, found: Option<Id>, owner: Option<Identity>)
    requires found.Some? ==> found.value in h.leases
    ensures var all := ProcessOf(h, found) + Recorded(owner);
            && (AllGone(env, all) <==>
                  IsGone(env, owner) && (found.Some? ==> IsGone(env, h.leases[found.value].process)))
            && (all == [] <==> owner.None? && (found.Some? ==> h.leases[found.value].process.None?))
  {
    var lease, own := ProcessOf(h, found), Recorded(owner);
    assert forall i :: i in lease + own <==> i in lease || i in own;
    if owner.Some? { assert own[0] in lease + own; }
    if lease != [] { assert lease[0] in lease + own; }
  }

  lemma OwnLeaseFound(h: Host, y: Id, l: Id)
    requires LeasesSound(h) && l in h.leases
    ensures LeaseOf(h.leases, y) == Some(l) <==> OwnLease(h, y, l)
  {
  }

  lemma EvidenceBy(h: Host, env: Env, y: Id)
    requires LeasesSound(h) && y in h.requests && Unfinished(h.requests[y].state)
    ensures OwnerEvidence(h, env, y, h.requests[y], env.now - LatestActivity(h, y, h.requests[y])).Some?
       <==> NobodyLeft(h, env, y)
  {
    var row := h.requests[y];
    if row.state == Queued {
      ActivityBy(h, y, env.now - env.config.queuedTtl);
      ProcessesGone(h, env, None, row.owner);
      assert ProcessOf(h, None) + Recorded(row.owner) == Recorded(row.owner);
    } else if row.state == Inherited {
      ProcessesGone(h, env, LeaseOf(h.leases, y), row.owner);
      forall l | l in h.leases ensures LeaseOf(h.leases, y) == Some(l) <==> OwnLease(h, y, l) {
        OwnLeaseFound(h, y, l);
      }
    } else {
      ProcessesGone(h, env, ConsultedLease(h, y, row), row.owner);
      forall l | l in h.leases ensures ConsultedLease(h, y, row) == Some(l) <==> StandsFor(h, y, l) {
        ConsultedStands(h, y, l);
      }
    }
  }

  lemma ChildBy(h: Host, y: Id, gone: set<Id>)
    requires LeasesSound(h) && y in h.requests
    ensures HasOtherChild(h, y, h.requests[y], gone) <==> ChildLeft(h, y, gone)
  {
    var consulted := ConsultedLease(h, y, h.requests[y]);
    var lease := if consulted.Some? then consulted else h.requests[y].parent;
    forall l ensures lease == Some(l) <==> StandsFor(h, y, l) {
      if l in h.leases { ConsultedStands(h, y, l); }
    }
    if HasOtherChild(h, y, h.requests[y], gone) {
      var c :| c in ChildrenOf(h.requests, lease.value) - gone - {y};
      assert ChildLeft(h, y, gone);
    }
    if ChildLeft(h, y, gone) {
      var c :| c in h.requests && c != y && c !in gone && h.requests[c].state == Inherited
               && h.requests[c].parent.Some? && StandsFor(h, y, h.requests[c].parent.value);
      assert c in ChildrenOf(h.requests, lease.value) - gone - {y};
    }
  }

  /** The sweep's decision on a current row: it takes exactly a stale request that no other child
      inherits from. */
  lemma VerdictIsStale(h: Host, env: Env, y: Id, swept: set<Id>)
    requires LeasesSound(h) && y in h.requests && Unfinished(h.requests[y].state) && y !in swept
    ensures Verdict(h, env, y, h.requests[y], swept).Some? <==> Stale(h, env, y) && !ChildLeft(h, y, swept)
  {
    MaxHoldBy(h, env, y);
    RanOutBy(h, env, y);
    ActivityBy(h, y, env.now - env.config.ttl);
    EvidenceBy(h, env, y);
    ChildBy(h, y, swept);
  }
}
