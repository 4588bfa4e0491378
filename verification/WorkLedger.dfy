/** What an item's event ledger says about the work behind its current state. */
module WorkLedger {
  import opened Collections
  import opened HostModel
  import opened ConductorModel
  import opened WorkStore
  import opened WorkProof

  function Extend(trail: seq<WorkState>, next: WorkState): seq<WorkState> {
    if next == Ready then [Ready] else if trail == [] then [] else trail + [next]
  }

  /** The states an item went through from its last READY on; empty if it never was READY. */
  function SinceReady(events: seq<WorkEvent>, item: Id): seq<WorkState> {
    if events == [] then []
    else
      var earlier := SinceReady(events[..|events| - 1], item);
      var e := events[|events| - 1];
      if e.item == item then Extend(earlier, e.next) else earlier
  }

  const LAUNCH := [Ready, Claimed, Dispatching, Running]

  lemma ChainedPrefix(events: seq<WorkEvent>)
    requires Chained(events) && events != []
    ensures Chained(events[..|events| - 1]) && Follows(events[..|events| - 1], events[|events| - 1])
  {
    var prefix := events[..|events| - 1];
    forall k | 0 <= k < |prefix| ensures Follows(prefix[..k], prefix[k]) {
      assert Follows(events[..k], events[k]) && prefix[..k] == events[..k];
    }
    assert Follows(events[..|events| - 1], events[|events| - 1]);
  }

  /** What the trail must look like in a given state. */
  predicate StageReached(state: WorkState, trail: seq<WorkState>) {
    match state
    case Ready => trail == LAUNCH[..1]
    case Claimed => trail == LAUNCH[..2]
    case Dispatching => trail == LAUNCH[..3]
    case Running => LAUNCH <= trail
    case WaitingExternal => LAUNCH <= trail
    case Review => LAUNCH <= trail
    case Completed => LAUNCH <= trail
    case _ => true
  }

  lemma StageStep(previous: WorkState, next: WorkState, trail: seq<WorkState>)
    requires LegalStep(previous, next) && StageReached(previous, trail)
    ensures StageReached(next, Extend(trail, next))
  {
    match next {
      case Ready =>
      case Claimed => assert previous == Ready;
      case Dispatching => assert previous == Claimed;
      case Running => assert previous in {Dispatching, WaitingExternal};
      case WaitingExternal => assert previous == Running;
      case Review => assert previous == Running;
      case Completed => assert previous in {Running, Review};
      case _ =>
    }
  }

  /** Where an item can come from when it enters a state. */
  function EnteredFrom(target: WorkState): set<WorkState> {
    match target
    case Discovered => {}
    case ItemQueued => {Discovered}
    case Hold => {ItemQueued, Ready, ItemRecovery, Blocked}
    case Ready => {ItemQueued, Hold, ItemRecovery, Blocked}
    case Claimed => {Ready}
    case Dispatching => {Claimed}
    case Running => {Dispatching, WaitingExternal}
    case WaitingExternal => {Running}
    case Review => {Running}
    case Completed => {Running, Review}
    case Blocked => {Running, WaitingExternal, Review}
    case ItemRecovery => {Claimed, Dispatching, Running, WaitingExternal, Review, DispatchUnknown}
    case DispatchUnknown => {Dispatching}
    case Cancelled => {ItemQueued, Discovered} + Unfinished()
    case ItemQuarantined => {ItemQueued} + Unfinished()
  }

  /** Past the queue and not at an end. */
  function Unfinished(): set<WorkState> {
    {Hold, Ready, Claimed, Dispatching, Running, WaitingExternal, Review, Blocked, ItemRecovery, DispatchUnknown}
  }

  /** The table read by column: anything but an ended item may be cancelled, and anything queued or later
      quarantined; work is completed only from RUNNING or REVIEW and never resumes but through READY. */
  lemma EdgesByTarget(current: WorkState, target: WorkState)
    ensures CanTransition(current, target) <==> current in EnteredFrom(target)
  {
  }

  /** Each stage of a run has been reached through the stages before it. */
  lemma {:induction false} StagesInOrder(events: seq<WorkEvent>, item: Id)
    requires Chained(events)
    ensures StageReached(Replay(events, item), SinceReady(events, item))
  {
    if events != [] {
      var last := |events| - 1;
      ChainedPrefix(events);
      StagesInOrder(events[..last], item);
      if events[last].item == item {
        StageStep(events[last].previous, events[last].next, SinceReady(events[..last], item));
      }
    }
  }

  /** A completed item was READY, CLAIMED, DISPATCHING and RUNNING, in that order and with
      nothing in between, after the last time it was READY. */
  lemma CompletedWasLaunched(work: Work, item: Id)
    requires LedgerInv(work) && item in work.items && work.items[item].state == Completed
    ensures LAUNCH <= SinceReady(work.events, item)
  {
    StagesInOrder(work.events, item);
  }

  predicate Terminal(state: WorkState) { state in {Completed, Cancelled, ItemQuarantined} }

  /** Terminal states absorb: once reached, every later ledger leaves the item there. */
  lemma {:induction false} TerminalAbsorbs(events: seq<WorkEvent>, later: seq<WorkEvent>, item: Id)
    requires events <= later && Chained(later) && Terminal(Replay(events, item))
    ensures Replay(later, item) == Replay(events, item)
    decreases |later|
  {
    if |later| == |events| {
      assert later == events;
    } else {
      ChainedPrefix(later);
      TerminalAbsorbs(events, later[..|later| - 1], item);
    }
  }

  /** Saving an item under an id already in use resets its state behind the ledger's back. */
  lemma SavingKnownIdBreaksLedger(work: Work, item: Id, details: ItemDetails)
    requires WorkInv(work)
    ensures LedgerInv(SaveWorkItem(work, item, details, Discovered))
       <==> item !in work.items || work.items[item].state == Discovered
  {
    if item !in work.items { InsertItemKeeps(work, item, details); }
  }
}
