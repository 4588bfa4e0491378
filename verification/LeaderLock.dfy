/** The single-writer leader lock of scripts/conductor_store.py: one atomic acquire or renew per
    call, judged by whether the recorded process still runs. Start times are milliseconds. */
module LeaderLock {
  import opened Collections

  datatype Process = Process(pid: nat, start: int)

  datatype LockRow = LockRow(leader: Id, pid: nat, start: int, heartbeat: int)

  /** What a process table reports: the start time of every pid it can describe. */
  type Processes = map<nat, int>

  const SAME_PROCESS_MS := 1000

  predicate RowAlive(row: LockRow, probe: Processes) {
    row.pid in probe && -SAME_PROCESS_MS < probe[row.pid] - row.start < SAME_PROCESS_MS
  }

  /** Acquire or renew `lock` for `leader`, which believes itself to be process `self`. */
  function Acquired(locks: map<Id, LockRow>, lock: Id, leader: Id, self: Process, probe: Processes,
                    now: int): (map<Id, LockRow>, bool)
  {
    if lock in locks then
      var row := locks[lock];
      if row.leader == leader then (locks[lock := row.(heartbeat := now)], true)
      else if RowAlive(row, probe) then (locks, false)
      else (locks[lock := LockRow(leader, self.pid, self.start, now)], true)
    else (locks[lock := LockRow(leader, self.pid, self.start, now)], true)
  }

  class LeaderLocks {
    var rows: map<Id, LockRow>

    constructor ()
      ensures rows == map[]
    {
      rows := map[];
    }

    method AcquireLeaderLock(lock: Id, leader: Id, self: Process, probe: Processes, now: int) returns (held: bool)
      modifies this
      ensures (rows, held) == Acquired(old(rows), lock, leader, self, probe, now)
    {
      if lock in rows {
        var row := rows[lock];
        if row.leader == leader {
          rows := rows[lock := row.(heartbeat := now)];
          return true;
        }
        if row.pid in probe {
          var drift := probe[row.pid] - row.start;
          if -SAME_PROCESS_MS < drift < SAME_PROCESS_MS { return false; }
        }
        rows := rows[lock := LockRow(leader, self.pid, self.start, now)];
        return true;
      }
      rows := rows[lock := LockRow(leader, self.pid, self.start, now)];
      held := true;
    }
  }

  /** The lock is refused exactly while another leader's row stands for a pid that runs and started within
      a second of the recorded time, and then nothing changes. Otherwise the caller has the row: its own
      one with a new heartbeat, or one that names its process. Other locks keep theirs. */
  lemma AcquireAnswers(locks: map<Id, LockRow>, lock: Id, leader: Id, self: Process, probe: Processes, now: int)
    ensures var r := Acquired(locks, lock, leader, self, probe, now);
            if lock !in locks then r == (locks[lock := LockRow(leader, self.pid, self.start, now)], true)
            else
              var row := locks[lock];
              if row.leader == leader then r == (locks[lock := LockRow(leader, row.pid, row.start, now)], true)
              else if row.pid in probe && probe[row.pid] - 1000 < row.start < probe[row.pid] + 1000 then
                r == (locks, false)
              else r == (locks[lock := LockRow(leader, self.pid, self.start, now)], true)
  {
  }

  // ---- runs: processes come and go, stores acquire ----

  datatype Step =
    | Acquire(lock: Id, leader: Id, self: Process, probe: Processes, now: int)
    | Starts(process: Process)
    | Dies(pid: nat)

  datatype World = World(live: Processes, locks: map<Id, LockRow>)

  function Next(w: World, s: Step): World {
    match s
    case Acquire(lock, leader, self, probe, now) => w.(locks := Acquired(w.locks, lock, leader, self, probe, now).0)
    case Starts(process) => if process.pid in w.live then w else w.(live := w.live[process.pid := process.start])
    case Dies(pid) => w.(live := w.live - {pid})
  }

  predicate Granted(w: World, s: Step) {
    s.Acquire? && Acquired(w.locks, s.lock, s.leader, s.self, s.probe, s.now).1
  }

  /** Both readings an acquire takes of the process table are right. */
  predicate Accurate(w: World, s: Step, home: Id -> Process) {
    s.Acquire? ==> s.self == home(s.leader) && s.probe == w.live
  }

  predicate Lives(w: World, p: Process) { p.pid in w.live && w.live[p.pid] == p.start }

  /** Every row names the process its leader lives in. */
  predicate Honest(w: World, home: Id -> Process) {
    forall l | l in w.locks :: Process(w.locks[l].pid, w.locks[l].start) == home(w.locks[l].leader)
  }

  predicate NextAt(worlds: seq<World>, steps: seq<Step>, home: Id -> Process, n: nat)
    requires |worlds| == |steps| + 1 && n < |steps|
  {
    worlds[n + 1] == Next(worlds[n], steps[n]) && Accurate(worlds[n], steps[n], home)
  }

  ghost predicate IsRun(worlds: seq<World>, steps: seq<Step>, home: Id -> Process) {
    && |worlds| == |steps| + 1
    && Honest(worlds[0], home)
    && forall n | 0 <= n < |steps| :: NextAt(worlds, steps, home, n)
  }

  lemma {:induction false} AlwaysHonest(worlds: seq<World>, steps: seq<Step>, home: Id -> Process, n: nat)
    requires IsRun(worlds, steps, home) && n <= |steps|
    ensures Honest(worlds[n], home)
  {
    if n > 0 {
      AlwaysHonest(worlds, steps, home, n - 1);
      assert NextAt(worlds, steps, home, n - 1);
    }
  }

  /** A live leader's row survives any step. */
  lemma HolderKeepsRow(w: World, s: Step, home: Id -> Process, lock: Id)
    requires Honest(w, home) && Accurate(w, s, home) && lock in w.locks && Lives(w, home(w.locks[lock].leader))
    ensures lock in Next(w, s).locks && Next(w, s).locks[lock].leader == w.locks[lock].leader
    ensures s.Acquire? && s.lock == lock ==> (Granted(w, s) <==> s.leader == w.locks[lock].leader)
  {
  }

  lemma {:induction false} HolderKeepsRowWhileAlive(worlds: seq<World>, steps: seq<Step>, home: Id -> Process, i: nat,
                                                    j: nat, lock: Id)
    requires IsRun(worlds, steps, home) && i <= j <= |steps| && lock in worlds[i].locks
    requires forall k | i <= k < j :: Lives(worlds[k], home(worlds[i].locks[lock].leader))
    ensures lock in worlds[j].locks && worlds[j].locks[lock].leader == worlds[i].locks[lock].leader
    decreases j
  {
    if i < j {
      HolderKeepsRowWhileAlive(worlds, steps, home, i, j - 1, lock);
      AlwaysHonest(worlds, steps, home, j - 1);
      assert NextAt(worlds, steps, home, j - 1);
      HolderKeepsRow(worlds[j - 1], steps[j - 1], home, lock);
    }
  }

  /** Mutual exclusion: after one leader acquires, another's acquire is granted only if the first
      leader's process was dead at some moment in between; and it is refused only while the row's
      leader is another one whose pid runs, started within a second of the recorded time. */
  lemma LeaderExclusion(worlds: seq<World>, steps: seq<Step>, home: Id -> Process, i: nat, j: nat)
    requires IsRun(worlds, steps, home) && i < j < |steps| && steps[j].Acquire?
    requires Granted(worlds[i], steps[i]) && steps[j].lock == steps[i].lock && steps[j].leader != steps[i].leader
    ensures Granted(worlds[j], steps[j]) ==> exists k :: i < k <= j && !Lives(worlds[k], home(steps[i].leader))
    ensures !Granted(worlds[j], steps[j]) ==>
              && steps[j].lock in worlds[j].locks && worlds[j].locks[steps[j].lock].leader != steps[j].leader
              && SeemsAlive(worlds[j], home(worlds[j].locks[steps[j].lock].leader))
  {
    assert NextAt(worlds, steps, home, i);
    assert NextAt(worlds, steps, home, j);
    AlwaysHonest(worlds, steps, home, j);
    var lock := steps[i].lock;
    if Granted(worlds[j], steps[j]) && forall k | i < k <= j :: Lives(worlds[k], home(steps[i].leader)) {
      HolderKeepsRowWhileAlive(worlds, steps, home, i + 1, j, lock);
      HolderKeepsRow(worlds[j], steps[j], home, lock);
      assert false;
    }
  }

  /** A pid is in use by a process of about the same start time. */
  predicate SeemsAlive(w: World, p: Process) {
    p.pid in w.live && -1000 < w.live[p.pid] - p.start < 1000
  }

  /** Accuracy matters: a leader that cannot read its own start time records 0. It lives through the
      two acquires of this run, and its rival is granted the lock all the same, exactly when it
      started a second or more after the epoch. */
  lemma UnreadableStartLosesLock(live: Processes, leader: Id, rival: Id, p: Process, q: Process, lock: Id, now: int)
    requires p.pid in live && live[p.pid] == p.start && p.start >= 0 && leader != rival
    ensures var first := Acquire(lock, leader, Process(p.pid, 0), live, now);
            var second := Acquire(lock, rival, q, live, now);
            var start := World(live, map[]);
            && Granted(start, first) && Lives(Next(start, first), p)
            && (Granted(Next(start, first), second) <==> p.start >= 1000)
  {
  }
}
