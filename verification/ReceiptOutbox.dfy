/** The committed receipt outbox of scripts/conductor_store.py: receipt rows are committed first,
    their files are written afterwards, and any disk or database access may fail or be the last
    thing the process does. */
module ReceiptOutbox {
  import opened Collections

  const DRAIN_LIMIT := 64

  datatype Receipt = Receipt(id: Id, command: Id, key: Id, body: Id)

  datatype Row = Row(receipt: Receipt, delivered: bool)

  /** What becomes of one access: it works, it raises, or the process dies before it. */
  datatype Fault = Works | Fails | Crashes

  // ---- the rows, as values ----

  /** UPDATE receipts SET receipt_file_delivered = 1 WHERE command_id IN commands. */
  function Flag(rows: seq<Row>, commands: set<Id>): seq<Row> {
    seq(|rows|, k requires 0 <= k < |rows| =>
      if rows[k].receipt.command in commands then rows[k].(delivered := true) else rows[k])
  }

  /** The undelivered receipts in rowid order. */
  function Outbox(rows: seq<Row>): (out: seq<Receipt>)
    ensures |out| <= |rows|
  {
    if rows == [] then []
    else Outbox(rows[..|rows| - 1]) + (if rows[|rows| - 1].delivered then [] else [rows[|rows| - 1].receipt])
  }

  function Receipts(rows: seq<Row>): seq<Receipt> {
    seq(|rows|, k requires 0 <= k < |rows| => rows[k].receipt)
  }

  function Commands(receipts: seq<Receipt>): set<Id> { set r | r in receipts :: r.command }

  function Take(receipts: seq<Receipt>): seq<Receipt> {
    if |receipts| <= DRAIN_LIMIT then receipts else receipts[..DRAIN_LIMIT]
  }

  predicate DistinctCommands(receipts: seq<Receipt>) {
    forall i, j | 0 <= i < j < |receipts| :: receipts[i].command != receipts[j].command
  }

  /** A delivered row has its own file; every file is that of a committed row. */
  predicate Durable(rows: seq<Row>, files: map<Id, Receipt>) {
    && DistinctCommands(Receipts(rows))
    && (forall k | 0 <= k < |rows| && rows[k].delivered :: HasFile(files, rows[k].receipt))
    && (forall c | c in files :: files[c].command == c && files[c] in Receipts(rows))
  }

  predicate HasFile(files: map<Id, Receipt>, r: Receipt) { r.command in files && files[r.command] == r }

  predicate Extends(files: map<Id, Receipt>, later: map<Id, Receipt>) {
    forall c | c in files :: c in later && later[c] == files[c]
  }

  lemma FlagTwice(rows: seq<Row>, a: set<Id>, b: set<Id>)
    ensures Flag(Flag(rows, a), b) == Flag(rows, a + b)
    ensures Receipts(Flag(rows, a)) == Receipts(rows)
    ensures Flag(rows, {}) == rows
  {
  }

  /** Writing a committed receipt's file changes no file that is already there. */
  lemma WritingKeeps(rows: seq<Row>, files: map<Id, Receipt>, r: Receipt)
    requires Durable(rows, files) && r in Receipts(rows)
    ensures Durable(rows, files[r.command := r]) && Extends(files, files[r.command := r])
  {
    var later := files[r.command := r];
    forall c | c in files ensures later[c] == files[c] {
      assert files[c] in Receipts(rows);
    }
  }

  /** Flagging a receipt whose file is there keeps every flag honest. */
  lemma FlaggingKeeps(rows: seq<Row>, files: map<Id, Receipt>, r: Receipt)
    requires Durable(rows, files) && r in Receipts(rows) && HasFile(files, r)
    ensures Durable(Flag(rows, {r.command}), files)
  {
    FlagTwice(rows, {r.command}, {});
    var flagged := Flag(rows, {r.command});
    forall k | 0 <= k < |flagged| && flagged[k].delivered ensures HasFile(files, flagged[k].receipt) {
      assert Receipts(rows)[k] == rows[k].receipt;
    }
  }

  class ReceiptStore {
    var rows: seq<Row>
    var files: map<Id, Receipt>
    var backlog: seq<Receipt>
    var faults: seq<Fault>        // what the coming accesses do; afterwards all work

    predicate Valid()
      reads this
    {
      && Durable(rows, files)
      && DistinctCommands(backlog)
      && forall r | r in backlog :: r in Receipts(rows)
    }

    constructor (faults: seq<Fault>)
      ensures Valid() && rows == [] && files == map[] && backlog == []
    {
      rows, files, backlog, this.faults := [], map[], [], faults;
    }

    method Access() returns (f: Fault)
      modifies this`faults
      ensures old(faults) == [] ==> f == Works && faults == []
    {
      if faults == [] { return Works; }
      f, faults := faults[0], faults[1..];
    }

    /** Write the file, then flag the row; stop at the first access that does not work. Flags that
        were honest stay so, and no file changes. */
    method Deliver(r: Receipt) returns (f: Fault)
      modifies this`rows, this`files, this`faults
      ensures Durable(old(rows), old(files)) && r in Receipts(old(rows)) ==>
                Durable(rows, files) && Extends(old(files), files)
      ensures files == old(files) || files == old(files)[r.command := r]
      ensures f == Works ==> HasFile(files, r)
      ensures rows == if f == Works then Flag(old(rows), {r.command}) else old(rows)
      ensures old(faults) == [] ==> f == Works && faults == []
    {
      f := Access();
      if f != Works { return; }
      ghost var honest := Durable(rows, files) && r in Receipts(rows);
      if honest { WritingKeeps(rows, files, r); }
      files := files[r.command := r];
      f := Access();
      if f != Works { return; }
      if honest { FlaggingKeeps(rows, files, r); }
      rows := Flag(rows, {r.command});
    }

    /** Deliver a committed receipt of an honest store. */
    method Redeliver(r: Receipt, ghost start: seq<Row>, ghost sent: set<Id>) returns (f: Fault)
      requires Durable(rows, files) && rows == Flag(start, sent) && r in Receipts(start)
      modifies this`rows, this`files, this`faults
      ensures Durable(rows, files) && Extends(old(files), files)
      ensures f == Works ==> HasFile(files, r)
      ensures rows == Flag(start, if f == Works then sent + {r.command} else sent)
      ensures old(faults) == [] ==> f == Works && faults == []
    {
      FlagTwice(start, sent, {r.command});
      f := Deliver(r);
    }

    /** Try a list of receipts in turn, skipping some; collect the ones that raised. */
    method DeliverEach(receipts: seq<Receipt>, skip: set<Id>)
      returns (failed: seq<Receipt>, crashed: bool, ghost sent: set<Id>)
      requires Durable(rows, files) && DistinctCommands(receipts) && forall r | r in receipts :: r in Receipts(rows)
      modifies this`rows, this`files, this`faults
      ensures Durable(rows, files) && Extends(old(files), files)
      ensures rows == Flag(old(rows), sent) && sent <= Commands(receipts) && sent !! skip
      ensures !crashed ==> Tried(receipts, skip, sent, failed)
      ensures old(faults) == [] ==> faults == [] && failed == [] && !crashed && sent == Commands(receipts) - skip
    {
      failed, crashed, sent := [], false, {};
      FlagTwice(rows, {}, {});
      for k := 0 to |receipts|
        invariant Durable(rows, files) && Extends(old(files), files)
        invariant rows == Flag(old(rows), sent) && Tried(receipts[..k], skip, sent, failed)
        invariant old(faults) == [] ==> faults == [] && failed == [] && sent == Commands(receipts[..k]) - skip
      {
        var r := receipts[k];
        CommandsAppend(receipts, k);
        TriedOneMore(receipts[..k], r, skip, sent, failed);
        if r.command in skip { continue; }
        var f := Redeliver(r, old(rows), sent);
        if f == Crashes { crashed := true; return; }
        if f == Works { sent := sent + {r.command}; } else { failed := failed + [r]; }
      }
      assert receipts[..|receipts|] == receipts;
    }

    /** A maintenance pass: retry the backlog, then up to 64 rows of the committed outbox. */
    method EnsureReceiptFilesDelivered()
      returns (crashed: bool, read: bool, ghost retried: set<Id>, ghost sent: set<Id>)
      requires Valid()
      modifies this
      ensures Valid() && Extends(old(files), files) && Receipts(rows) == Receipts(old(rows))
      ensures retried <= Commands(old(backlog)) && rows == Flag(old(rows), retried + sent)
      ensures sent <= Commands(Take(Outbox(Flag(old(rows), retried))))
      ensures !crashed ==> forall r | r in old(backlog) :: r.command in retried || r in backlog
      ensures !crashed && read ==>
                forall r | r in Take(Outbox(Flag(old(rows), retried))) :: r.command in sent || r in backlog
      ensures old(faults) == [] ==>
                && faults == [] && !crashed && read && backlog == []
                && retried == Commands(old(backlog)) && sent == Commands(Take(Outbox(Flag(old(rows), retried))))
                && |Outbox(rows)| <= Max(0, |Outbox(old(rows))| - 64)
    {
      sent, read := {}, false;
      crashed, retried := RetryBacklog();
      PassFlags(old(rows), retried, {});
      if crashed { return; }
      crashed, read, sent := DrainOutbox();
      PassFlags(old(rows), retried, sent);
      PassBound(old(rows), retried);
    }

    /** Try the backlog again; what fails again stays in it. */
    method RetryBacklog() returns (crashed: bool, ghost retried: set<Id>)
      requires Valid()
      modifies this
      ensures Valid() && Extends(old(files), files)
      ensures retried <= Commands(old(backlog)) && rows == Flag(old(rows), retried)
      ensures !crashed ==> forall r | r in old(backlog) :: r.command in retried || r in backlog
      ensures old(faults) == [] ==> faults == [] && !crashed && backlog == [] && retried == Commands(old(backlog))
    {
      var stillPending;
      stillPending, crashed, retried := DeliverEach(backlog, {});
      FlagTwice(old(rows), retried, {});
      if !crashed { backlog := stillPending; }
    }

    /** Read up to 64 rows of the committed outbox and try those that are not in the backlog. */
    method DrainOutbox() returns (crashed: bool, read: bool, ghost sent: set<Id>)
      requires Valid()
      modifies this
      ensures Valid() && Extends(old(files), files) && rows == Flag(old(rows), sent)
      ensures sent <= Commands(Take(Outbox(old(rows))))
      ensures !crashed ==> forall r | r in old(backlog) :: r in backlog
      ensures !crashed && read ==> forall r | r in Take(Outbox(old(rows))) :: r.command in sent || r in backlog
      ensures old(faults) == [] && old(backlog) == [] ==>
                faults == [] && !crashed && read && backlog == [] && sent == Commands(Take(Outbox(old(rows))))
    {
      crashed, read, sent := false, false, {};
      FlagTwice(rows, {}, {});
      var f := Access();
      if f != Works { crashed := f == Crashes; return; }
      read := true;
      OutboxRows(rows);
      var due := Take(Outbox(rows));
      var failed;
      failed, crashed, sent := DeliverEach(due, Commands(backlog));
      FlagTwice(old(rows), sent, {});
      if crashed { return; }
      InFlightAreTheSame(rows, due, backlog);
      backlog := backlog + failed;
    }

    /** Commit a receipt row, then try to deliver its file. Under a new command id nothing else is
        touched; the receipt of a command id already on file shares its flag and its file name. */
    method SaveReceipt(r: Receipt) returns (committed: bool, crashed: bool)
      requires Valid()
      modifies this
      ensures committed ==> (Valid() <==> r.command !in Commands(Receipts(old(rows))))
      ensures !committed ==> Valid() && rows == old(rows) && files == old(files)
      ensures Receipts(rows) == if committed then Receipts(old(rows)) + [r] else Receipts(old(rows))
      ensures committed ==>
                || rows == old(rows) + [Row(r, false)]
                || rows == Flag(old(rows) + [Row(r, false)], {r.command})
      ensures files == old(files) || files == old(files)[r.command := r]
      ensures r.command !in Commands(Receipts(old(rows))) ==>
                && Extends(old(files), files)
                && rows == (if committed then old(rows) + [Row(r, rows[|rows| - 1].delivered)] else old(rows))
      ensures committed && !crashed ==> rows[|rows| - 1].delivered || r in backlog
      ensures old(faults) == [] ==> committed && !crashed && HasFile(files, r) && backlog == old(backlog)
    {
      crashed := false;
      var f := Access();
      if f != Works { return false, f == Crashes; }
      ghost var isNew := r.command !in Commands(Receipts(rows));
      SavedRow(rows, files, r);
      rows := rows + [Row(r, false)];
      committed := true;
      f := Deliver(r);
      assert Receipts(rows) == Receipts(old(rows)) + [r];
      PendingGrows(backlog, Receipts(old(rows)), r);
      if f == Fails { backlog := backlog + [r]; }
      crashed := f == Crashes;
    }

    /** The committed receipt of an idempotency key, its file put back on disk if it is missing. */
    method GetReceipt(key: Id) returns (found: Option<Receipt>, crashed: bool, read: bool)
      requires Valid()
      modifies this
      ensures Valid() && Extends(old(files), files) && Receipts(rows) == Receipts(old(rows))
      ensures found.Some? ==> found.value in Receipts(rows) && found.value.key == key
      ensures read && found.None? ==> forall k | 0 <= k < |rows| :: rows[k].receipt.key != key
      ensures found.Some? ==> HasFile(files, found.value) || found.value in backlog || crashed
      ensures old(faults) == [] ==> faults == [] && !crashed && read && (found.Some? ==> HasFile(files, found.value))
    {
      found, read := None, false;
      ghost var retried, sent;
      crashed, read, retried, sent := EnsureReceiptFilesDelivered();
      read := false;
      if crashed { return; }
      var f := Access();
      if f != Works { crashed := f == Crashes; return; }
      read := true;
      found := FindByKey(key);
      if found.None? { return; }
      var r := found.value;
      if r.command in files { FileIsOwn(rows, files, r); return; }
      FlagTwice(rows, {r.command}, {});
      f := Deliver(r);
      if f == Fails && r !in backlog {
        CommandsNameReceipts(rows, backlog, r);
        backlog := backlog + [r];
      }
      crashed := f == Crashes;
    }

    method FindByKey(key: Id) returns (found: Option<Receipt>)
      ensures found.Some? ==> found.value in Receipts(rows) && found.value.key == key
      ensures found.None? ==> forall k | 0 <= k < |rows| :: rows[k].receipt.key != key
    {
      for k := 0 to |rows|
        invariant forall j | 0 <= j < k :: rows[j].receipt.key != key
      {
        if rows[k].receipt.key == key {
          assert Receipts(rows)[k] == rows[k].receipt;
          return Some(rows[k].receipt);
        }
      }
      found := None;
    }

    /** Process a command once per idempotency key: a replay gets the receipt committed first and
        commits nothing; `body` is what the handler answers otherwise. */
    method ProcessEnvelope(id: Id, command: Id, key: Id, body: Id) returns (reply: Option<Receipt>, crashed: bool)
      requires Valid() && OneReceiptPerKey(rows)
      modifies this
      ensures OneReceiptPerKey(rows)
      ensures (Unanswered(old(rows), key) ==> command !in Commands(Receipts(old(rows)))) ==>
                Valid() && Extends(old(files), files)
      ensures reply.Some? ==> reply.value in Receipts(rows) && reply.value.key == key
      ensures Receipts(rows) == Receipts(old(rows))
              || (&& Unanswered(old(rows), key)
                  && Receipts(rows) == Receipts(old(rows)) + [Receipt(id, command, key, body)])
      ensures old(faults) == [] ==> reply.Some? && HasFile(files, reply.value)
    {
      reply := None;
      ghost var retried, sent;
      var drained;
      crashed, drained, retried, sent := EnsureReceiptFilesDelivered();
      KeysKept(old(rows), rows, key);
      if crashed { return; }
      ghost var mid := rows;
      var read;
      reply, crashed, read := GetReceipt(key);
      KeysKept(mid, rows, key);
      if crashed || !read || reply.Some? { return; }
      var r := Receipt(id, command, key, body);
      mid := rows;
      var committed;
      committed, crashed := SaveReceipt(r);
      if committed {
        NewKey(mid, rows, r);
        reply := Some(r);
      } else {
        KeysKept(mid, rows, key);
      }
    }

    /** A new process on the same store: memory is gone, and startup runs one pass. */
    method Restart() returns (crashed: bool, ghost sent: set<Id>)
      requires Valid()
      modifies this
      ensures Valid() && Extends(old(files), files) && Receipts(rows) == Receipts(old(rows))
      ensures rows == Flag(old(rows), sent)
      ensures old(faults) == [] ==> sent == Commands(Take(Outbox(old(rows)))) && backlog == []
    {
      backlog := [];
      ghost var retried;
      var read;
      crashed, read, retried, sent := EnsureReceiptFilesDelivered();
      FlagTwice(old(rows), {}, {});
      assert retried == {} && {} + sent == sent;
    }
  }

  /** Each receipt was skipped, sent, or has failed and is kept. */
  ghost predicate Tried(receipts: seq<Receipt>, skip: set<Id>, sent: set<Id>, failed: seq<Receipt>) {
    && sent <= Commands(receipts) && sent !! skip && DistinctCommands(failed)
    && (forall r | r in failed :: r in receipts && r.command !in skip && r.command !in sent)
    && (forall r | r in receipts :: r.command in skip || r.command in sent || r in failed)
  }

  lemma TriedOneMore(receipts: seq<Receipt>, next: Receipt, skip: set<Id>, sent: set<Id>, failed: seq<Receipt>)
    requires Tried(receipts, skip, sent, failed) && next.command !in Commands(receipts)
    ensures next.command in skip ==> Tried(receipts + [next], skip, sent, failed)
    ensures next.command !in skip ==> Tried(receipts + [next], skip, sent + {next.command}, failed)
    ensures next.command !in skip ==> Tried(receipts + [next], skip, sent, failed + [next])
  {
    assert Commands(receipts + [next]) == Commands(receipts) + {next.command};
    assert forall r :: r in receipts + [next] <==> r in receipts || r == next;
    assert forall r | r in receipts :: r.command in Commands(receipts);
  }

  lemma CommandsAppend(receipts: seq<Receipt>, k: nat)
    requires k < |receipts|
    ensures receipts[..k + 1] == receipts[..k] + [receipts[k]]
    ensures Commands(receipts[..k + 1]) == Commands(receipts[..k]) + {receipts[k].command}
    ensures Commands(receipts[..k]) <= Commands(receipts)
    ensures DistinctCommands(receipts) ==> receipts[k].command !in Commands(receipts[..k])
  {
    assert receipts[..k + 1] == receipts[..k] + [receipts[k]];
  }

  predicate OneReceiptPerKey(rows: seq<Row>) {
    forall i, j | 0 <= i < j < |rows| :: rows[i].receipt.key != rows[j].receipt.key
  }

  predicate Unanswered(rows: seq<Row>, key: Id) {
    forall k | 0 <= k < |rows| :: rows[k].receipt.key != key
  }

  lemma KeysKept(rows: seq<Row>, later: seq<Row>, key: Id)
    requires Receipts(later) == Receipts(rows)
    ensures OneReceiptPerKey(later) <==> OneReceiptPerKey(rows)
    ensures Unanswered(later, key) <==> Unanswered(rows, key)
  {
    assert |Receipts(later)| == |later| && |Receipts(rows)| == |rows|;
    assert forall k | 0 <= k < |rows| :: Receipts(rows)[k] == rows[k].receipt && Receipts(later)[k] == later[k].receipt;
  }

  lemma NewKey(rows: seq<Row>, later: seq<Row>, r: Receipt)
    requires Receipts(later) == Receipts(rows) + [r] && OneReceiptPerKey(rows) && Unanswered(rows, r.key)
    ensures OneReceiptPerKey(later) && r in Receipts(later)
  {
    assert forall k | 0 <= k < |rows| ::
        Receipts(later)[k] == rows[k].receipt && Receipts(later)[k] == later[k].receipt;
    assert Receipts(later)[|rows|] == r && later[|rows|].receipt == r;
  }

  lemma FileIsOwn(rows: seq<Row>, files: map<Id, Receipt>, r: Receipt)
    requires Durable(rows, files) && r in Receipts(rows) && r.command in files
    ensures HasFile(files, r)
  {
    assert files[r.command] in Receipts(rows);
  }

  lemma CommandsNameReceipts(rows: seq<Row>, backlog: seq<Receipt>, r: Receipt)
    requires DistinctCommands(Receipts(rows)) && r in Receipts(rows) && (forall b | b in backlog :: b in Receipts(rows))
    requires DistinctCommands(backlog) && r !in backlog
    ensures DistinctCommands(backlog + [r])
  {
    forall i | 0 <= i < |backlog| ensures backlog[i].command != r.command {
      assert backlog[i] in Receipts(rows);
    }
  }

  /** A due receipt that is skipped because its command is in flight is itself in flight. */
  lemma InFlightAreTheSame(rows: seq<Row>, due: seq<Receipt>, pending: seq<Receipt>)
    requires DistinctCommands(Receipts(rows)) && (forall r | r in due :: r in Receipts(rows))
    requires forall r | r in pending :: r in Receipts(rows)
    ensures forall r | r in due && r.command in Commands(pending) :: r in pending
  {
  }

  /** What committing a row leads to: under a new command id it stands alone, else never again are all
      command ids different. */
  lemma SavedRow(rows: seq<Row>, files: map<Id, Receipt>, r: Receipt)
    requires Durable(rows, files)
    ensures var later := rows + [Row(r, false)];
            && Receipts(later) == Receipts(rows) + [r] && r in Receipts(later)
            && Receipts(Flag(later, {r.command})) == Receipts(later)
            && Flag(later, {r.command})[|rows|] == Row(r, true)
            && (if r.command in Commands(Receipts(rows)) then !DistinctCommands(Receipts(later))
                else
                  && Durable(later, files) && r.command !in files
                  && Flag(later, {r.command}) == rows + [Row(r, true)])
  {
    var later := rows + [Row(r, false)];
    FlagTwice(later, {r.command}, {});
    assert Receipts(later) == Receipts(rows) + [r] && Receipts(later)[|rows|] == r;
    if r.command in Commands(Receipts(rows)) {
      SharedCommand(rows, r);
    } else {
      AppendKeeps(rows, files, r);
      NewCommand(rows, r);
    }
  }

  lemma PendingGrows(backlog: seq<Receipt>, receipts: seq<Receipt>, r: Receipt)
    requires DistinctCommands(backlog) && forall b | b in backlog :: b in receipts
    ensures forall b | b in backlog + [r] :: b in receipts + [r]
    ensures forall b | b in backlog :: b in receipts + [r]
    ensures r.command !in Commands(receipts) ==> DistinctCommands(backlog + [r])
  {
  }

  lemma PassFlags(rows: seq<Row>, retried: set<Id>, sent: set<Id>)
    ensures Flag(Flag(rows, retried), sent) == Flag(rows, retried + sent)
    ensures Receipts(Flag(rows, retried + sent)) == Receipts(rows)
  {
    FlagTwice(rows, retried, sent);
    FlagTwice(rows, retried + sent, {});
  }

  lemma SharedCommand(rows: seq<Row>, r: Receipt)
    requires r.command in Commands(Receipts(rows))
    ensures !DistinctCommands(Receipts(rows) + [r])
  {
    var k :| 0 <= k < |rows| && Receipts(rows)[k].command == r.command;
    var all := Receipts(rows) + [r];
    assert all[k].command == all[|rows|].command;
  }

  lemma NewCommand(rows: seq<Row>, r: Receipt)
    requires r.command !in Commands(Receipts(rows))
    ensures forall k | 0 <= k < |rows| :: rows[k].receipt.command != r.command
    ensures forall b | b in Receipts(rows) :: b.command != r.command
  {
    forall k | 0 <= k < |rows| ensures rows[k].receipt.command != r.command {
      assert Receipts(rows)[k] in Receipts(rows);
    }
  }

  lemma AppendKeeps(rows: seq<Row>, files: map<Id, Receipt>, r: Receipt)
    requires Durable(rows, files) && r.command !in Commands(Receipts(rows))
    ensures Durable(rows + [Row(r, false)], files)
    ensures Receipts(rows + [Row(r, false)]) == Receipts(rows) + [r]
  {
    var later := rows + [Row(r, false)];
    assert Receipts(later) == Receipts(rows) + [r];
    forall i | 0 <= i < |rows| ensures Receipts(rows)[i].command != r.command {
      assert Receipts(rows)[i] in Receipts(rows);
    }
  }

  lemma {:induction false} OutboxRows(rows: seq<Row>)
    requires DistinctCommands(Receipts(rows))
    ensures forall r | r in Outbox(rows) :: r in Receipts(rows)
    ensures DistinctCommands(Outbox(rows)) && DistinctCommands(Take(Outbox(rows)))
    ensures forall r | r in Take(Outbox(rows)) :: r in Receipts(rows)
  {
    if rows != [] {
      var rest := rows[..|rows| - 1];
      var last := rows[|rows| - 1].receipt;
      assert Receipts(rows) == Receipts(rest) + [last];
      assert forall i | 0 <= i < |rest| :: Receipts(rest)[i] == Receipts(rows)[i];
      OutboxRows(rest);
      forall i | 0 <= i < |Outbox(rest)| ensures Outbox(rest)[i].command != last.command {
        assert Outbox(rest)[i] in Receipts(rest);
        var k :| 0 <= k < |rest| && Receipts(rest)[k] == Outbox(rest)[i];
        assert Receipts(rows)[k].command != Receipts(rows)[|rest|].command;
      }
    }
  }

  // ---- how far a pass gets ----

  function Without(receipts: seq<Receipt>, commands: set<Id>): (kept: seq<Receipt>)
    ensures |kept| <= |receipts|
  {
    if receipts == [] then []
    else
      var last := receipts[|receipts| - 1];
      Without(receipts[..|receipts| - 1], commands) + (if last.command in commands then [] else [last])
  }

  lemma {:induction false} WithoutAppend(receipts: seq<Receipt>, r: Receipt, commands: set<Id>)
    ensures Without(receipts + [r], commands)
            == Without(receipts, commands) + (if r.command in commands then [] else [r])
  {
    assert (receipts + [r])[..|receipts|] == receipts;
  }

  lemma {:induction false} OutboxAfterFlag(rows: seq<Row>, commands: set<Id>)
    ensures Outbox(Flag(rows, commands)) == Without(Outbox(rows), commands)
  {
    if rows != [] {
      var rest, row := rows[..|rows| - 1], rows[|rows| - 1];
      var flagged := if row.receipt.command in commands then row.(delivered := true) else row;
      OutboxAfterFlag(rest, commands);
      assert rows == rest + [row];
      FlagAppend(rest, row, commands);
      OutboxAppend(Flag(rest, commands), flagged);
      OutboxAppend(rest, row);
      if row.delivered {
        assert Outbox(rest) + [] == Outbox(rest);
      } else {
        WithoutAppend(Outbox(rest), row.receipt, commands);
      }
    }
  }

  lemma FlagAppend(rows: seq<Row>, row: Row, commands: set<Id>)
    ensures Flag(rows + [row], commands)
         == Flag(rows, commands) + [if row.receipt.command in commands then row.(delivered := true) else row]
  {
  }

  lemma OutboxAppend(rows: seq<Row>, row: Row)
    ensures Outbox(rows + [row]) == Outbox(rows) + (if row.delivered then [] else [row.receipt])
  {
    assert (rows + [row])[..|rows|] == rows;
  }

  lemma {:induction false} WithoutPrefix(receipts: seq<Receipt>, n: nat)
    requires DistinctCommands(receipts) && n <= |receipts|
    ensures Without(receipts, Commands(receipts[..n])) == receipts[n..]
    decreases |receipts|
  {
    if n == |receipts| {
      assert receipts[..n] == receipts;
      WithoutAll(receipts, Commands(receipts));
    } else {
      var rest := receipts[..|receipts| - 1];
      WithoutPrefix(rest, n);
      assert rest[..n] == receipts[..n];
      assert receipts[|receipts| - 1].command !in Commands(receipts[..n]);
      assert receipts[n..] == rest[n..] + [receipts[|receipts| - 1]];
    }
  }

  lemma {:induction false} WithoutAll(receipts: seq<Receipt>, commands: set<Id>)
    requires forall r | r in receipts :: r.command in commands
    ensures Without(receipts, commands) == []
  {
    if receipts != [] { WithoutAll(receipts[..|receipts| - 1], commands); }
  }

  /** The rows after a pass with an empty backlog on a disk that works. */
  function Drained(rows: seq<Row>): seq<Row> { Flag(rows, Commands(Take(Outbox(rows)))) }

  function DrainedTimes(rows: seq<Row>, passes: nat): seq<Row> {
    if passes == 0 then rows else Drained(DrainedTimes(rows, passes - 1))
  }

  /** A pass takes the 64 oldest undelivered receipts, or all of them, and no other. */
  lemma DrainTakesOldest(rows: seq<Row>)
    requires DistinctCommands(Receipts(rows))
    ensures Receipts(Drained(rows)) == Receipts(rows)
    ensures Outbox(Drained(rows)) == if |Outbox(rows)| <= 64 then [] else Outbox(rows)[64..]
    ensures |Outbox(Drained(rows))| == Max(0, |Outbox(rows)| - 64)
  {
    OutboxRows(rows);
    OutboxAfterFlag(rows, Commands(Take(Outbox(rows))));
    WithoutTaken(Outbox(rows));
    FlagTwice(rows, Commands(Take(Outbox(rows))), {});
  }

  lemma WithoutTaken(receipts: seq<Receipt>)
    requires DistinctCommands(receipts)
    ensures Without(receipts, Commands(Take(receipts))) == receipts[|Take(receipts)|..]
    ensures |Take(receipts)| == |receipts| - Max(0, |receipts| - DRAIN_LIMIT)
  {
    var n := if |receipts| <= DRAIN_LIMIT then |receipts| else DRAIN_LIMIT;
    assert Take(receipts) == receipts[..n];
    WithoutPrefix(receipts, n);
  }

  /** So a working disk empties an outbox of n receipts in n/64 passes, rounded up. */
  lemma {:induction false} PassesEmptyOutbox(rows: seq<Row>, passes: nat)
    requires DistinctCommands(Receipts(rows))
    ensures DistinctCommands(Receipts(DrainedTimes(rows, passes)))
    ensures |Outbox(DrainedTimes(rows, passes))| == Max(0, |Outbox(rows)| - 64 * passes)
  {
    if passes > 0 {
      PassesEmptyOutbox(rows, passes - 1);
      var earlier := DrainedTimes(rows, passes - 1);
      DrainTakesOldest(earlier);
      assert DrainedTimes(rows, passes) == Drained(earlier);
      assert 64 * passes == 64 * (passes - 1) + 64;
    }
  }

  lemma {:induction false} WithoutConcat(a: seq<Receipt>, b: seq<Receipt>, commands: set<Id>)
    ensures Without(a + b, commands) == Without(a, commands) + Without(b, commands)
  {
    if b == [] {
      assert a + b == a;
    } else {
      var last := |b| - 1;
      assert a + b == (a + b[..last]) + [b[last]];
      WithoutConcat(a, b[..last], commands);
      WithoutAppend(a + b[..last], b[last], commands);
      assert (a + b)[..|a + b| - 1] == a + b[..last];
    }
  }

  /** An undelivered receipt that the backlog retry has not delivered is still undelivered, behind
      exactly those of the ones ahead of it that it has not delivered either. */
  lemma PlaceAfterRetry(out: seq<Receipt>, retried: set<Id>, k: nat)
    requires k < |out| && out[k].command !in retried
    ensures var place := |Without(out[..k], retried)|;
            place < |Without(out, retried)| && Without(out, retried)[place] == out[k]
  {
    assert out == out[..k] + [out[k]] + out[k + 1..];
    WithoutConcat(out[..k] + [out[k]], out[k + 1..], retried);
    WithoutAppend(out[..k], out[k], retried);
  }

  lemma TakenByPlace(receipts: seq<Receipt>, place: nat)
    requires DistinctCommands(receipts) && place < |receipts|
    ensures receipts[place].command in Commands(Take(receipts)) <==> place < DRAIN_LIMIT
  {
    if place < DRAIN_LIMIT {
      assert Take(receipts)[place] == receipts[place];
    }
  }

  /** An undelivered receipt that the backlog retry has not delivered is due in this pass exactly
      when fewer than 64 such receipts are ahead of it. So behind 64 that keep failing nothing is
      attempted, unless it is in this process's own backlog. */
  lemma StarvedBehindFailures(rows: seq<Row>, retried: set<Id>, k: nat)
    requires DistinctCommands(Receipts(rows)) && k < |Outbox(rows)| && Outbox(rows)[k].command !in retried
    ensures Outbox(rows)[k].command in Commands(Take(Outbox(Flag(rows, retried)))) <==>
            |Without(Outbox(rows)[..k], retried)| < 64
  {
    FlagTwice(rows, retried, {});
    OutboxRows(Flag(rows, retried));
    OutboxAfterFlag(rows, retried);
    PlaceAfterRetry(Outbox(rows), retried, k);
    TakenByPlace(Without(Outbox(rows), retried), |Without(Outbox(rows)[..k], retried)|);
  }

  /** A pass on a working disk leaves at most n - 64 of n undelivered receipts, whatever the backlog. */
  lemma PassBound(rows: seq<Row>, retried: set<Id>)
    requires DistinctCommands(Receipts(rows))
    ensures var sent := Commands(Take(Outbox(Flag(rows, retried))));
            |Outbox(Flag(rows, retried + sent))| <= Max(0, |Outbox(rows)| - 64)
  {
    var once := Flag(rows, retried);
    var sent := Commands(Take(Outbox(once)));
    RetryShrinks(rows, retried);
    BoundAfter(once, |Outbox(rows)|);
    assert Flag(rows, retried + sent) == Flag(once, sent) by { FlagTwice(rows, retried, sent); }
  }

  lemma RetryShrinks(rows: seq<Row>, retried: set<Id>)
    requires DistinctCommands(Receipts(rows))
    ensures DistinctCommands(Receipts(Flag(rows, retried)))
    ensures |Outbox(Flag(rows, retried))| <= |Outbox(rows)|
  {
    FlagTwice(rows, retried, {});
    OutboxAfterFlag(rows, retried);
  }

  lemma BoundAfter(rows: seq<Row>, n: nat)
    requires DistinctCommands(Receipts(rows)) && |Outbox(rows)| <= n
    ensures |Outbox(Drained(rows))| <= Max(0, n - 64)
  {
    DrainTakesOldest(rows);
  }

  /** Delivering one receipt leaves every flag honest exactly when no different receipt shares its
      command id: the flag is set by command id, and so is the file named. */
  lemma DeliveryNeedsDistinctCommands(rows: seq<Row>, files: map<Id, Receipt>, r: Receipt)
    requires r in Receipts(rows)
    requires forall k | 0 <= k < |rows| && rows[k].delivered :: HasFile(files, rows[k].receipt)
    ensures (forall k | 0 <= k < |rows| && Flag(rows, {r.command})[k].delivered ::
               HasFile(files[r.command := r], rows[k].receipt))
       <==> (forall k | 0 <= k < |rows| && rows[k].receipt.command == r.command :: rows[k].receipt == r)
  {
    var flagged := Flag(rows, {r.command});
    if k :| 0 <= k < |rows| && rows[k].receipt.command == r.command && rows[k].receipt != r {
      assert flagged[k].delivered && !HasFile(files[r.command := r], rows[k].receipt);
    }
  }
}
