/** The append-only audit log: each row carries the hash of its own content and that of the row before. */
module AuditChain {
  import opened Common

  /** What is hashed; `ts` is _fmt_ts: the UTC wall time to the microsecond, however the stamp was read. */
  datatype Content = Content(action: string, target: Option<string>, actor: Option<string>, ts: int)

  type Digest = string

  /** The genesis hash: sixty-four zeros. */
  const GENESIS: Digest := "0000000000000000000000000000000000000000000000000000000000000000"

  datatype Row = Row(
    action: string, target: Option<string>, actor: Option<string>, ts: Stamp,
    ip: Option<string>, prevHash: Digest, contentHash: Digest)

  /** The hashed fields only: the address and the links are not part of them. */
  function Hashed(row: Row): Content {
    Content(row.action, row.target, row.actor, row.ts.Utc())
  }

  function LastHash(log: seq<Row>): Digest {
    if log == [] then GENESIS
    else if log[|log| - 1].contentHash == "" then GENESIS
    else log[|log| - 1].contentHash
  }

  /** One call of append_audit, with the clock's UTC time. */
  datatype Entry = Entry(action: string, actor: Option<string>, target: Option<string>, ip: Option<string>, now: int)

  function NewRow(hash: Content -> Digest, prev: Digest, e: Entry): Row {
    Row(e.action, e.target, e.actor, Aware(e.now, 0), e.ip, prev, hash(Content(e.action, e.target, e.actor, e.now)))
  }

  method AppendAudit(hash: Content -> Digest, log: seq<Row>, e: Entry) returns (log': seq<Row>)
    ensures log' == log + [NewRow(hash, LastHash(log), e)]
    ensures var row := log'[|log|];
            && row.action == e.action && row.target == e.target && row.actor == e.actor && row.ip == e.ip
            && row.ts.Aware? && row.ts.wall - row.ts.offset == e.now
            && row.prevHash == (if log == [] || log[|log| - 1].contentHash == "" then GENESIS
                                else log[|log| - 1].contentHash)
            && row.contentHash == hash(Hashed(row))
  {
    var ts := Aware(e.now, 0);
    var prev := LastHash(log);
    var ch := hash(Content(e.action, e.target, e.actor, ts.Utc()));
    log' := log + [Row(e.action, e.target, e.actor, ts, e.ip, prev, ch)];
  }

  /** The log made by appending these entries in order. */
  function Built(hash: Content -> Digest, entries: seq<Entry>): (log: seq<Row>)
    ensures |log| == |entries|
  {
    if entries == [] then []
    else
      var before := Built(hash, entries[..|entries| - 1]);
      before + [NewRow(hash, LastHash(before), entries[|entries| - 1])]
  }

  predicate SameInstant(row: Row, read: Row) {
    read == row.(ts := read.ts) && read.ts.Utc() == row.ts.Utc()
  }

  /** The same log read back from a store that may drop or change the zone of timestamps. */
  ghost predicate ReadBack(log: seq<Row>, stored: seq<Row>) {
    |stored| == |log| && forall i :: 0 <= i < |log| ==> SameInstant(log[i], stored[i])
  }

  /** Row i does not follow from the row before it, or its own hash is wrong. */
  predicate Broken(hash: Content -> Digest, log: seq<Row>, i: nat)
    requires i < |log|
  {
    log[i].prevHash != (if i == 0 then GENESIS else log[i - 1].contentHash) ||
        log[i].contentHash != hash(Hashed(log[i]))
  }

  predicate Intact(hash: Content -> Digest, log: seq<Row>) {
    forall i :: 0 <= i < |log| ==> !Broken(hash, log, i)
  }

  /** verify_chain reports the least broken row, and nothing exactly when the log is intact. */
  method VerifyChain(hash: Content -> Digest, log: seq<Row>) returns (ok: bool, at: Option<nat>)
    ensures ok <==> Intact(hash, log)
    ensures ok <==> at == None
    ensures !ok ==> at.value < |log| && Broken(hash, log, at.value)
    ensures !ok ==> forall i :: 0 <= i < at.value ==> !Broken(hash, log, i)
  {
    var prev := GENESIS;
    for i := 0 to |log|
      invariant prev == if i == 0 then GENESIS else log[i - 1].contentHash
      invariant forall k :: 0 <= k < i ==> !Broken(hash, log, k)
    {
      var ch := hash(Hashed(log[i]));
      if log[i].prevHash != prev || log[i].contentHash != ch {
        assert Broken(hash, log, i);
        return false, Some(i);
      }
      prev := log[i].contentHash;
    }
    return true, None;
  }

  /** A hash that never collides, is never empty and never equals the genesis value. */
  ghost predicate Ideal(hash: Content -> Digest) {
    && (forall a, b :: hash(a) == hash(b) ==> a == b)
    && (forall a :: hash(a) != GENESIS && hash(a) != "")
  }

  lemma BrokenInPrefix(hash: Content -> Digest, log: seq<Row>, n: nat, i: nat)
    requires i < n <= |log|
    ensures Broken(hash, log[..n], i) == Broken(hash, log, i)
  {
  }

  /** The row appended last follows from the row before it, read back with or without zones. */
  lemma NewRowFollows(hash: Content -> Digest, log: seq<Row>, e: Entry, stored: seq<Row>)
    requires ReadBack(log + [NewRow(hash, LastHash(log), e)], stored)
    requires log != [] ==> stored[|log| - 1].contentHash != ""
    ensures !Broken(hash, stored, |log|)
  {
    var n, all := |log|, log + [NewRow(hash, LastHash(log), e)];
    assert SameInstant(all[n], stored[n]);
    hide ReadBack;
    if n > 0 {
      assert SameInstant(all[n - 1], stored[n - 1]) by { ReadBackAt(all, stored, n - 1); }
      assert all[n - 1] == log[n - 1];
    }
  }

  lemma ReadBackAt(log: seq<Row>, stored: seq<Row>, i: nat)
    requires ReadBack(log, stored) && i < |log|
    ensures SameInstant(log[i], stored[i])
  {
  }

  /** Whatever is appended verifies, read back with or without zones. */
  lemma {:induction false} BuiltLogsVerify(hash: Content -> Digest, entries: seq<Entry>, stored: seq<Row>)
    requires ReadBack(Built(hash, entries), stored)
    requires forall a :: hash(a) != ""
    ensures Intact(hash, stored)
  {
    hide Broken, SameInstant, LastHash;
    if entries != [] {
      var log, last := Built(hash, entries), |entries| - 1;
      assert log[..last] == Built(hash, entries[..last]);
      forall i | 0 <= i < last ensures SameInstant(log[..last][i], stored[..last][i]) {
        assert SameInstant(log[i], stored[i]);
      }
      BuiltLogsVerify(hash, entries[..last], stored[..last]);
      forall i | 0 <= i < last ensures !Broken(hash, stored, i) {
        BrokenInPrefix(hash, stored, last, i);
      }
      if last > 0 {
        IntactRowIsHashed(hash, stored, last - 1);
      }
      assert log == log[..last] + [NewRow(hash, LastHash(log[..last]), entries[last])];
      NewRowFollows(hash, log[..last], entries[last], stored);
    }
  }

  lemma IntactRowIsHashed(hash: Content -> Digest, log: seq<Row>, i: nat)
    requires i < |log| && !Broken(hash, log, i)
    ensures log[i].contentHash == hash(Hashed(log[i]))
  {
  }

  /** The instant a stamp stands for: read as UTC if it has no zone. */
  predicate IsInstant(ts: Stamp, t: int) {
    t == ts.wall - if ts.Aware? then ts.offset else 0
  }

  /** The same action, target and actor at the same instant, whatever the zone, the address and the links. */
  predicate SameFields(a: Row, b: Row) {
    a.action == b.action && a.target == b.target && a.actor == b.actor && IsInstant(a.ts, b.ts.Utc()) &&
        IsInstant(b.ts, a.ts.Utc())
  }

  lemma HashedTellsFields(a: Row, b: Row)
    ensures Hashed(a) == Hashed(b) <==> SameFields(a, b)
  {
  }

  /**
   * Under an ideal hash, replacing a row of an intact log while keeping its links is noticed exactly
   * when its action, target, actor or instant changed, and then at that row and no earlier.
   */
  lemma ChangedRowIsReported(hash: Content -> Digest, log: seq<Row>, k: nat, row: Row, changed: seq<Row>)
    requires Ideal(hash) && Intact(hash, log) && k < |log| && changed == log[k := row]
    requires row.prevHash == log[k].prevHash && row.contentHash == log[k].contentHash
    ensures Intact(hash, changed) <==> SameFields(row, log[k])
    ensures Broken(hash, changed, k) <==> !SameFields(row, log[k])
    ensures forall i :: 0 <= i < |changed| && i != k ==> !Broken(hash, changed, i)
  {
    assert !Broken(hash, log, k);
    HashedTellsFields(row, log[k]);
    forall i | 0 <= i < |log| && i != k ensures !Broken(hash, changed, i) {
      assert !Broken(hash, log, i);
    }
    assert Broken(hash, changed, k) <==> Hashed(row) != Hashed(log[k]);
  }

  /** Row k replaced, and the link of the row after it, if any, set to `link`. */
  function Rewritten(log: seq<Row>, k: nat, row: Row, link: Digest): seq<Row>
    requires k < |log|
  {
    if k + 1 < |log| then log[k := row][k + 1 := log[k + 1].(prevHash := link)] else log[k := row]
  }

  /**
   * Rewriting a row of an intact log together with the next row's link goes unnoticed exactly when the new
   * row keeps its link and carries its own hash, to which the next row is linked: a row's hash does not
   * cover its link, so nothing further on has to change.
   */
  lemma RewrittenRowIsUnnoticedExactlyWhen(hash: Content -> Digest, log: seq<Row>, k: nat, row: Row, link: Digest)
    requires Intact(hash, log) && k < |log|
    ensures Intact(hash, Rewritten(log, k, row, link)) <==>
            && row.prevHash == log[k].prevHash && row.contentHash == hash(Hashed(row))
            && (k + 1 < |log| ==> link == row.contentHash)
  {
    var r := Rewritten(log, k, row, link);
    forall i | 0 <= i < |log| && i != k && i != k + 1 ensures !Broken(hash, r, i) {
      assert !Broken(hash, log, i);
    }
    assert !Broken(hash, log, k);
    assert Broken(hash, r, k) <==> row.prevHash != log[k].prevHash || row.contentHash != hash(Hashed(row));
    if k + 1 < |log| {
      assert !Broken(hash, log, k + 1);
      assert Broken(hash, r, k + 1) <==> link != row.contentHash;
    }
  }

  /**
   * anchor_hash is the last row's hash. Under an ideal hash two intact logs have the same anchor exactly when
   * both are empty or their last rows have the same hashed fields, whatever came before.
   */
  lemma SameAnchorExactlyWhen(hash: Content -> Digest, a: seq<Row>, b: seq<Row>)
    requires Ideal(hash) && Intact(hash, a) && Intact(hash, b)
    ensures LastHash(a) == LastHash(b) <==>
            if a == [] || b == [] then a == b else Hashed(a[|a| - 1]) == Hashed(b[|b| - 1])
  {
    if a != [] { assert !Broken(hash, a, |a| - 1); }
    if b != [] { assert !Broken(hash, b, |b| - 1); }
  }

  /** So any history can stand before a given last append with the anchor unchanged. */
  lemma HistoryCanBeReplaced(hash: Content -> Digest, before: seq<Entry>, other: seq<Entry>, last: Entry)
    requires Ideal(hash)
    ensures var a, b := Built(hash, before + [last]), Built(hash, other + [last]);
            Intact(hash, a) && Intact(hash, b) && LastHash(a) == LastHash(b)
  {
    var xs, ys := before + [last], other + [last];
    BuiltIsIntact(hash, xs);
    BuiltIsIntact(hash, ys);
    LastIsAppended(hash, before, last);
    LastIsAppended(hash, other, last);
    SameAnchorExactlyWhen(hash, Built(hash, xs), Built(hash, ys));
  }

  lemma BuiltIsIntact(hash: Content -> Digest, entries: seq<Entry>)
    requires Ideal(hash)
    ensures Intact(hash, Built(hash, entries))
  {
    BuiltLogsVerify(hash, entries, Built(hash, entries));
  }

  lemma LastIsAppended(hash: Content -> Digest, entries: seq<Entry>, last: Entry)
    ensures var log := Built(hash, entries + [last]);
            log != [] && Hashed(log[|log| - 1]) == Content(last.action, last.target, last.actor, last.now)
  {
    assert (entries + [last])[..|entries|] == entries;
  }

  function Without(log: seq<Row>, k: nat): seq<Row>
    requires k < |log|
  {
    log[..k] + log[k + 1..]
  }

  /** Two neighbouring rows say the same, so that either can stand for both. */
  predicate SameAsPrevious(log: seq<Row>, k: nat)
    requires k < |log|
  {
    k > 0 && Hashed(log[k]) == Hashed(log[k - 1])
  }

  /**
   * Removing row k of an intact log goes unnoticed exactly when it was the last row or repeats the
   * content of the row before; otherwise the row that took its place is reported.
   */
  lemma RemovedRowIsReported(hash: Content -> Digest, log: seq<Row>, k: nat)
    requires Ideal(hash) && Intact(hash, log) && k < |log|
    ensures Intact(hash, Without(log, k)) <==> k == |log| - 1 || SameAsPrevious(log, k)
    ensures !Intact(hash, Without(log, k)) ==>
            Broken(hash, Without(log, k), k) && forall i :: 0 <= i < k ==> !Broken(hash, Without(log, k), i)
  {
    var rest := Without(log, k);
    forall i | 0 <= i < |rest| && i != k ensures !Broken(hash, rest, i) {
      if i < k {
        assert !Broken(hash, log, i);
      } else {
        assert !Broken(hash, log, i + 1);
        assert rest[i] == log[i + 1] && rest[i - 1] == log[i];
      }
    }
    if k < |rest| {
      assert rest[k] == log[k + 1];
      assert !Broken(hash, log, k + 1) && !Broken(hash, log, k);
      if k > 0 {
        assert rest[k - 1] == log[k - 1];
        assert !Broken(hash, log, k - 1);
      }
      assert Broken(hash, rest, k) <==> !SameAsPrevious(log, k);
    }
  }

  // ----- appends that overlap -----

  /** An append reads the last hash and inserts its row later; other appends may run in between. */
  datatype Event = Begin(who: nat, entry: Entry) | Insert(who: nat)

  /** An append that has read: its entry, the hash it read, and how many rows there were then. */
  datatype Open = Open(entry: Entry, prev: Digest, seen: nat)

  /** `seen` records for each row how many rows there were when its append read the last hash. */
  datatype Table = Table(log: seq<Row>, open: map<nat, Open>, seen: seq<nat>)

  function Handle(hash: Content -> Digest, a: Table, e: Event): Table {
    match e
    case Begin(who, entry) =>
      if who in a.open then a else a.(open := a.open[who := Open(entry, LastHash(a.log), |a.log|)])
    case Insert(who) =>
      if who !in a.open then a
      else
        var o := a.open[who];
        Table(a.log + [NewRow(hash, o.prev, o.entry)], a.open - {who}, a.seen + [o.seen])
  }

  function Run(hash: Content -> Digest, events: seq<Event>): Table {
    if events == [] then Table([], map[], [])
    else Handle(hash, Run(hash, events[..|events| - 1]), events[|events| - 1])
  }

  /** An append that nothing interrupts is append_audit. */
  lemma UninterruptedAppend(hash: Content -> Digest, a: Table, who: nat, e: Entry)
    requires who !in a.open
    ensures Handle(hash, Handle(hash, a, Begin(who, e)), Insert(who)).log == a.log + [NewRow(hash, LastHash(a.log), e)]
  {
  }

  /** Each row carries its own hash and the last hash its append read. */
  ghost predicate Chained(hash: Content -> Digest, a: Table) {
    && |a.seen| == |a.log|
    && (forall i :: 0 <= i < |a.log| ==>
          a.seen[i] <= i && a.log[i].contentHash == hash(Hashed(a.log[i])) &&
              a.log[i].prevHash == LastHash(a.log[..a.seen[i]]))
    && (forall who :: who in a.open ==>
        a.open[who].seen <= |a.log| && a.open[who].prev == LastHash(a.log[..a.open[who].seen]))
  }

  lemma ChainedKept(hash: Content -> Digest, a: Table, e: Event)
    requires Chained(hash, a)
    ensures Chained(hash, Handle(hash, a, e))
  {
    hide LastHash;
    var a' := Handle(hash, a, e);
    forall n | 0 <= n <= |a.log| ensures a'.log[..n] == a.log[..n] {
    }
    assert a.log[..|a.log|] == a.log;
  }

  lemma {:induction false} AlwaysChained(hash: Content -> Digest, events: seq<Event>)
    ensures Chained(hash, Run(hash, events))
  {
    if events != [] {
      hide Handle, Chained;
      AlwaysChained(hash, events[..|events| - 1]);
      ChainedKept(hash, Run(hash, events[..|events| - 1]), events[|events| - 1]);
    } else {
      assert Run(hash, events) == Table([], map[], []);
    }
  }

  /** No row was inserted between row i's read and its insertion, or the last one said the same as the one read. */
  predicate LooksCurrent(a: Table, i: nat)
    requires i < |a.log| == |a.seen| && a.seen[i] <= i
  {
    a.seen[i] == i || (a.seen[i] > 0 && Hashed(a.log[a.seen[i] - 1]) == Hashed(a.log[i - 1]))
  }

  lemma BrokenExactlyWhenStale(hash: Content -> Digest, a: Table, i: nat)
    requires Ideal(hash) && Chained(hash, a) && i < |a.log|
    ensures Broken(hash, a.log, i) <==> !LooksCurrent(a, i)
  {
    var n := a.seen[i];
    if n > 0 {
      assert a.log[..n][n - 1] == a.log[n - 1];
      assert LastHash(a.log[..n]) == a.log[n - 1].contentHash;
    } else {
      assert LastHash(a.log[..n]) == GENESIS;
    }
  }

  /**
   * In any interleaving of appends, row i of the log is broken exactly when other rows were inserted
   * between its append's read and its insertion, unless the last of them repeats the row it read.
   */
  lemma InterleavedRowIsBrokenExactlyWhen(hash: Content -> Digest, events: seq<Event>, i: nat)
    requires Ideal(hash) && i < |Run(hash, events).log|
    ensures var a := Run(hash, events);
            |a.seen| == |a.log| && a.seen[i] <= i && (Broken(hash, a.log, i) <==> !LooksCurrent(a, i))
  {
    hide Run, Broken, LooksCurrent;
    AlwaysChained(hash, events);
    BrokenExactlyWhenStale(hash, Run(hash, events), i);
  }

  predicate ContentsDiffer(log: seq<Row>) {
    forall i, j :: 0 <= i < j < |log| ==> Hashed(log[i]) != Hashed(log[j])
  }

  /**
   * With contents that all differ, as their timestamps make them, the log is intact exactly when no insertion
   * fell into another append.
   */
  lemma IntactExactlyWithoutOverlap(hash: Content -> Digest, events: seq<Event>)
    requires Ideal(hash) && ContentsDiffer(Run(hash, events).log)
    ensures var a := Run(hash, events);
            Intact(hash, a.log) <==> |a.seen| == |a.log| && forall i :: 0 <= i < |a.log| ==> a.seen[i] == i
  {
    hide Run, Broken;
    AlwaysChained(hash, events);
    var a := Run(hash, events);
    forall i | 0 <= i < |a.log| ensures Broken(hash, a.log, i) <==> a.seen[i] != i {
      InterleavedRowIsBrokenExactlyWhen(hash, events, i);
    }
  }

  /** Two first appends that both read before either inserts leave a log that is broken at the second row. */
  lemma TwoOverlappingAppends(hash: Content -> Digest, e: Entry, f: Entry)
    requires Ideal(hash)
    ensures var log := Run(hash, [Begin(0, e), Begin(1, f), Insert(0), Insert(1)]).log;
            |log| == 2 && !Broken(hash, log, 0) && Broken(hash, log, 1)
  {
    var events := [Begin(0, e), Begin(1, f), Insert(0), Insert(1)];
    assert events[..3] == [Begin(0, e), Begin(1, f), Insert(0)] && events[..3][..2] == [Begin(0, e), Begin(1, f)];
    assert events[..3][..2][..1] == [Begin(0, e)] && events[..3][..2][..1][..0] == [];
    assert Run(hash, []) == Table([], map[], []);
    var a := Handle(hash, Run(hash, []), Begin(0, e));
    assert Run(hash, events[..3][..2][..1]) == a;
    var b := Handle(hash, a, Begin(1, f));
    assert Run(hash, events[..3][..2]) == b;
    var c := Handle(hash, b, Insert(0));
    assert Run(hash, events[..3]) == c;
    assert Run(hash, events) == Handle(hash, c, Insert(1));
  }
}
