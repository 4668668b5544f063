/**
 The hash-chained containment log: `Store`'s containment table, `ContainmentLog.append` and
 `verify_chain`.

 HMAC is a function handed in by the caller. The canonical entry is a JSON object in some layout; its
 layout is handed in as well. Equal sequence numbers sort in insertion order.
 */
module AuditLog {
  import opened Options
  import opened Sorting
  import opened Nesting
  import opened Framing

  type Tag = seq<Byte>

  /** What the caller of `append` supplies, time stamp included. */
  datatype Content = Content(ts: int, runId: string, caller: string, action: string, detail: string)

  datatype Row = Row(seqNo: int, content: Content, prev: Tag, tag: Tag)

  /** The keyed hash and the canonical text of an entry. */
  datatype Scheme = Scheme(mac: seq<Byte> -> Tag, canon: (int, Content, Tag) -> Value, genesis: Tag)

  /** What a log object caches: the number and the link of its next entry. */
  datatype Cursor = Cursor(seqNo: int, prev: Tag)

  ghost predicate SchemeOk(sc: Scheme) {
    forall n, c, p :: ValueOk(sc.canon(n, c, p)) && sc.canon(n, c, p).Object?
  }

  function Canonical(sc: Scheme, n: int, c: Content, prev: Tag): seq<Byte> {
    ValueBytes(sc.canon(n, c, prev))
  }

  /** The authenticated message: a plain concatenation. */
  function Message(sc: Scheme, n: int, c: Content, prev: Tag): seq<Byte> {
    prev + Canonical(sc, n, c, prev)
  }

  function MakeRow(sc: Scheme, cur: Cursor, c: Content): Row {
    Row(cur.seqNo, c, cur.prev, sc.mac(Message(sc, cur.seqNo, c, cur.prev)))
  }

  predicate SeqLe(a: Row, b: Row) { a.seqNo <= b.seqNo }

  /** `ORDER BY seq`. */
  function Log(rows: seq<Row>): seq<Row> { Sort(SeqLe, rows) }

  predicate TagOk(sc: Scheme, r: Row) { r.tag == sc.mac(Message(sc, r.seqNo, r.content, r.prev)) }

  /** What `verify_chain` accepts: contiguous numbers, valid tags, and links from the second row on. */
  predicate ChainOk(sc: Scheme, log: seq<Row>) {
    forall i :: 0 <= i < |log| ==>
      log[i].seqNo == i && TagOk(sc, log[i]) && (i > 0 ==> log[i].prev == log[i - 1].tag)
  }

  predicate Verified(sc: Scheme, rows: seq<Row>) { ChainOk(sc, Log(rows)) }

  /** `last` has the largest sequence number of all rows. */
  predicate IsLast(rows: seq<Row>, last: Row) {
    last in rows && forall r :: r in rows ==> r.seqNo <= last.seqNo
  }

  /** What a log object constructed now would cache. */
  predicate IsTail(sc: Scheme, rows: seq<Row>, cur: Cursor) {
    if rows == [] then cur == Cursor(0, sc.genesis)
    else exists last :: last in rows && IsLast(rows, last) && cur == Cursor(last.seqNo + 1, last.tag)
  }

  // ----- the classes ---------------------------------------------------------------------------

  datatype Status = Running | Rejected | Complete

  /** A row of the runs table. */
  datatype Run = Run(scopeId: string, target: string, caller: string, status: Status)

  function ScopeRuns(runs: map<string, Run>, scopeId: string): set<string> {
    set id | id in runs && runs[id].scopeId == scopeId
  }

  class Store {
    var rows: seq<Row>
    var runs: map<string, Run>

    constructor ()
      ensures rows == [] && runs == map[]
    {
      rows, runs := [], map[];
    }

    /** `INSERT OR REPLACE` on the primary key. */
    method AddRun(runId: string, run: Run)
      modifies this`runs
      ensures runs == old(runs)[runId := run]
    {
      runs := runs[runId := run];
    }

    method SetRunStatus(runId: string, status: Status)
      modifies this`runs
      ensures runs == if runId in old(runs) then old(runs)[runId := old(runs)[runId].(status := status)] else old(runs)
    {
      if runId in runs { runs := runs[runId := runs[runId].(status := status)]; }
    }

    /** `SELECT COUNT(*)` over the rows of one scope. */
    method ScopeRunCount(scopeId: string) returns (n: nat)
      ensures n == |ScopeRuns(runs, scopeId)|
    {
      n := 0;
      ghost var seen, counted: set<string> := {}, {};
      var left := runs.Keys;
      while left != {}
        invariant seen + left == runs.Keys && seen !! left
        invariant forall id :: id in counted <==> id in seen && runs[id].scopeId == scopeId
        invariant n == |counted|
        decreases |left|
      {
        var id :| id in left;
        if runs[id].scopeId == scopeId { n, counted := n + 1, counted + {id}; }
        seen, left := seen + {id}, left - {id};
      }
      assert counted == ScopeRuns(runs, scopeId);
    }

    method AddContainment(r: Row)
      modifies this`rows
      ensures rows == old(rows) + [r]
    {
      rows := rows + [r];
    }

    /** `ORDER BY seq DESC LIMIT 1`. */
    method LastContainment() returns (last: Option<Row>)
      ensures last.None? <==> rows == []
      ensures last.Some? ==> IsLast(rows, last.value)
    {
      if rows == [] { return None; }
      var best := rows[0];
      for i := 1 to |rows|
        invariant best in rows && forall k :: 0 <= k < i ==> rows[k].seqNo <= best.seqNo
      {
        if rows[i].seqNo > best.seqNo { best := rows[i]; }
      }
      return Some(best);
    }

    /** `ORDER BY seq`: the stored rows, each as often as stored, by ascending number. */
    method ContainmentLogRows() returns (log: seq<Row>)
      ensures Sorted(SeqLe, log) && multiset(log) == multiset(rows)
      ensures log == Log(rows)
    {
      log := [];
      for i := 0 to |rows|
        invariant log == Log(rows[|rows| - i..])
      {
        var k := |rows| - 1 - i;
        assert rows[k..] == [rows[k]] + rows[k + 1..];
        log := Insert(SeqLe, rows[k], log);
      }
      assert rows[0..] == rows;
      SortSorted(SeqLe, rows);
    }
  }

  class ContainmentLog {
    const store: Store
    const sc: Scheme
    const runId: string
    const caller: string
    var seqNo: int
    var prevHash: Tag

    function Cur(): Cursor
      reads this
    {
      Cursor(seqNo, prevHash)
    }

    constructor (store: Store, sc: Scheme, runId: string, caller: string)
      ensures this.store == store && this.sc == sc && this.runId == runId && this.caller == caller
      ensures IsTail(sc, store.rows, Cur())
    {
      this.store, this.sc, this.runId, this.caller := store, sc, runId, caller;
      var last := store.LastContainment();
      this.seqNo := if last.Some? then last.value.seqNo + 1 else 0;
      this.prevHash := if last.Some? then last.value.tag else sc.genesis;
    }

    method Append(ts: int, action: string, detail: string) returns (e: Row)
      modifies this, store`rows
      ensures e == MakeRow(sc, old(Cur()), Content(ts, runId, caller, action, detail))
      ensures store.rows == old(store.rows) + [e]
      ensures Cur() == Cursor(old(seqNo) + 1, e.tag)
    {
      var content := Content(ts, runId, caller, action, detail);
      var canonical := ValueBytes(sc.canon(seqNo, content, prevHash));
      e := Row(seqNo, content, prevHash, sc.mac(prevHash + canonical));
      store.AddContainment(e);
      seqNo := seqNo + 1;
      prevHash := e.tag;
    }
  }

  method VerifyChain(sc: Scheme, store: Store) returns (ok: bool)
    ensures ok <==> Verified(sc, store.rows)
  {
    var rows := store.ContainmentLogRows();
    var prev: Option<Tag> := None;
    for i := 0 to |rows|
      invariant ChainOk(sc, rows[..i])
      invariant prev == if i == 0 then None else Some(rows[i - 1].tag)
    {
      var r := rows[i];
      assert rows[..i + 1] == rows[..i] + [r];
      if r.seqNo != i { return false; }
      var canonical := ValueBytes(sc.canon(r.seqNo, r.content, r.prev));
      if sc.mac(r.prev + canonical) != r.tag { assert !TagOk(sc, r); return false; }
      if prev.Some? && r.prev != prev.value { return false; }
      prev := Some(r.tag);
    }
    assert rows[..|rows|] == rows;
    return true;
  }

  // ----- one append ----------------------------------------------------------------------------

  lemma SeqOrder()
    ensures TotalOrder(SeqLe)
  {
  }

  /** A verified table is a permutation of rows numbered 0, 1, 2, ... */
  lemma VerifiedNumbers(sc: Scheme, rows: seq<Row>)
    requires Verified(sc, rows)
    ensures forall r :: r in rows ==> 0 <= r.seqNo < |rows| && r == Log(rows)[r.seqNo]
  {
    forall r | r in rows
      ensures 0 <= r.seqNo < |rows| && r == Log(rows)[r.seqNo]
    {
      SameElements(rows, Log(rows), r);
      var i :| 0 <= i < |Log(rows)| && Log(rows)[i] == r;
    }
  }

  /** The only cursor an object constructed over a verified table can have. */
  function NextCursor(sc: Scheme, log: seq<Row>): Cursor {
    if log == [] then Cursor(0, sc.genesis) else Cursor(|log|, log[|log| - 1].tag)
  }

  lemma VerifiedTail(sc: Scheme, rows: seq<Row>, cur: Cursor)
    requires Verified(sc, rows)
    ensures IsTail(sc, rows, cur) <==> cur == NextCursor(sc, Log(rows))
  {
    var log := Log(rows);
    VerifiedNumbers(sc, rows);
    if rows != [] {
      var last := log[|log| - 1];
      SameElements(log, rows, last);
      assert IsLast(rows, last);
      forall other | other in rows && IsLast(rows, other)
        ensures other == last
      {
        assert last.seqNo <= other.seqNo;
      }
    }
  }

  lemma AppendSorts(sc: Scheme, rows: seq<Row>, r: Row)
    requires Verified(sc, rows) && r.seqNo == |rows|
    ensures Log(rows + [r]) == Log(rows) + [r]
  {
    var log := Log(rows);
    var longer := log + [r];
    SeqOrder();
    assert multiset(longer) == multiset(rows + [r]);
    assert Sorted(SeqLe, longer);
    assert forall i :: 0 <= i < |longer| ==> longer[i].seqNo == i;
    SortSorted(SeqLe, rows + [r]);
    SortedUnique(SeqLe, longer, Log(rows + [r]));
  }

  lemma CurrentAppendVerifies(sc: Scheme, rows: seq<Row>, cur: Cursor, c: Content)
    requires Verified(sc, rows) && IsTail(sc, rows, cur)
    ensures Verified(sc, rows + [MakeRow(sc, cur, c)])
    ensures IsTail(sc, rows + [MakeRow(sc, cur, c)], Cursor(cur.seqNo + 1, MakeRow(sc, cur, c).tag))
  {
    VerifiedTail(sc, rows, cur);
    var r := MakeRow(sc, cur, c);
    AppendSorts(sc, rows, r);
    VerifiedTail(sc, rows + [r], Cursor(cur.seqNo + 1, r.tag));
  }

  /** Numbers lag behind the row count: some number must occur twice. */
  predicate Broken(rows: seq<Row>) {
    forall r :: r in rows ==> r.seqNo + 1 < |rows|
  }

  lemma BrokenNeverVerifies(sc: Scheme, rows: seq<Row>)
    requires rows != [] && Broken(rows)
    ensures !Verified(sc, rows)
  {
    var log := Log(rows);
    SameElements(log, rows, log[|log| - 1]);
  }

  // ----- interleavings -------------------------------------------------------------------------

  /** Construct the log object `id`, or append through it. */
  datatype Op = Construct(id: nat, cur: Cursor) | Append(id: nat, content: Content)

  datatype World = World(rows: seq<Row>, objects: map<nat, Cursor>)

  ghost predicate Enabled(sc: Scheme, w: World, op: Op) {
    match op
    case Construct(_, cur) => IsTail(sc, w.rows, cur)
    case Append(id, _) => id in w.objects
  }

  function Step(sc: Scheme, w: World, op: Op): World {
    match op
    case Construct(id, cur) => w.(objects := w.objects[id := cur])
    case Append(id, c) =>
      if id !in w.objects then w
      else
        var cur := w.objects[id];
        var r := MakeRow(sc, cur, c);
        World(w.rows + [r], w.objects[id := Cursor(cur.seqNo + 1, r.tag)])
  }

  function Steps(sc: Scheme, w: World, ops: seq<Op>): World
    decreases |ops|
  {
    if ops == [] then w else Steps(sc, Step(sc, w, ops[0]), ops[1..])
  }

  ghost predicate AllEnabled(sc: Scheme, w: World, ops: seq<Op>)
    decreases |ops|
  {
    ops != [] ==> Enabled(sc, w, ops[0]) && AllEnabled(sc, Step(sc, w, ops[0]), ops[1..])
  }

  /** An append through an object whose cached tail is no longer the tail. */
  predicate Stale(sc: Scheme, w: World, op: Op) {
    op.Append? && op.id in w.objects && !IsTail(sc, w.rows, w.objects[op.id])
  }

  predicate NeverStale(sc: Scheme, w: World, ops: seq<Op>)
    decreases |ops|
  {
    ops != [] ==> !Stale(sc, w, ops[0]) && NeverStale(sc, Step(sc, w, ops[0]), ops[1..])
  }

  /** While the table verifies, an object's number is at most the next one, and then its link fits. */
  predicate Healthy(sc: Scheme, w: World) {
    && Verified(sc, w.rows)
    && forall id :: id in w.objects ==>
         var cur := w.objects[id];
         cur.seqNo <= |w.rows| && (cur.seqNo == |w.rows| ==> cur == NextCursor(sc, Log(w.rows)))
  }

  /** Once broken, every object's number stays below the row count. */
  predicate Hopeless(w: World) {
    && w.rows != []
    && Broken(w.rows)
    && forall id :: id in w.objects ==> w.objects[id].seqNo < |w.rows|
  }

  lemma HealthyStep(sc: Scheme, w: World, op: Op)
    requires Healthy(sc, w) && Enabled(sc, w, op)
    ensures if Stale(sc, w, op) then Hopeless(Step(sc, w, op)) else Healthy(sc, Step(sc, w, op))
  {
    match op
    case Construct(id, cur) => VerifiedTail(sc, w.rows, cur);
    case Append(id, c) =>
      var cur := w.objects[id];
      VerifiedTail(sc, w.rows, cur);
      VerifiedNumbers(sc, w.rows);
      if !Stale(sc, w, op) {
        var r := MakeRow(sc, cur, c);
        CurrentAppendVerifies(sc, w.rows, cur, c);
        VerifiedTail(sc, w.rows + [r], Cursor(cur.seqNo + 1, r.tag));
      }
  }

  lemma HopelessStep(sc: Scheme, w: World, op: Op)
    requires Hopeless(w) && Enabled(sc, w, op)
    ensures Hopeless(Step(sc, w, op))
  {
  }

  lemma {:induction false} HopelessSteps(sc: Scheme, w: World, ops: seq<Op>)
    requires Hopeless(w) && AllEnabled(sc, w, ops)
    ensures Hopeless(Steps(sc, w, ops))
    decreases |ops|
  {
    if ops != [] {
      HopelessStep(sc, w, ops[0]);
      HopelessSteps(sc, Step(sc, w, ops[0]), ops[1..]);
    }
  }

  lemma {:induction false} HealthySteps(sc: Scheme, w: World, ops: seq<Op>)
    requires Healthy(sc, w) && AllEnabled(sc, w, ops)
    ensures if NeverStale(sc, w, ops) then Healthy(sc, Steps(sc, w, ops)) else Hopeless(Steps(sc, w, ops))
    decreases |ops|
  {
    if ops != [] {
      HealthyStep(sc, w, ops[0]);
      if Stale(sc, w, ops[0]) {
        HopelessSteps(sc, Step(sc, w, ops[0]), ops[1..]);
      } else {
        HealthySteps(sc, Step(sc, w, ops[0]), ops[1..]);
      }
    }
  }

  /**
   Over any interleaving of any number of log objects on one verified table, verification succeeds if and
   only if no append was stale.
   */
  lemma VerifiesExactlyWithoutStaleAppend(sc: Scheme, rows: seq<Row>, ops: seq<Op>)
    requires Verified(sc, rows) && AllEnabled(sc, World(rows, map[]), ops)
    ensures Verified(sc, Steps(sc, World(rows, map[]), ops).rows) <==> NeverStale(sc, World(rows, map[]), ops)
  {
    HealthySteps(sc, World(rows, map[]), ops);
    if !NeverStale(sc, World(rows, map[]), ops) {
      BrokenNeverVerifies(sc, Steps(sc, World(rows, map[]), ops).rows);
    }
  }

  /** One stale append is never repaired, whatever is appended afterwards. */
  lemma StaleAppendIsForever(sc: Scheme, rows: seq<Row>, ops: seq<Op>, more: seq<Op>)
    requires Verified(sc, rows) && AllEnabled(sc, World(rows, map[]), ops)
    requires !NeverStale(sc, World(rows, map[]), ops)
    requires AllEnabled(sc, Steps(sc, World(rows, map[]), ops), more)
    ensures !Verified(sc, Steps(sc, Steps(sc, World(rows, map[]), ops), more).rows)
  {
    var w := Steps(sc, World(rows, map[]), ops);
    HealthySteps(sc, World(rows, map[]), ops);
    HopelessSteps(sc, w, more);
    BrokenNeverVerifies(sc, Steps(sc, w, more).rows);
  }

  // ----- tampering -----------------------------------------------------------------------------

  /** The canonical text names its number. */
  ghost predicate CanonNamesNumber(sc: Scheme) {
    forall n, c, p, n', c', p' :: Canonical(sc, n, c, p) == Canonical(sc, n', c', p') ==> n == n'
  }

  /** A log written by one uninterrupted chain of appends from the genesis value. */
  predicate Honest(sc: Scheme, history: seq<Row>) {
    ChainOk(sc, history) && (history != [] ==> history[0].prev == sc.genesis)
  }

  /** Nobody but `append` can tag a message: every message in `rows` was tagged for some row of `history`. */
  ghost predicate OnlyIssued(sc: Scheme, rows: seq<Row>, history: seq<Row>) {
    forall r :: r in rows && TagOk(sc, r) ==>
      exists h :: h in history
        && Message(sc, r.seqNo, r.content, r.prev) == Message(sc, h.seqNo, h.content, h.prev)
  }

  predicate SameEntry(sc: Scheme, r: Row, h: Row) {
    && r.seqNo == h.seqNo
    && r.prev == h.prev
    && r.tag == h.tag
    && Canonical(sc, r.seqNo, r.content, r.prev) == Canonical(sc, h.seqNo, h.content, h.prev)
  }

  /** `log` is, entry by entry, the beginning of `history`. */
  predicate IsPrefix(sc: Scheme, log: seq<Row>, history: seq<Row>) {
    |log| <= |history| && forall i :: 0 <= i < |log| ==> SameEntry(sc, log[i], history[i])
  }

  lemma IssuedRowIsOriginal(sc: Scheme, r: Row, history: seq<Row>)
    requires SchemeOk(sc) && CanonNamesNumber(sc) && ChainOk(sc, history) && TagOk(sc, r)
    requires exists h :: h in history && Message(sc, r.seqNo, r.content, r.prev) == Message(sc, h.seqNo, h.content, h.prev)
    ensures 0 <= r.seqNo < |history| && SameEntry(sc, r, history[r.seqNo])
  {
    var h :| h in history && Message(sc, r.seqNo, r.content, r.prev) == Message(sc, h.seqNo, h.content, h.prev);
    var j :| 0 <= j < |history| && history[j] == h;
    MessageHasOneReading(r.prev, sc.canon(r.seqNo, r.content, r.prev), h.prev, sc.canon(h.seqNo, h.content, h.prev));
    assert Canonical(sc, r.seqNo, r.content, r.prev) == Canonical(sc, h.seqNo, h.content, h.prev);
    assert TagOk(sc, h);
  }

  lemma SameEntryTagged(sc: Scheme, r: Row, h: Row)
    requires SameEntry(sc, r, h) && TagOk(sc, h)
    ensures TagOk(sc, r)
  {
  }

  /**
   Any table made of issued tags verifies if and only if it is, in canonical content, a prefix of the
   honest history: no edit, reordering, insertion or inner deletion survives, a removed tail does.
   */
  lemma VerifiesExactlyPrefixes(sc: Scheme, rows: seq<Row>, history: seq<Row>)
    requires SchemeOk(sc) && CanonNamesNumber(sc) && Honest(sc, history) && OnlyIssued(sc, rows, history)
    ensures Verified(sc, rows) <==> IsPrefix(sc, Log(rows), history)
  {
    var log := Log(rows);
    if Verified(sc, rows) {
      forall i | 0 <= i < |log|
        ensures i < |history| && SameEntry(sc, log[i], history[i])
      {
        SameElements(log, rows, log[i]);
        IssuedRowIsOriginal(sc, log[i], history);
      }
      if log != [] { assert SameEntry(sc, log[|log| - 1], history[|log| - 1]); }
    }
    if IsPrefix(sc, log, history) {
      forall i | 0 <= i < |log|
        ensures log[i].seqNo == i && TagOk(sc, log[i]) && (i > 0 ==> log[i].prev == log[i - 1].tag)
      {
        assert TagOk(sc, history[i]);
        SameEntryTagged(sc, log[i], history[i]);
        if i > 0 { assert SameEntry(sc, log[i - 1], history[i - 1]); }
      }
    }
  }

  // ----- what the theorems assume --------------------------------------------------------------

  /** A number as a row of letters, as many as it is large. */
  function Letters(n: int): (r: seq<Byte>)
    ensures r != [] && forall i :: 0 <= i < |r| ==> IsLiteral(r[i])
  {
    if n < 0 then seq(1 - n, _ => 0x62) else seq(n + 1, _ => 0x61)
  }

  function Numbered(n: int): Value { Object([], [Member([], [], [], Item([], Literal(Letters(n)), []))]) }

  lemma NumberedBytes(n: int)
    ensures ValueBytes(Numbered(n)) == [OPEN_OBJECT, QUOTE, QUOTE, COLON] + Letters(n) + [CLOSE_OBJECT]
  {
    hide Letters;
    var item := Item([], Literal(Letters(n)), []);
    var members := [Member([], [], [], item)];
    assert ItemBytes(item) == Letters(n);
    assert StringBytes([]) == [QUOTE, QUOTE];
    assert MembersBytes(members) == MemberBytes(members[0]) == [QUOTE, QUOTE, COLON] + Letters(n);
  }

  /** Layouts with the assumed properties exist. */
  lemma SchemesExist()
    ensures exists sc: Scheme :: SchemeOk(sc) && CanonNamesNumber(sc)
  {
    hide Letters;
    var sc := Scheme((bytes: seq<Byte>) => bytes, (n: int, _: Content, _: Tag) => Numbered(n), []);
    forall n ensures ValueOk(Numbered(n)) { NumberedOk(n); }
    assert SchemeOk(sc);
    forall n, c, p, n', c', p' | Canonical(sc, n, c, p) == Canonical(sc, n', c', p') ensures n == n' {
      NumberedBytes(n);
      NumberedBytes(n');
      var t, t' := ValueBytes(Numbered(n)), ValueBytes(Numbered(n'));
      assert t[4..|t| - 1] == Letters(n) && t'[4..|t'| - 1] == Letters(n');
      LettersInjective(n, n');
    }
    assert CanonNamesNumber(sc);
  }

  lemma NumberedOk(n: int)
    ensures ValueOk(Numbered(n))
  {
    assert ItemOk(Item([], Literal(Letters(n)), []));
  }

  lemma LettersInjective(n: int, m: int)
    requires Letters(n) == Letters(m)
    ensures n == m
  {
    assert Letters(n)[0] == Letters(m)[0] && |Letters(n)| == |Letters(m)|;
  }
}
