/** Event appends under PostgreSQL: many transactions interleave statement by statement, serialized per run only by
    the row lock each append takes first. */
module PostgresAppend {
  import opened Text
  import opened Models
  import opened Trails

  datatype Anchor = Anchor(count: nat, head: Option<Hash>)

  /** Where a transaction stands inside one append. */
  datatype Stage =
    | Ready
    | Locked(run: RunId, body: Body, at: Time)
    | HeadRead(run: RunId, body: Body, at: Time, prev: Option<Hash>)
    | Inserted(run: RunId, hash: Hash)

  /** Uncommitted rows and anchor versions of one open transaction. */
  datatype Tx = Tx(stage: Stage, rows: map<nat, Event>, anchors: map<RunId, Anchor>)

  /** Committed rows by sequence number, committed anchors, row locks, open transactions, and the next sequence number;
      a rolled back insert leaves its number unused. */
  datatype Db = Db(
    rows: map<nat, Event>, anchors: map<RunId, Anchor>, locks: map<RunId, nat>, txs: map<nat, Tx>, next: nat)

  datatype Act =
    | Begin(t: nat)
    | Lock(t: nat, run: RunId, body: Body, at: Time)
    | ReadHead(t: nat)
    | Insert(t: nat)
    | MoveAnchor(t: nat)
    | Commit(t: nat)
    | Rollback(t: nat)
    | InsertRun(t: nat, run: RunId)

  /** SELECT ... WHERE run_id = r ORDER BY sequence, over the numbers below `n`. */
  function Rows(m: map<nat, Event>, r: RunId, n: nat): seq<Event> {
    if n == 0 then []
    else Rows(m, r, n - 1) + (if n - 1 in m && m[n - 1].run == r then [m[n - 1]] else [])
  }

  /** What an open transaction sees: committed rows and its own. */
  function Visible(y: Db, t: nat): map<nat, Event>
    requires t in y.txs
  {
    y.rows + y.txs[t].rows
  }

  function AnchorSeen(y: Db, t: nat, r: RunId): Anchor
    requires t in y.txs
  {
    if r in y.txs[t].anchors then y.txs[t].anchors[r]
    else if r in y.anchors then y.anchors[r]
    else Anchor(0, None)
  }

  function LastHash(rows: seq<Event>): Option<Hash> {
    if rows == [] then None else Some(TextOf(rows[|rows| - 1].hash))
  }

  function Without(locks: map<RunId, nat>, t: nat): map<RunId, nat> {
    map r | r in locks && locks[r] != t :: locks[r]
  }

  function WithStage(y: Db, t: nat, stage: Stage): Db
    requires t in y.txs
  {
    y.(txs := y.txs[t := y.txs[t].(stage := stage)])
  }

  function Next(y: Db, act: Act): Db {
    match act
    case InsertRun(t, r) =>
      // The inserting transaction owns the row; a conflicting insert does nothing or waits.
      if t in y.txs && y.txs[t].stage.Ready? && r !in y.anchors && r !in y.locks then
        y.(txs := y.txs[t := y.txs[t].(anchors := y.txs[t].anchors[r := Anchor(0, None)])], locks := y.locks[r := t])
      else y
    case Begin(t) => if t in y.txs then y else y.(txs := y.txs[t := Tx(Ready, map[], map[])])
    case Lock(t, r, body, at) =>
      // A lock another transaction holds makes the statement wait: the step is not taken yet.
      if t in y.txs && y.txs[t].stage.Ready? && (if r in y.locks then y.locks[r] == t else r in y.anchors) then
        WithStage(y, t, Locked(r, body, at)).(locks := y.locks[r := t])
      else y
    case ReadHead(t) =>
      if t in y.txs && y.txs[t].stage.Locked? then
        var g := y.txs[t].stage;
        WithStage(y, t, HeadRead(g.run, g.body, g.at, LastHash(Rows(Visible(y, t), g.run, y.next))))
      else y
    case Insert(t) =>
      if t in y.txs && y.txs[t].stage.HeadRead? then
        var g := y.txs[t].stage;
        var hash := Digest(g.run, g.body, g.prev, g.at);
        var e := Event(g.run, g.body, g.prev, Some(hash), g.at);
        y.(txs := y.txs[t := Tx(Inserted(g.run, hash), y.txs[t].rows[y.next := e], y.txs[t].anchors)],
           next := y.next + 1)
      else y
    case MoveAnchor(t) =>
      if t in y.txs && y.txs[t].stage.Inserted? then
        var g := y.txs[t].stage;
        var a := Anchor(AnchorSeen(y, t, g.run).count + 1, Some(g.hash));
        y.(txs := y.txs[t := Tx(Ready, y.txs[t].rows, y.txs[t].anchors[g.run := a])])
      else y
    case Commit(t) =>
      if t in y.txs && y.txs[t].stage.Ready? then
        y.(rows := y.rows + y.txs[t].rows, anchors := y.anchors + y.txs[t].anchors, locks := Without(y.locks, t),
           txs := y.txs - {t})
      else y
    case Rollback(t) =>
      if t in y.txs then y.(locks := Without(y.locks, t), txs := y.txs - {t}) else y
  }

  function Run(acts: seq<Act>): Db {
    if acts == [] then Db(map[], map[], map[], map[], 0) else Next(Run(acts[..|acts| - 1]), acts[|acts| - 1])
  }

  // ---- Invariant ----

  /** The committed chain of `r` is whole and its anchor is its count and head. */
  predicate CommittedWhole(y: Db, r: RunId)
    requires r in y.anchors
  {
    Verified(r, Rows(y.rows, r, y.next), y.anchors[r].count, y.anchors[r].head)
  }

  /** A run's rows and anchor as one transaction at stage `g` sees them: a whole chain whose anchor is due exactly when
      an insert is pending. */
  predicate ChainFits(r: RunId, rows: seq<Event>, a: Anchor, g: Stage) {
    && Sealed(r, rows)
    && (if g.Inserted? && g.run == r then a.count + 1 == |rows| && ChainHead(r, rows) == Some(g.hash)
        else a.count == |rows| && a.head == ChainHead(r, rows))
    && (g.HeadRead? && g.run == r ==> g.prev == ChainHead(r, rows))
  }

  /** The holder of `r`'s lock is an open transaction that sees the run, with a fitting chain. */
  predicate HolderSees(y: Db, r: RunId)
    requires r in y.locks
  {
    var t := y.locks[r];
    && t in y.txs && (r in y.anchors || r in y.txs[t].anchors)
    && ChainFits(r, Rows(Visible(y, t), r, y.next), AnchorSeen(y, t, r), y.txs[t].stage)
  }

  predicate OwnRow(y: Db, t: nat, k: nat)
    requires t in y.txs && k in y.txs[t].rows
  {
    var r := y.txs[t].rows[k].run;
    k < y.next && k !in y.rows && r in y.locks && y.locks[r] == t
  }

  /** A transaction writes only to runs whose lock it holds, under numbers nobody else uses. */
  predicate Confined(y: Db, t: nat)
    requires t in y.txs
  {
    var x := y.txs[t];
    && (forall k {:trigger OwnRow(y, t, k)} :: k in x.rows ==> OwnRow(y, t, k))
    && (forall r {:trigger r in x.anchors} :: r in x.anchors ==> r in y.locks && y.locks[r] == t)
    && (!x.stage.Ready? ==> x.stage.run in y.locks && y.locks[x.stage.run] == t)
  }

  predicate CommittedRow(y: Db, k: nat)
    requires k in y.rows
  {
    k < y.next && y.rows[k].run in y.anchors
  }

  /** No sequence number is used twice. */
  predicate Apart(y: Db, t: nat, x: nat)
    requires t in y.txs && x in y.txs
  {
    y.txs[t].rows.Keys !! y.txs[x].rows.Keys
  }

  predicate Whole(y: Db) {
    && (forall k {:trigger CommittedRow(y, k)} :: k in y.rows ==> CommittedRow(y, k))
    && (forall r {:trigger CommittedWhole(y, r)} :: r in y.anchors ==> CommittedWhole(y, r))
    && (forall t {:trigger Confined(y, t)} :: t in y.txs ==> Confined(y, t))
    && (forall r {:trigger HolderSees(y, r)} :: r in y.locks ==> HolderSees(y, r))
    && (forall t, x {:trigger Apart(y, t, x)} :: t in y.txs && x in y.txs && t != x ==> Apart(y, t, x))
  }

  lemma {:induction false} RowsAgree(m: map<nat, Event>, m': map<nat, Event>, r: RunId, n: nat)
    requires forall k :: k < n && k in m && m[k].run == r ==> k in m' && m'[k] == m[k]
    requires forall k :: k < n && k in m' && m'[k].run == r ==> k in m && m[k] == m'[k]
    ensures Rows(m, r, n) == Rows(m', r, n)
  {
    if n > 0 { RowsAgree(m, m', r, n - 1); }
  }

  lemma {:induction false} RowsNone(m: map<nat, Event>, r: RunId, n: nat)
    requires forall k :: k < n && k in m ==> m[k].run != r
    ensures Rows(m, r, n) == []
  {
    if n > 0 { RowsNone(m, r, n - 1); }
  }

  lemma LastIsHead(r: RunId, rows: seq<Event>)
    requires Sealed(r, rows)
    ensures LastHash(rows) == ChainHead(r, rows)
  {
  }

  // ---- One lemma per statement ----

  /** A statement of `t` that commits nothing leaves committed chains and the other transactions as they were. */
  lemma OthersKeep(y: Db, z: Db, t: nat)
    requires Whole(y)
    requires forall x :: x in z.txs && x != t ==> x in y.txs && z.txs[x] == y.txs[x]
    requires forall x :: x in y.txs && x != t ==> x in z.txs
    requires t in z.txs ==> z.txs[t].rows.Keys <= (if t in y.txs then y.txs[t].rows.Keys else {})
    requires z.rows == y.rows && z.anchors == y.anchors && z.next == y.next
    requires forall r :: (r in y.locks && y.locks[r] != t) ==> r in z.locks && z.locks[r] == y.locks[r]
    requires forall r :: (r in z.locks && z.locks[r] != t) ==> r in y.locks && z.locks[r] == y.locks[r]
    ensures forall k :: k in z.rows ==> CommittedRow(z, k)
    ensures forall x :: x in z.txs && x != t ==> Confined(z, x)
    ensures forall r :: r in z.anchors ==> CommittedWhole(z, r)
    ensures forall r :: r in z.locks && z.locks[r] != t ==> HolderSees(z, r)
    ensures forall v, x {:trigger Apart(z, v, x)} :: v in z.txs && x in z.txs && v != x ==> Apart(z, v, x)
  {
    hide Rows, Sealed, ChainHead;
    forall v, x | v in z.txs && x in z.txs && v != x ensures Apart(z, v, x) {
      assert v in y.txs && x in y.txs ==> Apart(y, v, x);
    }
    forall k | k in z.rows ensures CommittedRow(z, k) { assert CommittedRow(y, k); }
    forall r | r in z.anchors ensures CommittedWhole(z, r) { assert CommittedWhole(y, r); }
    forall r | r in z.locks && z.locks[r] != t ensures HolderSees(z, r) { assert HolderSees(y, r); }
    forall x | x in z.txs && x != t ensures Confined(z, x) {
      assert Confined(y, x);
      forall k | k in z.txs[x].rows ensures OwnRow(z, x, k) { assert OwnRow(y, x, k); }
    }
  }

  lemma BeginKeeps(y: Db, t: nat)
    requires Whole(y)
    ensures Whole(Next(y, Begin(t)))
  {
    hide CommittedRow, CommittedWhole, HolderSees;
    if t !in y.txs {
      assert forall r :: r in y.locks ==> y.locks[r] != t by { NoLockWithoutTx(y, t); }
      OthersKeep(y, Next(y, Begin(t)), t);
    }
  }

  lemma NoLockWithoutTx(y: Db, t: nat)
    requires Whole(y) && t !in y.txs
    ensures forall r :: r in y.locks ==> y.locks[r] != t
  {
    forall r | r in y.locks ensures y.locks[r] != t { assert HolderSees(y, r); }
  }

  lemma InsertRunKeeps(y: Db, t: nat, r: RunId)
    requires Whole(y)
    ensures Whole(Next(y, InsertRun(t, r)))
  {
    hide Rows, CommittedWhole;
    var z := Next(y, InsertRun(t, r));
    if t in y.txs && y.txs[t].stage.Ready? && r !in y.anchors && r !in y.locks {
      NobodyWrote(y, t, r);
      OthersKeep(y, z, t);
      OwnStays(y, z, t);
      assert HolderSees(z, r);
      hide CommittedRow, ChainFits;
      forall q | q in z.locks && q != r ensures HolderSees(z, q) { if z.locks[q] == t { assert HolderSees(y, q); } }
    }
  }

  lemma NobodyWrote(y: Db, t: nat, r: RunId)
    requires Whole(y) && t in y.txs && r !in y.anchors && r !in y.locks
    ensures Rows(Visible(y, t), r, y.next) == []
  {
    assert Confined(y, t);
    forall k | k < y.next && k in Visible(y, t) ensures Visible(y, t)[k].run != r {
      if k in y.txs[t].rows { assert OwnRow(y, t, k); } else { assert CommittedRow(y, k); }
    }
    RowsNone(Visible(y, t), r, y.next);
  }

  /** `t` stays confined when its rows stay and its locks only grow. */
  lemma OwnStays(y: Db, z: Db, t: nat)
    requires Whole(y) && t in y.txs && t in z.txs && z.txs[t].rows == y.txs[t].rows
    requires z.rows == y.rows && z.next >= y.next
    requires forall r :: (r in y.locks && y.locks[r] == t) ==> r in z.locks && z.locks[r] == t
    requires forall r :: (r in z.txs[t].anchors && r !in y.txs[t].anchors) ==> r in z.locks && z.locks[r] == t
    requires !z.txs[t].stage.Ready? ==> z.txs[t].stage.run in z.locks && z.locks[z.txs[t].stage.run] == t
    ensures Confined(z, t)
  {
    assert Confined(y, t);
    forall k | k in z.txs[t].rows ensures OwnRow(z, t, k) { assert OwnRow(y, t, k); }
  }

  lemma LockKeeps(y: Db, t: nat, r: RunId, body: Body, at: Time)
    requires Whole(y)
    ensures Whole(Next(y, Lock(t, r, body, at)))
  {
    hide Rows, CommittedRow, Sealed, ChainHead;
    var z := Next(y, Lock(t, r, body, at));
    if t in y.txs && y.txs[t].stage.Ready? && (if r in y.locks then y.locks[r] == t else r in y.anchors) {
      OthersKeep(y, z, t);
      OwnStays(y, z, t);
      if r !in y.locks { UnlockedSeen(y, t, r); } else { assert HolderSees(y, r); }
      assert HolderSees(z, r);
      hide ChainFits, CommittedWhole, Confined;
      forall q | q in z.locks && q != r ensures HolderSees(z, q) {
        if z.locks[q] == t { HolderMoves(y, z, q); }
      }
    }
  }

  /** A holder between appends keeps seeing a fitting chain while it turns to another run. */
  lemma HolderMoves(y: Db, z: Db, q: RunId)
    requires Whole(y) && q in y.locks && q in z.locks && z.locks[q] == y.locks[q]
    requires y.locks[q] in y.txs && y.locks[q] in z.txs && y.txs[y.locks[q]].stage.Ready?
    requires z.rows == y.rows && z.anchors == y.anchors && z.next == y.next
    requires
      var t := y.locks[q];
      && z.txs[t].rows == y.txs[t].rows && z.txs[t].anchors == y.txs[t].anchors && z.txs[t].stage.Locked?
    ensures HolderSees(z, q)
  {
    hide Rows, Sealed, ChainHead;
    assert HolderSees(y, q);
  }

  /** An unlocked run looks the same inside any transaction as outside. */
  lemma UnlockedSeen(y: Db, t: nat, r: RunId)
    requires Whole(y) && t in y.txs && r in y.anchors && r !in y.locks
    ensures r !in y.txs[t].anchors
    ensures Verified(r, Rows(Visible(y, t), r, y.next), y.anchors[r].count, y.anchors[r].head)
  {
    hide Sealed, ChainHead;
    assert CommittedWhole(y, r) && Confined(y, t);
    forall k | k < y.next && k in y.txs[t].rows ensures y.txs[t].rows[k].run != r && k !in y.rows {
      assert OwnRow(y, t, k);
    }
    RowsAgree(y.rows, Visible(y, t), r, y.next);
  }

  lemma ReadHeadKeeps(y: Db, t: nat)
    requires Whole(y)
    ensures Whole(Next(y, ReadHead(t)))
  {
    hide Rows, CommittedRow, CommittedWhole, Sealed, ChainHead, LastHash;
    var z := Next(y, ReadHead(t));
    if t in y.txs && y.txs[t].stage.Locked? {
      assert Confined(y, t);
      OthersKeep(y, z, t);
      OwnStays(y, z, t);
      hide Confined;
      forall q | q in z.locks && z.locks[q] == t ensures HolderSees(z, q) {
        assert HolderSees(y, q);
        LastIsHead(q, Rows(Visible(y, t), q, y.next));
      }
    }
  }

  lemma MoveAnchorKeeps(y: Db, t: nat)
    requires Whole(y)
    ensures Whole(Next(y, MoveAnchor(t)))
  {
    hide Rows, CommittedRow, CommittedWhole, Sealed, ChainHead;
    var z := Next(y, MoveAnchor(t));
    if t in y.txs && y.txs[t].stage.Inserted? {
      assert Confined(y, t);
      OthersKeep(y, z, t);
      OwnStays(y, z, t);
      hide Confined;
      forall q | q in z.locks && z.locks[q] == t ensures HolderSees(z, q) { assert HolderSees(y, q); }
    }
  }

  /** Taking one more sequence number changes no run's rows unless the number holds one of them. */
  lemma RowsNext(m: map<nat, Event>, m': map<nat, Event>, r: RunId, n: nat)
    requires forall k :: k < n ==> (k in m <==> k in m') && (k in m ==> m'[k] == m[k])
    ensures Rows(m', r, n + 1) == if n in m' && m'[n].run == r then Rows(m, r, n) + [m'[n]] else Rows(m, r, n)
  {
    RowsAgree(m, m', r, n);
  }

  lemma InsertKeeps(y: Db, t: nat)
    requires Whole(y)
    ensures Whole(Next(y, Insert(t)))
  {
    hide Rows, Sealed, ChainHead, HolderSees, Confined, CommittedWhole, ChainFits;
    var z := Next(y, Insert(t));
    if t in y.txs && y.txs[t].stage.HeadRead? {
      forall k | k in z.rows ensures CommittedRow(z, k) { assert CommittedRow(y, k); }
      forall r | r in z.anchors ensures CommittedWhole(z, r) { InsertCommitted(y, t, r); }
      forall x | x in z.txs ensures Confined(z, x) { InsertConfined(y, t, x); }
      forall q | q in z.locks ensures HolderSees(z, q) { InsertSeen(y, t, q); }
      forall v, x | v in z.txs && x in z.txs && v != x ensures Apart(z, v, x) {
        NextUnused(y, v);
        NextUnused(y, x);
        assert Apart(y, v, x);
      }
    }
  }

  lemma InsertCommitted(y: Db, t: nat, r: RunId)
    requires Whole(y) && t in y.txs && y.txs[t].stage.HeadRead? && r in y.anchors
    ensures CommittedWhole(Next(y, Insert(t)), r)
  {
    hide Rows, Sealed, ChainHead;
    assert CommittedWhole(y, r);
    NextUnused(y, t);
    RowsNext(y.rows, y.rows, r, y.next);
  }

  lemma InsertConfined(y: Db, t: nat, x: nat)
    requires Whole(y) && t in y.txs && y.txs[t].stage.HeadRead? && x in y.txs
    ensures Confined(Next(y, Insert(t)), x)
  {
    hide Rows, Sealed, ChainHead;
    var z := Next(y, Insert(t));
    assert Confined(y, x) && Confined(y, t);
    NextUnused(y, x);
    NextUnused(y, t);
    forall k | k in z.txs[x].rows ensures OwnRow(z, x, k) { if k != y.next { assert OwnRow(y, x, k); } }
  }

  /** Numbers at or past `next` are unused. */
  lemma NextUnused(y: Db, t: nat)
    requires Whole(y) && t in y.txs
    ensures y.next !in Visible(y, t)
  {
    assert Confined(y, t);
    forall k | k in y.rows ensures k < y.next { assert CommittedRow(y, k); }
    forall k | k in y.txs[t].rows ensures k < y.next { assert OwnRow(y, t, k); }
  }

  lemma InsertSeen(y: Db, t: nat, q: RunId)
    requires Whole(y) && t in y.txs && y.txs[t].stage.HeadRead? && q in y.locks
    ensures HolderSees(Next(y, Insert(t)), q)
  {
    hide Rows, Sealed, ChainHead;
    var z, x, g := Next(y, Insert(t)), y.locks[q], y.txs[t].stage;
    assert HolderSees(y, q) && Confined(y, t);
    assert g.run in y.locks && y.locks[g.run] == t;
    hide Confined;
    NextUnused(y, x);
    hide Whole;
    RowsNext(Visible(y, x), Visible(z, x), q, y.next);
    if q == g.run { SealedAppend(q, Rows(Visible(y, t), q, y.next), z.txs[t].rows[y.next]); }
  }

  lemma RollbackKeeps(y: Db, t: nat)
    requires Whole(y)
    ensures Whole(Next(y, Rollback(t)))
  {
    hide CommittedRow, CommittedWhole, HolderSees;
    if t in y.txs { OthersKeep(y, Next(y, Rollback(t)), t); }
  }

  lemma CommitKeeps(y: Db, t: nat)
    requires Whole(y)
    ensures Whole(Next(y, Commit(t)))
  {
    hide Rows, Sealed, ChainHead, HolderSees, Confined, CommittedWhole, ChainFits;
    var z := Next(y, Commit(t));
    if t in y.txs && y.txs[t].stage.Ready? {
      forall k | k in z.rows ensures CommittedRow(z, k) { CommitRow(y, t, k); }
      forall r | r in z.anchors ensures CommittedWhole(z, r) { CommitCommitted(y, t, r); }
      forall x | x in z.txs ensures Confined(z, x) { CommitConfined(y, t, x); }
      forall q | q in z.locks ensures HolderSees(z, q) { CommitSeen(y, t, q); }
      forall v, x | v in z.txs && x in z.txs && v != x ensures Apart(z, v, x) { assert Apart(y, v, x); }
    }
  }

  lemma CommitRow(y: Db, t: nat, k: nat)
    requires Whole(y) && t in y.txs && y.txs[t].stage.Ready? && k in Next(y, Commit(t)).rows
    ensures CommittedRow(Next(y, Commit(t)), k)
  {
    hide Rows, Sealed, ChainHead;
    assert Confined(y, t);
    if k in y.txs[t].rows {
      assert OwnRow(y, t, k);
      assert HolderSees(y, y.txs[t].rows[k].run);
    } else {
      assert CommittedRow(y, k);
    }
  }

  lemma CommitCommitted(y: Db, t: nat, r: RunId)
    requires Whole(y) && t in y.txs && y.txs[t].stage.Ready? && r in Next(y, Commit(t)).anchors
    ensures CommittedWhole(Next(y, Commit(t)), r)
  {
    hide Sealed, ChainHead;
    var z := Next(y, Commit(t));
    assert Confined(y, t);
    if r in y.locks && y.locks[r] == t {
      assert HolderSees(y, r);
    } else {
      assert CommittedWhole(y, r);
      NotMine(y, t, r);
    }
  }

  /** A run whose lock `t` does not hold has none of `t`'s rows. */
  lemma NotMine(y: Db, t: nat, r: RunId)
    requires Whole(y) && t in y.txs && (r in y.locks ==> y.locks[r] != t)
    ensures Rows(y.rows + y.txs[t].rows, r, y.next) == Rows(y.rows, r, y.next)
  {
    assert Confined(y, t);
    forall k | k in y.txs[t].rows ensures y.txs[t].rows[k].run != r && k !in y.rows { assert OwnRow(y, t, k); }
    RowsAgree(y.rows, y.rows + y.txs[t].rows, r, y.next);
  }

  lemma CommitConfined(y: Db, t: nat, x: nat)
    requires Whole(y) && t in y.txs && y.txs[t].stage.Ready? && x in y.txs && x != t
    ensures Confined(Next(y, Commit(t)), x)
  {
    hide Rows, Sealed, ChainHead;
    var z := Next(y, Commit(t));
    assert Confined(y, x) && Confined(y, t);
    forall k | k in z.txs[x].rows ensures OwnRow(z, x, k) {
      assert OwnRow(y, x, k) && Apart(y, t, x);
    }
  }

  lemma CommitSeen(y: Db, t: nat, q: RunId)
    requires Whole(y) && t in y.txs && y.txs[t].stage.Ready? && q in y.locks && y.locks[q] != t
    ensures HolderSees(Next(y, Commit(t)), q)
  {
    hide Sealed, ChainHead;
    var z, x := Next(y, Commit(t)), y.locks[q];
    assert HolderSees(y, q) && Confined(y, t);
    forall k | k in y.txs[t].rows ensures y.txs[t].rows[k].run != q && k !in y.rows { assert OwnRow(y, t, k); }
    RowsAgree(Visible(y, x), Visible(z, x), q, y.next);
  }

  lemma {:induction false} RunWhole(acts: seq<Act>)
    ensures Whole(Run(acts))
  {
    if acts != [] {
      var y := Run(acts[..|acts| - 1]);
      RunWhole(acts[..|acts| - 1]);
      hide Whole, Next;
      match acts[|acts| - 1]
      case InsertRun(t, r) => InsertRunKeeps(y, t, r);
      case Begin(t) => BeginKeeps(y, t);
      case Lock(t, r, body, at) => LockKeeps(y, t, r, body, at);
      case ReadHead(t) => ReadHeadKeeps(y, t);
      case Insert(t) => InsertKeeps(y, t);
      case MoveAnchor(t) => MoveAnchorKeeps(y, t);
      case Commit(t) => CommitKeeps(y, t);
      case Rollback(t) => RollbackKeeps(y, t);
    }
  }

  /** Some interleaving leads here. */
  ghost predicate Reachable(y: Db) { exists acts: seq<Act> :: Run(acts) == y }

  // ---- No fork ----

  function Depth(prev: Option<Hash>): nat {
    match prev
    case Some(Digest(_, _, before, _)) => 1 + Depth(before)
    case _ => 0
  }

  lemma {:induction false} HeadDepth(r: RunId, rows: seq<Event>)
    ensures Depth(ChainHead(r, rows)) == |rows|
  {
    if rows != [] { HeadDepth(r, rows[..|rows| - 1]); }
  }

  lemma {:induction false} PredecessorOf(r: RunId, rows: seq<Event>, i: nat)
    requires Sealed(r, rows) && i < |rows|
    ensures Depth(rows[i].prev) == i
  {
    if i == |rows| - 1 { HeadDepth(r, rows[..i]); } else { PredecessorOf(r, rows[..|rows| - 1], i); }
  }

  /** In every interleaving a run's committed chain verifies against its anchor and never forks. */
  lemma ChainNeverForks(y: Db, r: RunId)
    requires Reachable(y) && r in y.anchors
    ensures
      var rows := Rows(y.rows, r, y.next);
      && Verified(r, rows, y.anchors[r].count, y.anchors[r].head)
      && (forall i, j :: 0 <= i < j < |rows| ==> rows[i].prev != rows[j].prev)
  {
    hide Run, Rows, Sealed;
    var acts: seq<Act> :| Run(acts) == y;
    RunWhole(acts);
    assert CommittedWhole(y, r);
    var rows := Rows(y.rows, r, y.next);
    forall i, j | 0 <= i < j < |rows| ensures rows[i].prev != rows[j].prev {
      PredecessorOf(r, rows, i);
      PredecessorOf(r, rows, j);
    }
  }
}
