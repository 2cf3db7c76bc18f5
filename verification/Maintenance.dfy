/**
 * The primary's partitions: the metadata table, the attached tables, and the two maintenance passes
 * (partition.go:84-208). The only thing maintenance needs from names is that different cells of the grid
 * have different ones; Partitions.WholeMinuteGridIsSound proves it of the names the driver prints.
 */
module Maintenance {
  import opened Basics
  import opened GridTime

  datatype Range = Range(lower: Time, upper: Time)

  type Tables = map<string, Range>

  datatype Registry = Registry(meta: Tables, attached: Tables)

  /** The names of partitions by lower bound, the interval, and the instants that can be named. */
  datatype Grid = Grid(name: Time -> string, interval: Time, last: Time)

  ghost predicate OnGrid(g: Grid, lower: Time) {
    g.interval > 0 && 0 <= lower < g.last && lower % g.interval == 0
  }

  ghost predicate Sound(g: Grid) {
    g.interval > 0 && forall a, b :: OnGrid(g, a) && OnGrid(g, b) && g.name(a) == g.name(b) ==> a == b
  }

  function Cell(g: Grid, lower: Time): Range {
    Range(lower, lower + g.interval)
  }

  predicate Overlap(a: Range, b: Range) {
    a.lower < b.upper && b.lower < a.upper
  }

  /** CREATE TABLE IF NOT EXISTS ... PARTITION OF: a table of that name is left alone, an overlap is an error. */
  function Attach(tables: Tables, name: string, range: Range): Option<Tables> {
    if name in tables then Some(tables)
    else if exists n :: n in tables && Overlap(tables[n], range) then None
    else Some(tables[name := range])
  }

  /** One create transaction, or None when it rolls back. */
  function CreateTx(g: Grid, r: Registry, lower: Time): Option<Registry> {
    var name, range := g.name(lower), Cell(g, lower);
    match Attach(r.attached, name, range)
    case None => None
    case Some(attached) => Some(Registry(if name in r.meta then r.meta else r.meta[name := range], attached))
  }

  function Expired(meta: Tables, cutoff: Time): set<string> {
    set n | n in meta && meta[n].upper <= cutoff
  }

  /** One drop transaction, or None when it rolls back: a partition that is not attached cannot be detached. */
  function DropTx(r: Registry, cutoff: Time): Option<Registry> {
    var expired := Expired(r.meta, cutoff);
    if expired <= r.attached.Keys then Some(Registry(r.meta - expired, r.attached - expired)) else None
  }

  // ---- The invariant ---------------------------------------------------------------------------------

  /** A table stands for one cell of the grid, and its name says which. */
  ghost predicate IsCell(g: Grid, name: string, range: Range) {
    OnGrid(g, range.lower) && range == Cell(g, range.lower) && name == g.name(range.lower)
  }

  ghost predicate Inv(g: Grid, r: Registry) {
    && (forall n :: n in r.attached ==> IsCell(g, n, r.attached[n]))
    && (forall n :: n in r.meta ==> n in r.attached && r.meta[n] == r.attached[n])
  }

  /** Attached tables that the metadata does not know: what a setup run leaves that dies between its two statements. */
  function Orphans(r: Registry): set<string> {
    r.attached.Keys - r.meta.Keys
  }

  /** On the grid, cells that meet are the same cell. */
  lemma CellsMeetOnlyThemselves(g: Grid, a: Time, b: Time)
    requires OnGrid(g, a) && OnGrid(g, b)
    ensures Overlap(Cell(g, a), Cell(g, b)) <==> a == b
  {
    if a < b {
      GridGap(a, b, g.interval);
    } else if b < a {
      GridGap(b, a, g.interval);
    }
  }

  /** Every instant lies in at most one attached range. */
  lemma RangesAreDisjoint(g: Grid, r: Registry, m: string, n: string)
    requires Sound(g) && Inv(g, r) && m in r.attached && n in r.attached && m != n
    ensures !Overlap(r.attached[m], r.attached[n])
  {
    hide OnGrid;
    CellsMeetOnlyThemselves(g, r.attached[m].lower, r.attached[n].lower);
  }

  // ---- Maintenance by any number of drivers ------------------------------------------------------------

  /**
   * Transactions of the maintenance passes, in the order the database serialises them. A create may come from
   * a driver whose existence check is out of date, and any driver may believe it leads.
   */
  datatype Op = Create(lower: Time) | Drop(cutoff: Time)

  ghost predicate Sensible(g: Grid, ops: seq<Op>) {
    forall op :: op in ops && op.Create? ==> OnGrid(g, op.lower)
  }

  function Perform(g: Grid, r: Registry, op: Op): Option<Registry> {
    match op
    case Create(lower) => CreateTx(g, r, lower)
    case Drop(cutoff) => DropTx(r, cutoff)
  }

  /** A transaction that rolls back changes nothing. */
  function PerformAll(g: Grid, r: Registry, ops: seq<Op>): Registry {
    if ops == [] then r
    else
      var before := PerformAll(g, r, ops[..|ops| - 1]);
      match Perform(g, before, ops[|ops| - 1])
      case None => before
      case Some(after) => after
  }

  lemma CreateKeepsInv(g: Grid, r: Registry, lower: Time)
    requires Sound(g) && Inv(g, r) && OnGrid(g, lower)
    ensures CreateTx(g, r, lower).Some?
    ensures var r' := CreateTx(g, r, lower).value;
      && Inv(g, r') && Orphans(r') <= Orphans(r)
      && r'.meta == r.meta[g.name(lower) := Cell(g, lower)]
      && r'.attached == r.attached[g.name(lower) := Cell(g, lower)]
  {
    hide OnGrid;
    var name := g.name(lower);
    forall n | n in r.attached && Overlap(r.attached[n], Cell(g, lower)) ensures n == name {
      CellsMeetOnlyThemselves(g, r.attached[n].lower, lower);
    }
    if name in r.attached {
      assert r.attached[name] == Cell(g, lower);
    }
  }

  /** What is registered with an upper bound at or below the cutoff is gone, and nothing else is. */
  ghost predicate DropsExpired(before: Registry, after: Registry, cutoff: Time) {
    && (forall n :: n in after.meta <==> n in before.meta && before.meta[n].upper > cutoff)
    && (forall n :: n in after.attached <==>
          n in before.attached && (n in before.meta ==> before.meta[n].upper > cutoff))
    && Kept(after.meta, before.meta) && Kept(after.attached, before.attached)
  }

  ghost predicate Kept(before: Tables, after: Tables) {
    forall n :: n in before ==> n in after && after[n] == before[n]
  }

  lemma DropKeepsInv(g: Grid, r: Registry, cutoff: Time)
    requires Inv(g, r)
    ensures DropTx(r, cutoff).Some?
    ensures var r' := DropTx(r, cutoff).value;
      && Inv(g, r') && Orphans(r') <= Orphans(r)
      && r'.meta == r.meta - Expired(r.meta, cutoff) && DropsExpired(r, r', cutoff)
  {
    hide OnGrid;
  }

  lemma OpKeepsInv(g: Grid, r: Registry, op: Op)
    requires Sound(g) && Inv(g, r) && (op.Create? ==> OnGrid(g, op.lower))
    ensures Perform(g, r, op).Some?
    ensures Inv(g, Perform(g, r, op).value) && Orphans(Perform(g, r, op).value) <= Orphans(r)
  {
    hide CreateTx, DropTx, Inv, OnGrid, Sound;
    match op {
      case Create(lower) => CreateKeepsInv(g, r, lower);
      case Drop(cutoff) => DropKeepsInv(g, r, cutoff);
    }
  }

  /** No transaction of any interleaving rolls back, and none leaves an orphan or a table off the grid. */
  lemma {:induction false} InterleavingKeepsInv(g: Grid, r: Registry, ops: seq<Op>)
    requires Sound(g) && Inv(g, r) && Sensible(g, ops)
    ensures Inv(g, PerformAll(g, r, ops)) && Orphans(PerformAll(g, r, ops)) <= Orphans(r)
    ensures ops != [] ==> Perform(g, PerformAll(g, r, ops[..|ops| - 1]), ops[|ops| - 1]).Some?
  {
    if ops != [] {
      hide Perform, Inv, OnGrid, Sound;
      InterleavingKeepsInv(g, r, ops[..|ops| - 1]);
      OpKeepsInv(g, PerformAll(g, r, ops[..|ops| - 1]), ops[|ops| - 1]);
    }
  }

  /** Registered names stay equal to attached tables, with pairwise disjoint ranges on the grid. */
  lemma RegisteredIsAttached(g: Grid, r: Registry, ops: seq<Op>)
    requires Sound(g) && Inv(g, r) && Orphans(r) == {} && Sensible(g, ops)
    ensures var s := PerformAll(g, r, ops);
      && s.meta == s.attached
      && (forall n :: n in s.meta ==> IsCell(g, n, s.meta[n]))
      && forall m, n :: m in s.meta && n in s.meta && m != n ==> !Overlap(s.meta[m], s.meta[n])
  {
    hide PerformAll, OnGrid, Sound, Inv;
    InterleavingKeepsInv(g, r, ops);
    WithoutOrphans(g, PerformAll(g, r, ops));
  }

  lemma WithoutOrphans(g: Grid, s: Registry)
    requires Sound(g) && Inv(g, s) && Orphans(s) == {}
    ensures s.meta == s.attached
    ensures forall n :: n in s.meta ==> IsCell(g, n, s.meta[n])
    ensures forall m, n :: m in s.meta && n in s.meta && m != n ==> !Overlap(s.meta[m], s.meta[n])
  {
    hide OnGrid, Sound;
    forall n | n in s.attached ensures n in s.meta {
      assert n !in Orphans(s);
    }
    forall m, n | m in s.meta && n in s.meta && m != n ensures !Overlap(s.meta[m], s.meta[n]) {
      RangesAreDisjoint(g, s, m, n);
    }
  }

  /** A create of an orphan's cell, and only that, makes the metadata whole again. */
  lemma CreateAdoptsOrphan(g: Grid, r: Registry, lower: Time)
    requires Sound(g) && Inv(g, r) && OnGrid(g, lower) && g.name(lower) in Orphans(r)
    ensures CreateTx(g, r, lower).Some? && CreateTx(g, r, lower).value.attached == r.attached
    ensures Orphans(CreateTx(g, r, lower).value) == Orphans(r) - {g.name(lower)}
  {
    CreateKeepsInv(g, r, lower);
  }

  // ---- The sliding window --------------------------------------------------------------------------------

  datatype Window = Window(lookAhead: Time, retention: Time)

  function WindowStart(g: Grid, now: Time): Time
    requires g.interval > 0
  {
    Truncate(now - g.interval, g.interval)
  }

  /** The bounds a create pass at this time visits. */
  function PassCells(g: Grid, w: Window, now: Time): seq<Time>
    requires g.interval > 0
  {
    Cells(WindowStart(g, now), now + w.lookAhead, g.interval)
  }

  /** Every bound of the pass can be named. */
  ghost predicate WindowIsNamed(g: Grid, w: Window, now: Time) {
    g.interval > 0 && 0 <= WindowStart(g, now) && now + w.lookAhead <= g.last
  }

  lemma PassIsOnGrid(g: Grid, w: Window, now: Time, x: Time)
    requires WindowIsNamed(g, w, now)
    ensures x in PassCells(g, w, now) ==> OnGrid(g, x)
    ensures x in PassCells(g, w, now) <==> WindowStart(g, now) <= x < now + w.lookAhead && x % g.interval == 0
  {
    TruncateIsFloor(now - g.interval, g.interval);
    CellsAre(WindowStart(g, now), now + w.lookAhead, g.interval, x);
  }

  /** A pass visits exactly the cells of the grid that meet the time from one interval before now to the look-ahead. */
  lemma PassVisitsExactly(g: Grid, w: Window, now: Time, x: Time)
    requires g.interval > 0
    ensures x in PassCells(g, w, now) <==>
            x % g.interval == 0 && now - g.interval < x + g.interval && x < now + w.lookAhead
  {
    TruncateIsFloor(now - g.interval, g.interval);
    CellsAre(WindowStart(g, now), now + w.lookAhead, g.interval, x);
    if x % g.interval == 0 {
      FollowsTruncate(now - g.interval, x, g.interval);
    }
  }

  function CreateOps(lowers: seq<Time>): seq<Op> {
    seq(|lowers|, i requires 0 <= i < |lowers| => Create(lowers[i]))
  }

  function Named(g: Grid, lowers: seq<Time>): set<string> {
    set t | t in lowers :: g.name(t)
  }

  lemma NamedOfNone(g: Grid, lowers: seq<Time>)
    ensures Named(g, lowers[..0]) == {} && lowers[0..] == lowers
  {
  }

  lemma NameIn(g: Grid, lowers: seq<Time>, t: Time)
    requires t in lowers
    ensures g.name(t) in Named(g, lowers)
  {
  }

  lemma NamedOfNext(g: Grid, lowers: seq<Time>, k: nat)
    requires k < |lowers|
    ensures Named(g, lowers[..k + 1]) == Named(g, lowers[..k]) + {g.name(lowers[k])}
  {
    var next := lowers[..k + 1];
    assert next == lowers[..k] + [lowers[k]];
    forall n | n in Named(g, lowers[..k]) ensures n in Named(g, next) {
      var t :| t in lowers[..k] && g.name(t) == n;
      NameIn(g, next, t);
    }
    NameIn(g, next, lowers[k]);
    forall n | n in Named(g, next) ensures n in Named(g, lowers[..k]) || n == g.name(lowers[k]) {
      var t :| t in next && g.name(t) == n;
      if t in lowers[..k] {
        NameIn(g, lowers[..k], t);
      }
    }
  }

  lemma NamedOfPrefix(g: Grid, lowers: seq<Time>, k: nat)
    requires k <= |lowers|
    ensures Named(g, lowers[..k]) <= Named(g, lowers)
  {
    forall n | n in Named(g, lowers[..k]) ensures n in Named(g, lowers) {
      var t :| t in lowers[..k] && g.name(t) == n;
      NameIn(g, lowers, t);
    }
  }

  ghost predicate Registered(g: Grid, r: Registry, lower: Time) {
    g.name(lower) in r.meta && r.meta[g.name(lower)] == Cell(g, lower)
  }

  ghost predicate DropsBy(ops: seq<Op>, cutoff: Time) {
    forall op :: op in ops && op.Drop? ==> op.cutoff <= cutoff
  }

  lemma OpKeepsCell(g: Grid, r: Registry, op: Op, lower: Time)
    requires Sound(g) && Inv(g, r) && (op.Create? ==> OnGrid(g, op.lower)) && OnGrid(g, lower)
    requires Registered(g, r, lower) && (op.Drop? ==> op.cutoff < lower + g.interval)
    ensures Perform(g, r, op).Some? && Registered(g, Perform(g, r, op).value, lower)
  {
    hide CreateTx, DropTx, Inv, OnGrid;
    match op {
      case Create(l) => CreateKeepsInv(g, r, l);
      case Drop(cutoff) => DropKeepsInv(g, r, cutoff);
    }
  }

  lemma LastCreate(lowers: seq<Time>)
    requires lowers != []
    ensures var n := |lowers| - 1;
      |CreateOps(lowers)| == |lowers| && CreateOps(lowers)[..n] == CreateOps(lowers[..n]) &&
          CreateOps(lowers)[n] == Create(lowers[n])
  {
  }

  /** Each of these cells is registered and attached; everything else is as before. */
  ghost predicate CreatesCells(g: Grid, before: Registry, after: Registry, lowers: seq<Time>) {
    && Kept(before.meta, after.meta) && Kept(before.attached, after.attached)
    && after.meta.Keys == before.meta.Keys + Named(g, lowers)
    && after.attached.Keys == before.attached.Keys + Named(g, lowers)
    && forall lower :: lower in lowers ==> Registered(g, after, lower)
  }

  lemma NothingCreated(g: Grid, r: Registry, lowers: seq<Time>)
    ensures CreatesCells(g, r, r, lowers[..0])
  {
    NamedOfNone(g, lowers);
  }

  lemma OneMoreCell(g: Grid, before: Registry, r: Registry, after: Registry, lowers: seq<Time>, k: nat)
    requires Sound(g) && Inv(g, r) && k < |lowers| && OnGrid(g, lowers[k])
    requires CreatesCells(g, before, r, lowers[..k]) && CreateTx(g, r, lowers[k]) == Some(after)
    ensures CreatesCells(g, before, after, lowers[..k + 1])
  {
    hide Named, OnGrid, Sound, Inv, CreateTx, Kept, Registered, Cell;
    var name, cell, names := g.name(lowers[k]), Cell(g, lowers[k]), Named(g, lowers[..k]);
    CreateKeepsInv(g, r, lowers[k]);
    NamedOfNext(g, lowers, k);
    SameCell(g, r, lowers[k]);
    CellAdded(before.meta, r.meta, name, cell, names);
    CellAdded(before.attached, r.attached, name, cell, names);
    StillRegistered(g, r, after, lowers, k);
  }

  lemma CellAdded(before: Tables, tables: Tables, name: string, cell: Range, names: set<string>)
    requires Kept(before, tables) && tables.Keys == before.Keys + names && (name in tables ==> tables[name] == cell)
    ensures var after := tables[name := cell];
      Kept(before, after) && Kept(tables, after) && after.Keys == before.Keys + (names + {name})
  {
  }

  lemma StillRegistered(g: Grid, r: Registry, after: Registry, lowers: seq<Time>, k: nat)
    requires k < |lowers| && (forall lower :: lower in lowers[..k] ==> Registered(g, r, lower))
    requires Kept(r.meta, after.meta) && after.meta == r.meta[g.name(lowers[k]) := Cell(g, lowers[k])]
    ensures forall lower :: lower in lowers[..k + 1] ==> Registered(g, after, lower)
  {
    assert lowers[..k + 1] == lowers[..k] + [lowers[k]];
  }

  /** Whatever has the name of a cell is that cell. */
  lemma SameCell(g: Grid, r: Registry, lower: Time)
    requires Sound(g) && Inv(g, r) && OnGrid(g, lower)
    ensures g.name(lower) in r.attached ==> r.attached[g.name(lower)] == Cell(g, lower)
    ensures g.name(lower) in r.meta ==> r.meta[g.name(lower)] == Cell(g, lower)
  {
    hide OnGrid;
  }

  ghost predicate Holds(r: Registry, n: string, x: Time) {
    n in r.meta && r.meta[n].lower <= x < r.meta[n].upper
  }

  /** x lies in exactly one registered partition. */
  ghost predicate InExactlyOne(r: Registry, x: Time) {
    exists n :: Holds(r, n, x) && forall m :: Holds(r, m, x) ==> m == n
  }

  lemma OnlyOneHolds(g: Grid, s: Registry, lower: Time, x: Time)
    requires Sound(g) && Inv(g, s) && Registered(g, s, lower) && lower <= x < lower + g.interval
    ensures InExactlyOne(s, x)
  {
    hide OnGrid, Sound;
    assert Holds(s, g.name(lower), x);
    forall m | Holds(s, m, x) ensures m == g.name(lower) {
      if m != g.name(lower) {
        RangesAreDisjoint(g, s, m, g.name(lower));
      }
    }
  }

  /** Among these transactions are the creates of the pass at this time, in any order and with any others between. */
  ghost predicate HoldsPass(g: Grid, w: Window, now: Time, ops: seq<Op>)
    requires g.interval > 0
  {
    forall lower :: lower in PassCells(g, w, now) ==> Create(lower) in ops
  }

  /** A created cell stays registered, wherever its create stands, as long as no drop reaches its upper bound. */
  lemma {:induction false} CreatedCellSurvives(g: Grid, r: Registry, ops: seq<Op>, lower: Time, cutoff: Time)
    requires Sound(g) && Inv(g, r) && Sensible(g, ops) && OnGrid(g, lower) && Create(lower) in ops
    requires DropsBy(ops, cutoff) && cutoff < lower + g.interval
    ensures Registered(g, PerformAll(g, r, ops), lower)
  {
    hide OnGrid, Sound, Inv, CreateTx, Perform;
    var prior, last := ops[..|ops| - 1], ops[|ops| - 1];
    assert last in ops && forall op :: op in prior ==> op in ops;
    InterleavingKeepsInv(g, r, prior);
    if last == Create(lower) {
      CreateRegisters(g, PerformAll(g, r, prior), lower);
    } else {
      CreatedCellSurvives(g, r, prior, lower, cutoff);
      OpKeepsCell(g, PerformAll(g, r, prior), last, lower);
    }
  }

  lemma CreateRegisters(g: Grid, r: Registry, lower: Time)
    requires Sound(g) && Inv(g, r) && OnGrid(g, lower)
    ensures Perform(g, r, Create(lower)).Some? && Registered(g, Perform(g, r, Create(lower)).value, lower)
  {
    hide OnGrid, Sound, Inv, CreateTx;
    CreateKeepsInv(g, r, lower);
  }

  /**
   * After transactions of any drivers that include the creates of a pass at n1, with no drop past the cutoff of n2,
   * every instant from max(n1 - interval, n2 - retention) up to n1 + lookAhead lies in exactly one registered
   * partition.
   */
  lemma WindowIsCovered(g: Grid, w: Window, r: Registry, n1: Time, ops: seq<Op>, n2: Time, x: Time)
    requires Sound(g) && Inv(g, r) && WindowIsNamed(g, w, n1)
    requires Sensible(g, ops) && DropsBy(ops, n2 - w.retention) && HoldsPass(g, w, n1, ops)
    requires Max(n1 - g.interval, n2 - w.retention) <= x < n1 + w.lookAhead
    ensures InExactlyOne(PerformAll(g, r, ops), x)
  {
    var lower := Truncate(x, g.interval);
    TruncateIsFloor(x, g.interval);
    TruncateIsFloor(n1 - g.interval, g.interval);
    PassIsOnGrid(g, w, n1, lower);
    hide OnGrid, Sound, Inv, PerformAll, Registered;
    CreatedCellSurvives(g, r, ops, lower, n2 - w.retention);
    InterleavingKeepsInv(g, r, ops);
    OnlyOneHolds(g, PerformAll(g, r, ops), lower, x);
  }

  /** With retention of at least interval + (n2 - n1), no partition of the create window is dropped by n2. */
  lemma WindowIsKept(g: Grid, w: Window, r: Registry, n1: Time, ops: seq<Op>, n2: Time, lower: Time)
    requires Sound(g) && Inv(g, r) && WindowIsNamed(g, w, n1)
    requires Sensible(g, ops) && DropsBy(ops, n2 - w.retention) && HoldsPass(g, w, n1, ops)
    requires w.retention >= g.interval + (n2 - n1) && lower in PassCells(g, w, n1)
    ensures Registered(g, PerformAll(g, r, ops), lower)
  {
    TruncateIsFloor(n1 - g.interval, g.interval);
    PassIsOnGrid(g, w, n1, lower);
    hide OnGrid, Sound, Inv, PerformAll, Registered;
    CreatedCellSurvives(g, r, ops, lower, n2 - w.retention);
  }
}
