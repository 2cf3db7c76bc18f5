/** The driver's and setup's partition code on the primary, with the names and the calendar they really use. */
module Partitions {
  import opened Basics
  import opened Names
  import opened GridTime
  import opened Maintenance

  const END_OF_CALENDAR: Time := MINUTE * MINUTES_IN_A_DAY * DAYS

  function PartitionNaming(prefix: string): Time -> string {
    t => if InCalendar(t) then PartitionName(prefix, t) else ""
  }

  function CalendarGrid(prefix: string, interval: Time): Grid {
    Grid(PartitionNaming(prefix), interval, END_OF_CALENDAR)
  }

  lemma DifferentMinutes(a: Time, b: Time)
    requires a + MINUTE <= b
    ensures a / MINUTE < b / MINUTE
  {
  }

  /** Names carry minutes: they tell the cells of a grid apart exactly when its interval is at least one minute. */
  lemma GridIsSoundExactly(prefix: string, interval: Time)
    requires interval > 0
    ensures Sound(CalendarGrid(prefix, interval)) <==> interval >= MINUTE
  {
    hide PartitionName;
    var g := CalendarGrid(prefix, interval);
    if interval >= MINUTE {
      forall a, b | OnGrid(g, a) && OnGrid(g, b) && g.name(a) == g.name(b) ensures a == b {
        NamesCollideExactly(prefix, a, b);
        if a < b {
          GridGap(a, b, interval);
          DifferentMinutes(a, b);
        } else if b < a {
          GridGap(b, a, interval);
          DifferentMinutes(b, a);
        }
      }
    } else {
      GridStep(0, interval);
      assert OnGrid(g, 0) && OnGrid(g, interval);
      NamesCollideExactly(prefix, 0, interval);
      assert g.name(0) == g.name(interval);
    }
  }

  lemma WholeMinuteGridIsSound(prefix: string, interval: Time)
    requires interval > 0 && interval % MINUTE == 0
    ensures Sound(CalendarGrid(prefix, interval))
  {
    assert interval >= MINUTE;
    GridIsSoundExactly(prefix, interval);
  }

  /**
   * The window theorems for the names the driver prints: from a registry without orphans, with any whole-minute
   * interval, whatever transactions of other drivers come before, between and after the creates of a pass at n1.
   */
  lemma DriverWindow(prefix: string, interval: Time, w: Window, r: Registry, n1: Time, ops: seq<Op>, n2: Time, x: Time)
    requires interval > 0 && interval % MINUTE == 0
    requires var g := CalendarGrid(prefix, interval);
      && Inv(g, r) && Orphans(r) == {} && WindowIsNamed(g, w, n1)
      && Sensible(g, ops) && DropsBy(ops, n2 - w.retention) && HoldsPass(g, w, n1, ops)
    requires Max(n1 - interval, n2 - w.retention) <= x < n1 + w.lookAhead
    ensures var s := PerformAll(CalendarGrid(prefix, interval), r, ops); s.meta == s.attached && InExactlyOne(s, x)
  {
    hide PartitionNaming, OnGrid, Sound, Inv, PerformAll, PassCells;
    var g := CalendarGrid(prefix, interval);
    WholeMinuteGridIsSound(prefix, interval);
    WindowIsCovered(g, w, r, n1, ops, n2, x);
    RegisteredIsAttached(g, r, ops);
  }

  /** The pass that createPartitions performs, and the drop behind it, are such transactions. */
  lemma PassHoldsItself(g: Grid, w: Window, now: Time, drop: Op)
    requires WindowIsNamed(g, w, now) && drop.Drop?
    ensures var pass := CreateOps(PassCells(g, w, now));
      HoldsPass(g, w, now, pass + [drop]) && Sensible(g, pass) && Sensible(g, pass + [drop])
  {
    assert g.interval > 0;
    hide OnGrid, WindowIsNamed;
    var cells := PassCells(g, w, now);
    var pass := CreateOps(cells);
    forall lower | lower in cells ensures Create(lower) in pass + [drop] {
      var i :| 0 <= i < |cells| && cells[i] == lower;
      assert (pass + [drop])[i] == Create(lower);
    }
    forall op | op in pass ensures op.Create? && OnGrid(g, op.lower) {
      var i :| 0 <= i < |pass| && pass[i] == op;
      assert op == Create(cells[i]) && cells[i] in cells;
      PassIsOnGrid(g, w, now, cells[i]);
    }
  }

  lemma DropIsKept(g: Grid, r: Registry, cutoff: Time)
    requires Inv(g, r)
    ensures DropTx(r, cutoff).Some? && Inv(g, DropTx(r, cutoff).value) && Orphans(DropTx(r, cutoff).value) <= Orphans(r)
  {
    DropKeepsInv(g, r, cutoff);
  }

  lemma LastOp(g: Grid, r: Registry, ops: seq<Op>, op: Op)
    requires Perform(g, PerformAll(g, r, ops), op).Some?
    ensures PerformAll(g, r, ops + [op]) == Perform(g, PerformAll(g, r, ops), op).value
  {
    hide Perform;
    assert (ops + [op])[..|ops|] == ops;
  }

  /** The drop behind a pass goes through, and leaves what the transactions one after the other leave. */
  lemma DropFollows(g: Grid, r: Registry, creates: seq<Op>, cutoff: Time)
    requires Sound(g) && Inv(g, r) && Sensible(g, creates)
    ensures var dropped := DropTx(PerformAll(g, r, creates), cutoff);
      && dropped.Some? && Inv(g, dropped.value) && Orphans(dropped.value) <= Orphans(r)
      && dropped.value == PerformAll(g, r, creates + [Drop(cutoff)])
  {
    hide OnGrid, Sound, Inv, PerformAll, Sensible, DropTx, Orphans;
    InterleavingKeepsInv(g, r, creates);
    DropKeepsInv(g, PerformAll(g, r, creates), cutoff);
    LastOp(g, r, creates, Drop(cutoff));
  }

  /** Each instant from max(n1 - interval, n2 - retention) up to n1 + lookAhead lies in exactly one partition. */
  ghost predicate WindowHolds(g: Grid, w: Window, r: Registry, n1: Time, n2: Time) {
    forall x :: Max(n1 - g.interval, n2 - w.retention) <= x < n1 + w.lookAhead ==> InExactlyOne(r, x)
  }

  /** A whole create pass at n1 and a drop for n2 leave each instant of the window in just one partition. */
  lemma CreateThenDrop(g: Grid, w: Window, r: Registry, n1: Time, n2: Time)
    requires Sound(g) && Inv(g, r) && WindowIsNamed(g, w, n1)
    ensures var dropped := DropTx(PerformAll(g, r, CreateOps(PassCells(g, w, n1))), n2 - w.retention);
      && dropped.Some? && Inv(g, dropped.value) && Orphans(dropped.value) <= Orphans(r)
      && WindowHolds(g, w, dropped.value, n1, n2)
  {
    assert g.interval > 0;
    hide OnGrid, Sound, Inv, PerformAll, PassCells, CreateOps, Sensible, HoldsPass, WindowIsNamed, DropTx, InExactlyOne;
    hide Orphans, DropsBy;
    var creates, drop := CreateOps(PassCells(g, w, n1)), Drop(n2 - w.retention);
    PassHoldsItself(g, w, n1, drop);
    DropFollows(g, r, creates, n2 - w.retention);
    OnlyThisDrop(PassCells(g, w, n1), drop);
    forall x | Max(n1 - g.interval, n2 - w.retention) <= x < n1 + w.lookAhead
      ensures InExactlyOne(PerformAll(g, r, creates + [drop]), x)
    {
      WindowIsCovered(g, w, r, n1, creates + [drop], n2, x);
    }
  }

  ghost predicate MaintainsVia(
    g: Grid, w: Window, before: Registry, r: Registry, after: Registry, n1: Time, n2: Time, failAt: nat,
    dropped: bool)
    requires g.interval > 0
  {
    var cells := PassCells(g, w, n1);
    && CreatesCells(g, before, r, cells[..Reached(failAt, |cells|)])
    && if dropped then DropsExpired(r, after, n2 - w.retention) else after == r
  }

  /** The cells of the pass up to the failure are created; then what is expired is dropped, if the drop commits. */
  ghost predicate Maintains(
    g: Grid, w: Window, before: Registry, after: Registry, n1: Time, n2: Time, failAt: nat, dropped: bool)
    requires g.interval > 0
  {
    exists r :: MaintainsVia(g, w, before, r, after, n1, n2, failAt, dropped)
  }

  /** Only expired entries and tables are gone, and none of them is left when the drop commits. */
  ghost predicate OnlyExpiredGo(before: Registry, after: Registry, cutoff: Time, dropped: bool) {
    && (dropped ==> forall n :: n in after.meta ==> after.meta[n].upper > cutoff)
    && (forall n :: n in before.meta && n !in after.meta ==> dropped && before.meta[n].upper <= cutoff)
    && (forall n :: n in before.attached && n !in after.attached ==> dropped && before.attached[n].upper <= cutoff)
  }

  lemma CreatedThenGone(
    g: Grid, before: Registry, r: Registry, after: Registry, lowers: seq<Time>, cutoff: Time, dropped: bool)
    requires Inv(g, r) && CreatesCells(g, before, r, lowers)
    requires if dropped then DropsExpired(r, after, cutoff) else after == r
    ensures OnlyExpiredGo(before, after, cutoff, dropped)
  {
    hide Named, OnGrid, Registered;
  }

  lemma MaintainsBoth(
    g: Grid, w: Window, before: Registry, r: Registry, after: Registry, n1: Time, n2: Time, failAt: nat,
    dropped: bool)
    requires g.interval > 0 && Inv(g, r) && MaintainsVia(g, w, before, r, after, n1, n2, failAt, dropped)
    ensures Maintains(g, w, before, after, n1, n2, failAt, dropped)
    ensures OnlyExpiredGo(before, after, n2 - w.retention, dropped)
  {
    hide Inv, CreatesCells, DropsExpired, PassCells, OnlyExpiredGo;
    var cells := PassCells(g, w, n1);
    CreatedThenGone(g, before, r, after, cells[..Reached(failAt, |cells|)], n2 - w.retention, dropped);
  }

  /**
   * What one round of maintenance leaves: tables on the grid and no new orphan; what Maintains says; nothing expired if
   * the drop commits, and everything that is not; and the window covered if both passes go through.
   */
  ghost predicate IsMaintained(
    g: Grid, w: Window, before: Registry, after: Registry, n1: Time, n2: Time, failAt: nat, dropped: bool)
    requires g.interval > 0
  {
    && Inv(g, after) && Orphans(after) <= Orphans(before)
    && Maintains(g, w, before, after, n1, n2, failAt, dropped)
    && OnlyExpiredGo(before, after, n2 - w.retention, dropped)
    && (failAt >= |PassCells(g, w, n1)| && dropped ==> WindowHolds(g, w, after, n1, n2))
  }

  /** r is what the create pass leaves of before, and after what the drop behind it leaves of r. */
  ghost predicate PassThenDrop(
    g: Grid, w: Window, before: Registry, r: Registry, after: Registry, n1: Time, cutoff: Time, failAt: nat,
    dropped: bool)
    requires g.interval > 0
  {
    var created := PassCells(g, w, n1)[..Reached(failAt, |PassCells(g, w, n1)|)];
    && Inv(g, r) && Orphans(r) <= Orphans(before)
    && CreatesCells(g, before, r, created) && r == PerformAll(g, before, CreateOps(created))
    && if dropped then DropTx(r, cutoff) == Some(after) && DropsExpired(r, after, cutoff) else after == r
  }

  lemma PassedThenDropped(
    g: Grid, w: Window, before: Registry, r: Registry, after: Registry, n1: Time, cutoff: Time, failAt: nat,
    done: nat, dropped: bool)
    requires g.interval > 0 && Inv(g, r) && Orphans(r) <= Orphans(before)
    requires done == Reached(failAt, |PassCells(g, w, n1)|)
    requires CreatesCells(g, before, r, PassCells(g, w, n1)[..done])
    requires r == PerformAll(g, before, CreateOps(PassCells(g, w, n1)[..done]))
    requires if dropped then DropTx(r, cutoff) == Some(after) && DropsExpired(r, after, cutoff) else after == r
    ensures PassThenDrop(g, w, before, r, after, n1, cutoff, failAt, dropped)
  {
    hide Inv, Orphans, DropTx, DropsExpired, CreatesCells, PerformAll, CreateOps, PassCells;
  }

  lemma KeptInOrder(
    g: Grid, w: Window, before: Registry, r: Registry, after: Registry, n1: Time, cutoff: Time, failAt: nat,
    dropped: bool)
    requires g.interval > 0 && PassThenDrop(g, w, before, r, after, n1, cutoff, failAt, dropped)
    ensures Inv(g, after) && Orphans(after) <= Orphans(before)
  {
    hide Inv, Orphans, DropTx, DropsExpired, CreatesCells, PerformAll, CreateOps, PassCells, Reached;
    DropIsKept(g, r, cutoff);
  }

  lemma CoveredAfterAll(
    g: Grid, w: Window, before: Registry, r: Registry, after: Registry, n1: Time, n2: Time, failAt: nat)
    requires Sound(g) && Inv(g, before) && WindowIsNamed(g, w, n1) && failAt >= |PassCells(g, w, n1)|
    requires PassThenDrop(g, w, before, r, after, n1, n2 - w.retention, failAt, true)
    ensures WindowHolds(g, w, after, n1, n2)
  {
    hide Inv, Orphans, DropTx, DropsExpired, CreatesCells, PerformAll, CreateOps, PassCells, Sound, WindowIsNamed;
    hide WindowHolds;
    NamedWindow(g, w, n1);
    assert PassCells(g, w, n1)[..|PassCells(g, w, n1)|] == PassCells(g, w, n1);
    CreateThenDrop(g, w, before, n1, n2);
  }

  /** What a drop behind a create pass leaves, and what the pass alone leaves when the drop rolls back. */
  lemma MaintenanceEnds(
    g: Grid, w: Window, before: Registry, r: Registry, after: Registry, n1: Time, n2: Time, failAt: nat,
    dropped: bool)
    requires Sound(g) && Inv(g, before) && WindowIsNamed(g, w, n1)
    requires PassThenDrop(g, w, before, r, after, n1, n2 - w.retention, failAt, dropped)
    ensures IsMaintained(g, w, before, after, n1, n2, failAt, dropped)
  {
    hide Inv, Orphans, PassCells, Sound, WindowIsNamed, WindowHolds, Maintains, OnlyExpiredGo, PassThenDrop;
    NamedWindow(g, w, n1);
    KeptInOrder(g, w, before, r, after, n1, n2 - w.retention, failAt, dropped);
    MaintainsInOrder(g, w, before, r, after, n1, n2, failAt, dropped);
    if failAt >= |PassCells(g, w, n1)| && dropped {
      CoveredAfterAll(g, w, before, r, after, n1, n2, failAt);
    }
  }

  lemma MaintainsInOrder(
    g: Grid, w: Window, before: Registry, r: Registry, after: Registry, n1: Time, n2: Time, failAt: nat,
    dropped: bool)
    requires g.interval > 0 && PassThenDrop(g, w, before, r, after, n1, n2 - w.retention, failAt, dropped)
    ensures Maintains(g, w, before, after, n1, n2, failAt, dropped)
    ensures OnlyExpiredGo(before, after, n2 - w.retention, dropped)
  {
    hide Inv, Orphans, DropTx, DropsExpired, CreatesCells, PerformAll, CreateOps, PassCells, Reached, OnlyExpiredGo;
    hide Maintains;
    MaintainsBoth(g, w, before, r, after, n1, n2, failAt, dropped);
  }

  lemma NamedWindow(g: Grid, w: Window, now: Time)
    requires WindowIsNamed(g, w, now)
    ensures g.interval > 0
  {
  }

  lemma OnlyThisDrop(lowers: seq<Time>, drop: Op)
    requires drop.Drop?
    ensures DropsBy(CreateOps(lowers) + [drop], drop.cutoff)
  {
  }

  /** The same for the names the driver prints, from a registry without orphans: the metadata is whole again. */
  lemma DriverCreatesThenDrops(prefix: string, interval: Time, w: Window, r: Registry, n1: Time, n2: Time)
    requires interval > 0 && interval % MINUTE == 0
    requires var g := CalendarGrid(prefix, interval); Inv(g, r) && Orphans(r) == {} && WindowIsNamed(g, w, n1)
    ensures var g := CalendarGrid(prefix, interval);
      var s := DropTx(PerformAll(g, r, CreateOps(PassCells(g, w, n1))), n2 - w.retention);
      && s.Some? && s.value.meta == s.value.attached
      && WindowHolds(g, w, s.value, n1, n2)
  {
    hide PartitionNaming, OnGrid, Sound, Inv, PerformAll, PassCells, DropTx, InExactlyOne;
    var g := CalendarGrid(prefix, interval);
    WholeMinuteGridIsSound(prefix, interval);
    CreateThenDrop(g, w, r, n1, n2);
    WithoutOrphans(g, DropTx(PerformAll(g, r, CreateOps(PassCells(g, w, n1))), n2 - w.retention).value);
  }

  // ---- The maintenance passes as the driver runs them -------------------------------------------------

  /** How many of these cells a pass handles when its iteration failAt fails. */
  function Reached(failAt: nat, cells: nat): nat {
    if failAt < cells then failAt else cells
  }

  class PartitionDb {
    var meta: Tables
    var attached: Tables

    ghost function Contents(): Registry
      reads this
    {
      Registry(meta, attached)
    }

    /** One iteration: the existence check, and the transaction when the name is not registered. */
    method EnsureCell(g: Grid, t: Time)
      requires Sound(g) && Inv(g, Contents()) && OnGrid(g, t)
      modifies this
      ensures CreateTx(g, old(Contents()), t) == Some(Contents())
      ensures Inv(g, Contents()) && Orphans(Contents()) <= old(Orphans(Contents()))
    {
      hide Inv, Sound, OnGrid, CreateTx, Orphans;
      CreateKeepsInv(g, Contents(), t);
      ExistingCellIsKept(g, Contents(), t);
      var name := g.name(t);
      if name !in meta {
        // A table of that name is left alone; a new one meets no attached range.
        attached, meta := if name in attached then attached else attached[name := Range(t, t + g.interval)],
          meta[name := Range(t, t + g.interval)];
      }
    }

    /** createPartitions: one transaction a cell; the database may fail at any iteration, and earlier cells stay. */
    method CreatePartitions(g: Grid, w: Window, now: Time, failAt: nat) returns (ok: bool, ghost done: nat)
      requires Sound(g) && Inv(g, Contents()) && WindowIsNamed(g, w, now)
      modifies this
      ensures done == Reached(failAt, |PassCells(g, w, now)|) && (ok <==> failAt >= |PassCells(g, w, now)|)
      ensures CreatesCells(g, old(Contents()), Contents(), PassCells(g, w, now)[..done])
      ensures Contents() == PerformAll(g, old(Contents()), CreateOps(PassCells(g, w, now)[..done]))
      ensures Inv(g, Contents()) && Orphans(Contents()) <= old(Orphans(Contents()))
    {
      hide Sound, OnGrid, Inv, CreateTx, Cells, PassCells, CreateOps, Orphans, PerformAll, CreatesCells;
      ghost var cells := PassCells(g, w, now);
      ghost var before := Contents();
      var t := Truncate(now - g.interval, g.interval);
      var end := now + w.lookAhead;
      var iteration := 0;
      done := 0;
      PassBegins(g, w, now, before);
      NothingCreated(g, before, cells);
      while t < end
        invariant done <= |cells| && done == iteration && done <= failAt
        invariant CreatesCells(g, before, Contents(), cells[..done])
        invariant cells[done..] == Cells(t, end, g.interval)
        invariant Contents() == PerformAll(g, before, CreateOps(cells[..done]))
        invariant Inv(g, Contents()) && Orphans(Contents()) <= Orphans(before)
        decreases end - t
      {
        if iteration == failAt {
          NotDone(t, end, g.interval);
          return false, done;
        }
        NextCell(g, w, now, cells, done, t, end);
        OneMoreCreate(g, before, cells, done);
        ghost var r := Contents();
        EnsureCell(g, t);
        OneMoreCell(g, before, r, Contents(), cells, done);
        done := done + 1;
        iteration := iteration + 1;
        t := t + g.interval;
      }
      PassEnds(t, end, g.interval);
      assert |cells[done..]| == 0;
      return true, done;
    }

    /** dropExpiredPartitions: all expired partitions in one transaction, which rolls back if a detach fails. */
    method DropExpired(cutoff: Time, commits: bool) returns (ok: bool)
      modifies this
      ensures ok ==> DropTx(old(Contents()), cutoff) == Some(Contents())
      ensures !ok ==> Contents() == old(Contents())
      ensures ok <==> commits && DropTx(old(Contents()), cutoff).Some?
      ensures ok ==> DropsExpired(old(Contents()), Contents(), cutoff)
    {
      var expired := set n | n in meta && meta[n].upper <= cutoff;
      var m, a, todo := meta, attached, expired;
      while todo != {}
        invariant todo <= expired && m == meta - (expired - todo)
        invariant expired - todo <= attached.Keys && a == attached - (expired - todo)
        invariant meta == old(meta) && attached == old(attached)
      {
        var name :| name in todo;
        if name !in a {
          assert name !in attached;
          return false;
        }
        assert expired - (todo - {name}) == expired - todo + {name};
        a, m, todo := a - {name}, m - {name}, todo - {name};
      }
      assert expired - todo == expired;
      if commits {
        meta, attached := m, a;
      }
      return commits;
    }

    /**
     * runPartitionMaintenance on the primary: the drop follows whether or not the create pass succeeded. When the drop
     * commits nothing expired is left; only what is expired ever goes; and when both succeed, every instant of the
     * window lies in exactly one registered partition.
     */
    method RunMaintenance(g: Grid, w: Window, n1: Time, n2: Time, failAt: nat, commits: bool)
      returns (created: bool, dropped: bool)
      requires Sound(g) && Inv(g, Contents()) && WindowIsNamed(g, w, n1)
      modifies this
      ensures (dropped <==> commits) && (created <==> failAt >= |PassCells(g, w, n1)|)
      ensures IsMaintained(g, w, old(Contents()), Contents(), n1, n2, failAt, dropped)
    {
      hide *;
      NamedWindow(g, w, n1);
      ghost var r0 := Contents();
      ghost var done: nat;
      created, done := CreatePartitions(g, w, n1, failAt);
      ghost var r1 := Contents();
      DropIsKept(g, r1, n2 - w.retention);
      dropped := DropExpired(n2 - w.retention, commits);
      PassedThenDropped(g, w, r0, r1, Contents(), n1, n2 - w.retention, failAt, done, dropped);
      MaintenanceEnds(g, w, r0, r1, Contents(), n1, n2, failAt, dropped);
    }

    /** runCreate: the initial partition of the current hour, in two statements of which the second may never run. */
    method CreateInitial(g: Grid, now: Time, dies: bool)
      requires Sound(g) && g.interval == HOUR && 0 <= now < g.last && Inv(g, Contents())
      modifies this
      ensures !dies ==> CreateTx(g, old(Contents()), Truncate(now, HOUR)) == Some(Contents())
      ensures !dies ==> InExactlyOne(Contents(), now)
      ensures Inv(g, Contents()) && Orphans(Contents()) <= old(Orphans(Contents())) + {g.name(Truncate(now, HOUR))}
    {
      TruncateIsFloor(now, HOUR);
      var hour := Truncate(now, HOUR);
      assert OnGrid(g, hour);
      hide OnGrid, Sound, Inv, CreateTx, Orphans;
      CreateKeepsInv(g, Contents(), hour);
      ExistingCellIsKept(g, Contents(), hour);
      TableWithoutEntry(g, Contents(), hour);
      var name := g.name(hour);
      if name !in attached {
        attached := attached[name := Range(hour, hour + HOUR)];
      }
      if !dies && name !in meta {
        meta := meta[name := Range(hour, hour + HOUR)];
      }
      if !dies {
        CreatedHolds(g, old(Contents()), Contents(), hour, now);
      }
    }
  }

  lemma CreatedHolds(g: Grid, r: Registry, after: Registry, lower: Time, x: Time)
    requires Sound(g) && Inv(g, r) && OnGrid(g, lower) && CreateTx(g, r, lower) == Some(after)
    requires lower <= x < lower + g.interval
    ensures InExactlyOne(after, x)
  {
    hide Sound, OnGrid, Inv, CreateTx;
    CreateKeepsInv(g, r, lower);
    OnlyOneHolds(g, after, lower, x);
  }

  /** The table alone: what is left when the metadata statement does not run. */
  lemma TableWithoutEntry(g: Grid, r: Registry, lower: Time)
    requires Sound(g) && Inv(g, r) && OnGrid(g, lower)
    ensures var name := g.name(lower);
      var half := Registry(r.meta, if name in r.attached then r.attached else r.attached[name := Cell(g, lower)]);
      && Inv(g, half) && Orphans(half) <= Orphans(r) + {name}
      && (name in r.meta ==> half == r)
  {
    hide OnGrid, Sound;
  }

  lemma PassBegins(g: Grid, w: Window, now: Time, r: Registry)
    requires g.interval > 0
    ensures var cells := PassCells(g, w, now);
      && cells[0..] == Cells(Truncate(now - g.interval, g.interval), now + w.lookAhead, g.interval)
      && PerformAll(g, r, CreateOps(cells[..0])) == r
  {
  }

  lemma PassEnds(t: Time, end: Time, interval: Time)
    requires interval > 0 && t >= end
    ensures Cells(t, end, interval) == []
  {
  }

  lemma NotDone(t: Time, end: Time, interval: Time)
    requires interval > 0 && t < end
    ensures Cells(t, end, interval) != []
  {
  }

  lemma NextCell(g: Grid, w: Window, now: Time, cells: seq<Time>, k: nat, t: Time, end: Time)
    requires WindowIsNamed(g, w, now) && cells == PassCells(g, w, now)
    requires k <= |cells| && t < end && cells[k..] == Cells(t, end, g.interval)
    ensures k < |cells| && cells[k] == t && cells[k + 1..] == Cells(t + g.interval, end, g.interval) && OnGrid(g, t)
  {
    assert cells[k..][0] == t && cells[k..][1..] == cells[k + 1..];
    PassIsOnGrid(g, w, now, t);
  }

  lemma OneMoreCreate(g: Grid, r: Registry, cells: seq<Time>, k: nat)
    requires k < |cells|
    ensures var before := PerformAll(g, r, CreateOps(cells[..k]));
      PerformAll(g, r, CreateOps(cells[..k + 1])) ==
      match CreateTx(g, before, cells[k]) case None => before case Some(after) => after
  {
    hide CreateTx;
    LastCreate(cells[..k + 1]);
    assert cells[..k + 1][..k] == cells[..k];
  }

  /** The existence check only saves a transaction that would change nothing. */
  lemma ExistingCellIsKept(g: Grid, r: Registry, lower: Time)
    requires Sound(g) && Inv(g, r) && OnGrid(g, lower)
    ensures CreateTx(g, r, lower).Some?
    ensures var name := g.name(lower); var r' := CreateTx(g, r, lower).value;
      && (name in r.meta ==> r' == r)
      && (name !in r.meta ==>
            r' == Registry(r.meta[name := Cell(g, lower)],
                           if name in r.attached then r.attached else r.attached[name := Cell(g, lower)]))
  {
    CreateKeepsInv(g, r, lower);
  }
}
