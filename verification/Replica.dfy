/** Replicas have no metadata table: bounds are recovered from names (partition.go, cmd/pglg-setup/main.go). */
module Replica {
  import opened Basics
  import opened Names
  import opened GridTime
  import opened Maintenance
  import opened Partitions

  datatype ExpiredPartition = ExpiredPartition(name: string, upper: Time)

  /** A name expires by its own text: it parses, and its cell ends by the cutoff. */
  predicate NameExpired(prefix: string, interval: Time, name: string, cutoff: Time) {
    match ParsePartitionLower(prefix, name)
    case None => false
    case Some(lower) => lower + interval <= cutoff
  }

  ghost predicate SortedNames(names: seq<string>) {
    forall i, j :: 0 <= i < j < |names| ==> Less(names[i], names[j])
  }

  /** Sorted insertion: the effect of sort.Strings on distinct names. */
  function Insert(names: seq<string>, name: string): seq<string> {
    if names == [] then [name]
    else if Less(name, names[0]) then [name] + names
    else [names[0]] + Insert(names[1..], name)
  }

  lemma {:induction false} InsertKeepsOrder(names: seq<string>, name: string)
    requires SortedNames(names) && name !in names
    ensures SortedNames(Insert(names, name))
    ensures forall n :: n in Insert(names, name) <==> n in names || n == name
  {
    if names != [] {
      var first, rest := names[0], names[1..];
      assert names == [first] + rest;
      if Less(name, first) {
        forall n | n in rest ensures Less(name, n) {
          LessIsTransitive(name, first, n);
        }
      } else {
        LessIsTotal(name, first);
        InsertKeepsOrder(rest, name);
        forall n | n in Insert(rest, name) ensures Less(first, n) {
          assert n in rest || n == name;
        }
      }
    }
  }

  method SortedFrom(existing: set<string>) returns (names: seq<string>)
    ensures SortedNames(names) && forall n :: n in names <==> n in existing
  {
    names := [];
    var todo := existing;
    while todo != {}
      invariant todo <= existing && SortedNames(names)
      invariant forall n :: n in names <==> n in existing && n !in todo
    {
      var name :| name in todo;
      InsertKeepsOrder(names, name);
      names := Insert(names, name);
      todo := todo - {name};
    }
  }

  ghost predicate SortedEntries(s: seq<ExpiredPartition>) {
    forall i, j :: 0 <= i < j < |s| ==> Less(s[i].name, s[j].name)
  }

  /** The names to drop, once each and in name order, with the upper bounds their text gives. */
  method SelectExpired(prefix: string, interval: Time, existing: set<string>, cutoff: Time)
    returns (toDrop: seq<ExpiredPartition>)
    ensures SortedEntries(toDrop)
    ensures forall e :: e in toDrop <==>
              e.name in existing && NameExpired(prefix, interval, e.name, cutoff)
              && ParsePartitionLower(prefix, e.name) == Some(e.upper - interval)
  {
    hide ParsePartitionLower, Less;
    var names := SortedFrom(existing);
    toDrop := [];
    for i := 0 to |names|
      invariant SortedEntries(toDrop)
      invariant forall e :: e in toDrop ==> e.name in names[..i]
      invariant forall e :: e in toDrop <==>
                  e.name in names[..i] && NameExpired(prefix, interval, e.name, cutoff)
                  && ParsePartitionLower(prefix, e.name) == Some(e.upper - interval)
    {
      var name := names[i];
      assert names[..i + 1] == names[..i] + [name];
      forall n | n in names[..i] ensures Less(n, name) {
        var k :| 0 <= k < i && names[k] == n;
      }
      NotAmongEarlier(names, i);
      var lower := ParsePartitionLower(prefix, name);
      if lower.None? {
        continue;
      }
      var upper := lower.value + interval;
      if upper > cutoff {
        continue;
      }
      toDrop := toDrop + [ExpiredPartition(name, upper)];
    }
    assert names[..|names|] == names;
  }

  lemma NotAmongEarlier(names: seq<string>, i: nat)
    requires SortedNames(names) && i < |names|
    ensures names[i] !in names[..i]
  {
    forall k | 0 <= k < i ensures names[k] != names[i] {
      LessIsStrict(names[k], names[i]);
    }
  }

  // ---- Expiry by name is expiry by metadata --------------------------------------------------------------

  lemma CellParses(prefix: string, interval: Time, name: string, range: Range)
    requires interval > 0 && interval % MINUTE == 0 && IsCell(CalendarGrid(prefix, interval), name, range)
    ensures InCalendar(range.lower) && name == PartitionName(prefix, range.lower)
    ensures ParsePartitionLower(prefix, name) == Some(range.lower) && range.upper == range.lower + interval
  {
    hide PartitionName, ParsePartitionLower;
    CoarserGrid(range.lower, interval, MINUTE);
    NameRoundTrip(prefix, range.lower);
  }

  /** On whole-minute grids the text of the names selects what the SQL predicate selects at the same cutoff. */
  lemma NameExpiryIsMetadataExpiry(prefix: string, interval: Time, r: Registry, cutoff: Time)
    requires interval > 0 && interval % MINUTE == 0 && Inv(CalendarGrid(prefix, interval), r)
    ensures (set n | n in r.meta.Keys && NameExpired(prefix, interval, n, cutoff)) == Expired(r.meta, cutoff)
  {
    hide IsCell, ParsePartitionLower;
    forall n | n in r.meta ensures NameExpired(prefix, interval, n, cutoff) <==> r.meta[n].upper <= cutoff {
      CellParses(prefix, interval, n, r.meta[n]);
    }
  }

  /**
   * Hence, of cells on the grid, the selection lists exactly the expired ones, oldest first, with their real bounds.
   */
  lemma SelectionIsOldestFirst(
    prefix: string, interval: Time, attached: Tables, cutoff: Time, toDrop: seq<ExpiredPartition>)
    requires interval > 0 && interval % MINUTE == 0
    requires forall n :: n in attached ==> IsCell(CalendarGrid(prefix, interval), n, attached[n])
    requires SortedEntries(toDrop)
    requires forall e :: e in toDrop <==>
               e.name in attached.Keys && NameExpired(prefix, interval, e.name, cutoff)
               && ParsePartitionLower(prefix, e.name) == Some(e.upper - interval)
    ensures forall e :: e in toDrop <==> e.name in attached && attached[e.name].upper == e.upper && e.upper <= cutoff
    ensures forall i, j :: 0 <= i < j < |toDrop| ==> toDrop[i].upper < toDrop[j].upper
  {
    hide IsCell, ParsePartitionLower, PartitionName, InCalendar;
    forall e: ExpiredPartition
      ensures e in toDrop <==> e.name in attached && attached[e.name].upper == e.upper && e.upper <= cutoff
    {
      if e.name in attached {
        CellParses(prefix, interval, e.name, attached[e.name]);
      }
    }
    forall i, j | 0 <= i < j < |toDrop| ensures toDrop[i].upper < toDrop[j].upper {
      var a, b := toDrop[i], toDrop[j];
      assert a in toDrop && b in toDrop;
      CellParses(prefix, interval, a.name, attached[a.name]);
      CellParses(prefix, interval, b.name, attached[b.name]);
      NameOrderIsTimeOrder(prefix, attached[a.name].lower, attached[b.name].lower);
      LaterMinute(attached[a.name].lower, attached[b.name].lower);
    }
  }

  lemma LaterMinute(a: Time, b: Time)
    requires a / MINUTE < b / MINUTE
    ensures a < b
  {
  }

  // ---- The replica passes ----------------------------------------------------------------------------------

  function ApplyTime(lastMessage: Time, now: Time): Time {
    if lastMessage > now then now else lastMessage
  }

  class ReplicaDb {
    var attached: Tables

    ghost predicate OnlyCells(prefix: string, interval: Time)
      reads this
    {
      interval > 0 && forall n :: n in attached ==> IsCell(CalendarGrid(prefix, interval), n, attached[n])
    }

    /** listReplicaPartitions. */
    method List() returns (existing: set<string>)
      ensures existing == attached.Keys
    {
      existing := attached.Keys;
    }

    /**
     * createReplicaPartitions: one statement a cell, over a listing that may be out of date; the database may
     * fail at any statement, and earlier tables stay.
     */
    method Create(prefix: string, interval: Time, w: Window, now: Time, existing: set<string>, failAt: nat)
      returns (ok: bool, ghost done: nat)
      requires interval % MINUTE == 0 && OnlyCells(prefix, interval)
      requires WindowIsNamed(CalendarGrid(prefix, interval), w, now)
      modifies this
      ensures OnlyCells(prefix, interval) && Kept(old(attached), attached)
      ensures var g := CalendarGrid(prefix, interval); var cells := PassCells(g, w, now);
        && done <= |cells| && (ok <==> done == |cells|)
        && attached.Keys == old(attached).Keys + (Named(g, cells[..done]) - existing)
        && (Named(g, cells) <= existing || failAt >= |cells| ==> ok)
        && (!ok ==> done == failAt)
    {
      hide PartitionNaming, IsCell, OnGrid, Cells, PassCells, Named, Attach;
      var g := CalendarGrid(prefix, interval);
      ghost var cells := PassCells(g, w, now);
      var t := Truncate(now - interval, interval);
      var end := now + w.lookAhead;
      var iteration := 0;
      done := 0;
      PassBegins(g, w, now, Registry(map[], map[]));
      NamedOfNone(g, cells);
      while t < end
        invariant done <= |cells| && done == iteration && cells[done..] == Cells(t, end, interval)
        invariant OnlyCells(prefix, interval) && Kept(old(attached), attached)
        invariant attached.Keys == old(attached).Keys + (Named(g, cells[..done]) - existing)
        decreases end - t
      {
        NextCell(g, w, now, cells, done, t, end);
        NamedOfNext(g, cells, done);
        var name := g.name(t);
        if name !in existing {
          if iteration == failAt {
            NotDone(t, end, interval);
            NameIn(g, cells, t);
            return false, done;
          }
          if name !in attached {
            NewTableAttaches(prefix, interval, attached, t);
            attached := Attach(attached, name, Range(t, t + interval)).value;
          }
        }
        done := done + 1;
        iteration := iteration + 1;
        t := t + interval;
      }
      PassEnds(t, end, interval);
      return true, done;
    }

    /** createPartitionRange: hourly tables from start through now + 13h; an empty range is an error. */
    method CreateRange(prefix: string, start0: Time, now: Time, failAt: nat) returns (ok: bool, count: nat)
      requires OnlyCells(prefix, HOUR)
      requires 0 <= Truncate(start0, HOUR) && BackfillEnd(now) <= END_OF_CALENDAR
      modifies this
      ensures OnlyCells(prefix, HOUR) && Kept(old(attached), attached)
      ensures var g := CalendarGrid(prefix, HOUR); var cells := BackfillCells(start0, now);
        && count == Reached(failAt, |cells|) && (ok <==> cells != [] && failAt >= |cells|)
        && attached.Keys == old(attached).Keys + Named(g, cells[..count])
    {
      hide PartitionNaming, IsCell, OnGrid, Cells, Named, Attach;
      var g := CalendarGrid(prefix, HOUR);
      ghost var cells := BackfillCells(start0, now);
      var start, end := Truncate(start0, HOUR), BackfillEnd(now);
      count := 0;
      NamedOfNone(g, cells);
      if start >= end {
        PassEnds(start, end, HOUR);
        return false, 0;
      }
      NotDone(start, end, HOUR);
      var t := start;
      while t < end
        invariant count <= |cells| && count <= failAt && cells[count..] == Cells(t, end, HOUR)
        invariant OnlyCells(prefix, HOUR) && Kept(old(attached), attached)
        invariant attached.Keys == old(attached).Keys + Named(g, cells[..count])
        decreases end - t
      {
        NextOfRange(g, start0, now, cells, count, t);
        if count == failAt {
          return false, count;
        }
        NamedOfNext(g, cells, count);
        var name := g.name(t);
        if name !in attached {
          NewTableAttaches(prefix, HOUR, attached, t);
          attached := Attach(attached, name, Range(t, t + HOUR)).value;
        }
        count := count + 1;
        t := t + HOUR;
      }
      PassEnds(t, end, HOUR);
      assert |cells[count..]| == 0;
      return true, count;
    }

    /**
     * Setup with --create-partitions, and the driver's first create pass over a fresh listing at the same time: if
     * setup succeeds, the pass issues no statement that could fail, and adds nothing.
     */
    method OnboardThenPass(prefix: string, start0: Time, now: Time, failAt: nat)
      returns (onboarded: bool, passed: bool, ghost between: Tables)
      requires OnlyCells(prefix, HOUR) && start0 <= now - HOUR
      requires 0 <= Truncate(start0, HOUR) && BackfillEnd(now) <= END_OF_CALENDAR
      modifies this
      ensures OnlyCells(prefix, HOUR) && Kept(old(attached), attached) && Kept(between, attached)
      ensures var g := CalendarGrid(prefix, HOUR);
        onboarded ==>
          passed && attached == between && Named(g, PassCells(g, Window(12 * HOUR, 0), now)) <= attached.Keys
    {
      hide PartitionNaming, IsCell, OnGrid, Cells, PassCells, Named, BackfillCells;
      ghost var g, w := CalendarGrid(prefix, HOUR), Window(12 * HOUR, 0);
      ghost var count: nat;
      BackfillWindowIsNamed(prefix, start0, now);
      onboarded, count := CreateRange(prefix, start0, now, failAt);
      between := attached;
      passed := false;
      if onboarded {
        ghost var cells := BackfillCells(start0, now);
        assert cells[..|cells|] == cells;
        BackfillMeetsTheWindow(prefix, start0, now);
        var existing := List();
        ghost var done: nat;
        passed, done := Create(prefix, HOUR, Window(12 * HOUR, 0), now, existing, failAt);
        ghost var pass := PassCells(g, w, now);
        NamedOfPrefix(g, pass, done);
        assert attached.Keys == between.Keys;
      }
    }

    /**
     * dropExpiredReplicaPartitions: behind the apply position, in one transaction. An unknown apply position
     * drops nothing; a name that is no longer attached rolls the transaction back.
     */
    method DropExpired(
      prefix: string, interval: Time, retention: Time, now: Time, lastMessage: Option<Time>, existing: set<string>,
      commits: bool)
      returns (ok: bool)
      modifies this
      ensures lastMessage.None? || !ok ==> attached == old(attached)
      ensures lastMessage.None? ==> ok
      ensures lastMessage.Some? && ok ==>
                var cutoff := ApplyTime(lastMessage.value, now) - retention;
                attached == old(attached) - (set n | n in existing && NameExpired(prefix, interval, n, cutoff))
      ensures lastMessage.Some? && commits && existing <= old(attached).Keys ==> ok
    {
      hide ParsePartitionLower, NameExpired, Less;
      if lastMessage.None? {
        return true;
      }
      var applyTime := lastMessage.value;
      if applyTime > now {
        applyTime := now;
      }
      var cutoff := applyTime - retention;
      var toDrop := SelectExpired(prefix, interval, existing, cutoff);
      ghost var expired := set n | n in existing && NameExpired(prefix, interval, n, cutoff);
      AllSelected(prefix, interval, existing, cutoff, toDrop);
      var a := attached;
      for i := 0 to |toDrop|
        invariant attached == old(attached)
        invariant a == attached - NamesOf(toDrop[..i])
      {
        assert toDrop[..i + 1] == toDrop[..i] + [toDrop[i]];
        assert NamesOf(toDrop[..i + 1]) == NamesOf(toDrop[..i]) + {toDrop[i].name};
        if toDrop[i].name !in a {
          EntryIsNew(toDrop, i);
          assert toDrop[i].name in NamesOf(toDrop);
          return false;
        }
        a := a - {toDrop[i].name};
      }
      assert toDrop[..|toDrop|] == toDrop;
      if toDrop != [] && !commits {
        return false;
      }
      attached := a;
      return true;
    }
  }

  function NamesOf(s: seq<ExpiredPartition>): set<string> {
    set e | e in s :: e.name
  }

  lemma AllSelected(prefix: string, interval: Time, existing: set<string>, cutoff: Time, toDrop: seq<ExpiredPartition>)
    requires forall e :: e in toDrop <==>
               e.name in existing && NameExpired(prefix, interval, e.name, cutoff)
               && ParsePartitionLower(prefix, e.name) == Some(e.upper - interval)
    ensures NamesOf(toDrop) == set n | n in existing && NameExpired(prefix, interval, n, cutoff)
  {
    hide ParsePartitionLower;
    forall n | n in existing && NameExpired(prefix, interval, n, cutoff) ensures n in NamesOf(toDrop) {
      var e := ExpiredPartition(n, ParsePartitionLower(prefix, n).value + interval);
      assert e in toDrop;
    }
  }

  lemma EntryIsNew(s: seq<ExpiredPartition>, i: nat)
    requires SortedEntries(s) && i < |s|
    ensures s[i].name !in NamesOf(s[..i])
  {
    forall k | 0 <= k < i ensures s[k].name != s[i].name {
      LessIsStrict(s[k].name, s[i].name);
    }
  }

  /** A new cell meets no attached range, so that its statement succeeds. */
  lemma NewTableAttaches(prefix: string, interval: Time, attached: Tables, t: Time)
    requires interval > 0 && OnGrid(CalendarGrid(prefix, interval), t)
    requires forall n :: n in attached ==> IsCell(CalendarGrid(prefix, interval), n, attached[n])
    requires CalendarGrid(prefix, interval).name(t) !in attached
    ensures var g := CalendarGrid(prefix, interval); var range := Range(t, t + interval);
      && Attach(attached, g.name(t), range) == Some(attached[g.name(t) := range]) && IsCell(g, g.name(t), range)
  {
    hide PartitionNaming, OnGrid;
    var g := CalendarGrid(prefix, interval);
    forall n | n in attached ensures !Overlap(attached[n], Range(t, t + interval)) {
      CellsMeetOnlyThemselves(g, attached[n].lower, t);
    }
  }

  /** The replica's cutoff never passes the primary's, so it never drops a range the primary would still keep. */
  lemma ReplicaDropsOnlyBehindApply(
    prefix: string, interval: Time, retention: Time, attached: Tables, now: Time, lastMessage: Time, n: string)
    requires interval > 0 && interval % MINUTE == 0 && n in attached
    requires IsCell(CalendarGrid(prefix, interval), n, attached[n])
    ensures NameExpired(prefix, interval, n, ApplyTime(lastMessage, now) - retention)
            <==> attached[n].upper <= Min(lastMessage, now) - retention
    ensures NameExpired(prefix, interval, n, ApplyTime(lastMessage, now) - retention) ==>
              n in Expired(attached, now - retention)
  {
    hide IsCell, ParsePartitionLower;
    CellParses(prefix, interval, n, attached[n]);
  }

  function Min(a: int, b: int): int {
    if a <= b then a else b
  }

  // ---- Backfilling a replica ---------------------------------------------------------------------------------

  function BackfillEnd(now: Time): Time {
    Truncate(now + 13 * HOUR, HOUR)
  }

  function BackfillCells(start0: Time, now: Time): seq<Time> {
    Cells(Truncate(start0, HOUR), BackfillEnd(now), HOUR)
  }

  /** Setup's range is every whole hour from that of the start to the last that ends within 13 hours of now. */
  lemma BackfillCellsAre(start0: Time, now: Time, t: Time)
    ensures t in BackfillCells(start0, now) <==>
            t % 3_600_000_000_000 == 0 && start0 < t + 3_600_000_000_000 <= now + 13 * 3_600_000_000_000
    ensures t in BackfillCells(start0, now) <==> Truncate(start0, HOUR) <= t < BackfillEnd(now) && t % HOUR == 0
  {
    TruncateIsFloor(start0, HOUR);
    TruncateIsFloor(now + 13 * HOUR, HOUR);
    CellsAre(Truncate(start0, HOUR), BackfillEnd(now), HOUR, t);
    if t % HOUR == 0 {
      GridStep(t, HOUR);
      FollowsTruncate(start0, t, HOUR);
      PrecedesTruncate(now + 13 * HOUR, t, HOUR);
    }
  }

  lemma NextOfRange(g: Grid, start0: Time, now: Time, cells: seq<Time>, k: nat, t: Time)
    requires g.interval == HOUR && 0 <= Truncate(start0, HOUR) && BackfillEnd(now) <= g.last
    requires cells == BackfillCells(start0, now) && k <= |cells| && t < BackfillEnd(now)
    requires cells[k..] == Cells(t, BackfillEnd(now), HOUR)
    ensures k < |cells| && cells[k] == t && cells[k + 1..] == Cells(t + HOUR, BackfillEnd(now), HOUR) && OnGrid(g, t)
  {
    assert cells[k..][0] == t && cells[k..][1..] == cells[k + 1..];
    BackfillCellsAre(start0, now, t);
  }

  /**
   * With a look-ahead of 12 hours, setup's range holds every cell that the create pass visits at the same time:
   * by Create's contract the pass then adds nothing.
   */
  lemma BackfillMeetsTheWindow(prefix: string, start0: Time, now: Time)
    requires start0 <= now - HOUR
    ensures var g := CalendarGrid(prefix, HOUR);
      Named(g, PassCells(g, Window(12 * HOUR, 0), now)) <= Named(g, BackfillCells(start0, now))
  {
    var g, w := CalendarGrid(prefix, HOUR), Window(12 * HOUR, 0);
    forall t | t in PassCells(g, w, now) ensures t in BackfillCells(start0, now) {
      CellIsBackfilled(prefix, start0, now, t);
    }
  }

  lemma CellIsBackfilled(prefix: string, start0: Time, now: Time, t: Time)
    requires start0 <= now - HOUR && t in PassCells(CalendarGrid(prefix, HOUR), Window(12 * HOUR, 0), now)
    ensures t in BackfillCells(start0, now)
  {
    var g := CalendarGrid(prefix, HOUR);
    TruncateIsFloor(start0, HOUR);
    TruncateIsFloor(now - HOUR, HOUR);
    TruncateIsFloor(now + 13 * HOUR, HOUR);
    CellsAre(WindowStart(g, now), now + 12 * HOUR, HOUR, t);
    BackfillCellsAre(start0, now, t);
    GridStep(t, HOUR);
  }

  lemma BackfillWindowIsNamed(prefix: string, start0: Time, now: Time)
    requires start0 <= now - HOUR && 0 <= Truncate(start0, HOUR) && BackfillEnd(now) <= END_OF_CALENDAR
    ensures WindowIsNamed(CalendarGrid(prefix, HOUR), Window(12 * HOUR, 0), now)
  {
    TruncateIsFloor(start0, HOUR);
    TruncateIsFloor(now - HOUR, HOUR);
    TruncateIsFloor(now + 13 * HOUR, HOUR);
  }
}
