/** The partition manager: create what is missing in the window ahead, drop what is older than the cut-off, and account for the rows. */
module PartitionCycle {
  import opened Types
  import opened Text
  import opened Partitions

  /** The attached partitions of the effect log, by name, with their row counts. */
  type Tables = map<string, nat>

  datatype Config = Config(retention: nat, ahead: nat)

  /** The fields are unsigned 32-bit integers. */
  predicate IsConfig(config: Config) {
    config.retention < 0x1_0000_0000 && config.ahead < 0x1_0000_0000
  }

  datatype DropResult = DropResult(names: seq<string>, rows: nat)

  datatype CycleResult = CycleResult(created: seq<string>, dropped: DropResult)

  datatype Info = Info(name: string, month: Month, rows: nat)

  // ── Specification ─────────────────────────────────────────────────────────

  /** The names of the window's months. */
  ghost predicate InWindow(name: string, now: Month, months: nat)
    requires 1 <= now.month <= 12
  {
    exists offset: nat :: offset < months && 1 <= Ahead(now, offset).month && name == Name(Ahead(now, offset))
  }

  /** Everything old stays as it was, and what is new is empty and in the window. */
  ghost predicate Extends(was: Tables, t: Tables, now: Month, months: nat)
    requires 1 <= now.month <= 12
  {
    && (forall n :: n in was ==> n in t && t[n] == was[n])
    && (forall n :: n in t && n !in was ==> t[n] == 0 && InWindow(n, now, months))
  }

  /** The window's partitions are all there. */
  ghost predicate HasWindow(t: Tables, now: Month, months: nat)
    requires 1 <= now.month
  {
    HasAll(t, WindowNames(now), months)
  }

  function WindowNames(now: Month): nat -> string
    requires 1 <= now.month
  {
    (offset: nat) => Name(Ahead(now, offset))
  }

  ghost predicate HasAll(t: Tables, names: nat -> string, k: nat) {
    forall i: nat :: i < k ==> names(i) in t
  }

  /** The names, each once, of the tables that were added. */
  ghost predicate IsNew(names: seq<string>, was: Tables, t: Tables) {
    Distinct(names) && forall n :: n in names <==> n in t && n !in was
  }

  predicate Expired(name: string, cutoff: Month) {
    ParsePartition(name).Some? && Before(ParsePartition(name).value, cutoff)
  }

  /** The tables that do not satisfy p. */
  function Kept(t: Tables, p: string -> bool): Tables {
    map n | n in t && !p(n) :: t[n]
  }

  /** The names the catalogue lists: each table once, in its order. */
  ghost predicate IsListing(names: seq<string>, t: Tables) {
    Distinct(names) && forall n :: n in names <==> n in t
  }

  /** The names that satisfy p, in order. */
  function Select(names: seq<string>, p: string -> bool): seq<string> {
    if names == [] then []
    else Select(names[..|names| - 1], p) + (if p(names[|names| - 1]) then [names[|names| - 1]] else [])
  }

  function ExpiredAt(cutoff: Month): string -> bool {
    (n: string) => Expired(n, cutoff)
  }

  function IsMonthly(): string -> bool {
    (n: string) => ParsePartition(n).Some?
  }

  /** Rows held by the listed tables. */
  function Rows(names: seq<string>, t: Tables): nat {
    if names == [] then 0
    else Rows(names[..|names| - 1], t) + (if names[|names| - 1] in t then t[names[|names| - 1]] else 0)
  }

  /** Dropping loses exactly the rows of the dropped tables. */
  lemma {:induction false} RowsAreConserved(names: seq<string>, t: Tables, p: string -> bool)
    ensures Rows(names, t) == Rows(names, Kept(t, p)) + Rows(Select(names, p), t)
    decreases |names|
  {
    if names != [] {
      var rest, n := names[..|names| - 1], names[|names| - 1];
      RowsAreConserved(rest, t, p);
      var gone := Select(rest, p);
      if p(n) {
        assert (gone + [n])[..|gone|] == gone;
      } else {
        assert gone + [] == gone;
      }
    }
  }

  // ── One more partition ────────────────────────────────────────────────────

  lemma ExtendsOn(was: Tables, t: Tables, now: Month, offset: nat, months: nat)
    requires 1 <= now.month <= 12 && 1 <= Ahead(now, offset).month && offset < months && Extends(was, t, now, months)
    ensures Name(Ahead(now, offset)) !in t ==> Extends(was, t[Name(Ahead(now, offset)) := 0], now, months)
  {
    assert InWindow(Name(Ahead(now, offset)), now, months);
  }

  lemma HasOneMore(t: Tables, t': Tables, names: nat -> string, k: nat)
    requires HasAll(t, names, k) && names(k) in t' && forall n :: n in t ==> n in t'
    ensures HasAll(t', names, k + 1)
  {
  }

  lemma NewGrows(names: seq<string>, was: Tables, t: Tables, name: string)
    requires IsNew(names, was, t) && forall n :: n in was ==> n in t
    ensures name in t ==> IsNew(names, was, t)
    ensures name !in t ==> IsNew(names + [name], was, t[name := 0])
  {
    if name !in t {
      DistinctSnoc(names, name);
    }
  }

  // ── Listings ──────────────────────────────────────────────────────────────

  predicate Describes(info: Info, t: Tables) {
    info.name in t && ParsePartition(info.name) == Some(info.month) && info.rows == t[info.name]
  }

  function NamesOf(infos: seq<Info>): (names: seq<string>)
    ensures |names| == |infos| && forall i :: 0 <= i < |infos| ==> names[i] == infos[i].name
  {
    if infos == [] then [] else NamesOf(infos[..|infos| - 1]) + [infos[|infos| - 1].name]
  }

  function Without(t: Tables, names: seq<string>): Tables {
    map n | n in t && n !in names :: t[n]
  }

  lemma NamesSnoc(infos: seq<Info>, info: Info)
    ensures NamesOf(infos + [info]) == NamesOf(infos) + [info.name]
  {
    assert (infos + [info])[..|infos|] == infos;
  }

  lemma DistinctSnoc(s: seq<string>, x: string)
    requires Distinct(s) && x !in s
    ensures Distinct(s + [x])
  {
  }

  /** A selection names exactly the listed names that satisfy p, each once. */
  lemma {:induction false} SelectIn(names: seq<string>, p: string -> bool)
    ensures forall n :: n in Select(names, p) <==> n in names && p(n)
    ensures Distinct(names) ==> Distinct(Select(names, p))
    decreases |names|
  {
    if names != [] {
      var rest, last := names[..|names| - 1], names[|names| - 1];
      SelectIn(rest, p);
      assert names == rest + [last];
      assert Select(rest, p) + [] == Select(rest, p);
      if Distinct(names) {
        assert forall i :: 0 <= i < |rest| ==> rest[i] == names[i] && names[i] != last;
        DistinctSnoc(Select(rest, p), last);
      }
    }
  }

  lemma SelectSnoc(names: seq<string>, n: string, p: string -> bool)
    ensures Select(names + [n], p) == if p(n) then Select(names, p) + [n] else Select(names, p)
  {
    assert (names + [n])[..|names|] == names;
  }

  /** Selecting first by a weaker condition makes no difference. */
  lemma {:induction false} SelectTwice(names: seq<string>, q: string -> bool, p: string -> bool)
    requires forall n :: p(n) ==> q(n)
    ensures Select(Select(names, q), p) == Select(names, p)
    decreases |names|
  {
    if names != [] {
      var rest, n := names[..|names| - 1], names[|names| - 1];
      SelectTwice(rest, q, p);
      SelectSnoc(Select(rest, q), n, p);
      assert Select(rest, q) + [] == Select(rest, q);
    }
  }

  /** A listed partition was not dropped before its turn. */
  lemma ListedOnce(all: seq<string>, i: nat, p: string -> bool)
    requires Distinct(all) && i < |all|
    ensures all[i] !in Select(all[..i], p)
  {
    SelectIn(all[..i], p);
  }

  lemma DroppedSnoc(t: Tables, dropped: seq<string>, n: string)
    requires n in t && n !in dropped
    ensures Without(t, dropped) - {n} == Without(t, dropped + [n]) && Rows(dropped + [n], t) == Rows(dropped, t) + t[n]
  {
    assert (dropped + [n])[..|dropped|] == dropped;
  }

  lemma WithoutSelected(t: Tables, names: seq<string>, p: string -> bool)
    requires IsListing(names, t)
    ensures Without(t, Select(names, p)) == Kept(t, p)
  {
    SelectIn(names, p);
  }

  // ── The manager ───────────────────────────────────────────────────────────

  class Manager {
    var tables: Tables

    constructor (tables: Tables)
      ensures this.tables == tables
    {
      this.tables := tables;
    }

    /** Create a month's partition unless it exists. */
    method CreatePartition(m: Month) returns (r: Result<Option<string>>)
      requires 0 <= m.month
      modifies this
      ensures r.Ok? <==> IsPartition(m)
      ensures r.Err? ==> tables == old(tables)
      ensures r.Ok? ==> r.value == if Name(m) in old(tables) then None else Some(Name(m))
      ensures r.Ok? ==> tables == if Name(m) in old(tables) then old(tables) else old(tables)[Name(m) := 0]
    {
      var name := Name(m);
      if !IsDate(m) || !IsDate(NextMonth(m)) {
        return Err("Invalid date for partition");
      }
      if name in tables {
        return Ok(None);
      }
      tables := tables[name := 0];
      r := Ok(Some(name));
    }

    /** Create the missing partitions of the current month and the months after it. */
    method EnsureFuturePartitions(now: Month, config: Config) returns (r: Result<seq<string>>)
      requires IsDate(now) && IsConfig(config)
      modifies this
      ensures Extends(old(tables), tables, now, config.ahead)
      ensures r.Ok? <==> WindowFits(now, config.ahead)
      ensures r.Ok? ==> HasWindow(tables, now, config.ahead)
      ensures r.Ok? ==> IsNew(r.value, old(tables), tables)
    {
      var created: seq<string> := [];
      var offset := 0;
      while offset < config.ahead
        invariant offset <= config.ahead && (offset > 0 ==> IsPartition(Ahead(now, offset - 1)))
        invariant Extends(old(tables), tables, now, config.ahead) && HasWindow(tables, now, offset)
        invariant IsNew(created, old(tables), tables)
      {
        var m := Ahead(now, offset);
        ghost var before := tables;
        var made := CreatePartition(m);
        if made.Err? {
          if WindowFits(now, config.ahead) {
            WindowFitsAll(now, config.ahead, offset);
          }
          return Err(made.error);
        }
        ExtendsOn(old(tables), before, now, offset, config.ahead);
        HasOneMore(before, tables, WindowNames(now), offset);
        NewGrows(created, old(tables), before, Name(m));
        if made.value.Some? {
          created := created + [made.value.value];
        }
        offset := offset + 1;
      }
      r := Ok(created);
    }

    /** The catalogue query: every attached table, ordered by name. */
    method Catalogue() returns (names: seq<string>)
      ensures IsListing(names, tables) && Sorted(names)
    {
      var keys := tables.Keys;
      names := [];
      while keys != {}
        invariant keys <= tables.Keys && Distinct(names)
        invariant forall n :: n in names <==> n in tables && n !in keys
        decreases |keys|
      {
        var n :| n in keys;
        names, keys := names + [n], keys - {n};
      }
      SortKeysSorts(names);
      names := SortKeys(names);
    }

    /** Month and rows of one table, if it is a monthly partition. */
    method Inspect(name: string) returns (info: Option<Info>)
      requires name in tables
      ensures info.Some? <==> IsMonthly()(name)
      ensures info.Some? ==> info.value.name == name && Describes(info.value, tables)
    {
      var m := ParsePartition(name);
      info := if m.Some? then Some(Info(name, m.value, tables[name])) else None;
    }

    /** The listed tables that are monthly partitions, with their rows. */
    method ListPartitions(names: seq<string>) returns (infos: seq<Info>)
      requires IsListing(names, tables)
      ensures forall i :: 0 <= i < |infos| ==> Describes(infos[i], tables)
      ensures NamesOf(infos) == Select(names, IsMonthly())
    {
      infos := [];
      var i := 0;
      while i < |names|
        invariant i <= |names| && NamesOf(infos) == Select(names[..i], IsMonthly())
        invariant forall k :: 0 <= k < |infos| ==> Describes(infos[k], tables)
      {
        assert names[..i + 1] == names[..i] + [names[i]];
        SelectSnoc(names[..i], names[i], IsMonthly());
        var info := Inspect(names[i]);
        if info.Some? {
          NamesSnoc(infos, info.value);
          infos := infos + [info.value];
        }
        i := i + 1;
      }
      assert names[..|names|] == names;
    }

    method TruncatePartition(name: string) returns (deleted: nat)
      requires name in tables
      modifies this
      ensures deleted == old(tables)[name] && tables == old(tables)[name := 0]
    {
      deleted := tables[name];
      tables := tables[name := 0];
    }

    /** Drop a partition that exists and is empty. */
    method DropPartition(name: string) returns (dropped: bool)
      modifies this
      ensures dropped <==> name in old(tables) && old(tables)[name] == 0
      ensures tables == if dropped then old(tables) - {name} else old(tables)
    {
      if name !in tables || tables[name] > 0 {
        return false;
      }
      tables := tables - {name};
      dropped := true;
    }

    /** Empty and drop one expired partition. */
    method DropOne(info: Info) returns (rows: nat)
      requires info.name in tables && info.rows == tables[info.name]
      modifies this
      ensures rows == info.rows && tables == old(tables) - {info.name}
    {
      rows := 0;
      if info.rows > 0 {
        rows := TruncatePartition(info.name);
      }
      var dropped := DropPartition(info.name);
      assert tables == old(tables) - {info.name};
    }

    method DropIfExpired(info: Info, cutoff: Month, dropped: seq<string>, rows: nat, ghost was: Tables, ghost p: string -> bool)
      returns (dropped': seq<string>, rows': nat)
      requires info.name in was && info.rows == was[info.name] && (p(info.name) <==> Before(info.month, cutoff))
      requires info.name !in dropped && rows == Rows(dropped, was) && tables == Without(was, dropped)
      modifies this
      ensures dropped' == if p(info.name) then dropped + [info.name] else dropped
      ensures rows' == Rows(dropped', was) && tables == Without(was, dropped')
    {
      dropped', rows' := dropped, rows;
      if Before(info.month, cutoff) {
        DroppedSnoc(was, dropped, info.name);
        var n := DropOne(info);
        dropped', rows' := dropped + [info.name], rows + n;
      }
    }

    /** Walk the list and drop the partitions that start before the cut-off. */
    method DropListed(infos: seq<Info>, cutoff: Month, ghost p: string -> bool) returns (dropped: seq<string>, rows: nat)
      requires Distinct(NamesOf(infos))
      requires forall i :: 0 <= i < |infos| ==> infos[i].name in tables && infos[i].rows == tables[infos[i].name]
                                                && (p(infos[i].name) <==> Before(infos[i].month, cutoff))
      modifies this
      ensures dropped == Select(NamesOf(infos), p) && rows == Rows(dropped, old(tables))
      ensures tables == Without(old(tables), dropped)
    {
      ghost var was := tables;
      ghost var all := NamesOf(infos);
      dropped, rows := [], 0;
      assert tables == Without(was, dropped);
      var i := 0;
      while i < |infos|
        invariant i <= |infos| && dropped == Select(all[..i], p) && rows == Rows(dropped, was)
        invariant tables == Without(was, dropped)
      {
        assert all[..i + 1] == all[..i] + [all[i]];
        SelectSnoc(all[..i], all[i], p);
        ListedOnce(all, i, p);
        dropped, rows := DropIfExpired(infos[i], cutoff, dropped, rows, was, p);
        i := i + 1;
      }
      assert all[..|infos|] == all;
    }

    /** Drop every partition before the cut-off, and count its rows. */
    method DropExpiredPartitions(now: Month, config: Config) returns (r: Result<DropResult>, ghost names: seq<string>)
      requires IsDate(now) && IsConfig(config)
      modifies this
      ensures IsListing(names, old(tables)) && Sorted(names)
      ensures r.Ok? <==> Cutoff(now, config.retention).Some?
      ensures r.Err? ==> tables == old(tables)
      ensures r.Ok? ==> var cutoff := Cutoff(now, config.retention).value;
                tables == Kept(old(tables), ExpiredAt(cutoff)) && r.value.names == Select(names, ExpiredAt(cutoff))
                && r.value.rows == Rows(r.value.names, old(tables))
    {
      var cut := Cutoff(now, config.retention);
      var listed := Catalogue();
      names := listed;
      if cut.None? {
        return Err("Invalid cutoff date"), names;
      }
      var cutoff := cut.value;
      var infos := ListPartitions(listed);
      ghost var was := tables;
      SelectIn(names, IsMonthly());
      var dropped, rows := DropListed(infos, cutoff, ExpiredAt(cutoff));
      SelectTwice(names, IsMonthly(), ExpiredAt(cutoff));
      WithoutSelected(was, names, ExpiredAt(cutoff));
      r := Ok(DropResult(dropped, rows));
    }

    /** Ensure the window, then drop what expired; `ensured` are the tables in between. */
    method RunCycle(now: Month, config: Config) returns (r: Result<CycleResult>, ghost ensured: Tables, ghost names: seq<string>)
      requires IsDate(now) && IsConfig(config)
      modifies this
      ensures Extends(old(tables), ensured, now, config.ahead)
      ensures r.Ok? <==> WindowFits(now, config.ahead) && Cutoff(now, config.retention).Some?
      ensures r.Err? ==> tables == ensured
      ensures r.Ok? ==> IsListing(names, ensured) && tables == Kept(ensured, ExpiredAt(Cutoff(now, config.retention).value))
      ensures r.Ok? ==> HasWindow(ensured, now, config.ahead)
      ensures r.Ok? ==> IsNew(r.value.created, old(tables), ensured)
      ensures r.Ok? ==> r.value.dropped.rows == Rows(names, ensured) - Rows(names, tables)
      ensures r.Ok? ==> forall n :: n in r.value.dropped.names <==> n in ensured && n !in tables
    {
      names := [];
      var created := EnsureFuturePartitions(now, config);
      ensured := tables;
      if created.Err? {
        return Err(created.error), ensured, names;
      }
      var dropped;
      dropped, names := DropExpiredPartitions(now, config);
      if dropped.Err? {
        return Err(dropped.error), ensured, names;
      }
      RowsAreConserved(names, ensured, ExpiredAt(Cutoff(now, config.retention).value));
      SelectIn(names, ExpiredAt(Cutoff(now, config.retention).value));
      r := Ok(CycleResult(created.value, dropped.value));
    }
  }

  // ── What a cycle keeps ────────────────────────────────────────────────────

  /** A month's partition is dropped exactly if the month is older than the last `retention` months counting the current one. */
  lemma DroppedIff(now: Month, retention: nat, m: Month)
    requires IsDate(now) && retention < 0x1_0000_0000 && Cutoff(now, retention).Some? && IsPartition(m)
    ensures Expired(Name(m), Cutoff(now, retention).value) <==> Index(m) < Index(now) + 1 - AsI32(retention)
  {
    NameRoundTrip(m);
    CutoffIndex(now, retention);
    BeforeIffIndex(m, Cutoff(now, retention).value);
  }

  /** A successful cycle leaves the whole ensured window standing exactly if the retention, as a signed 32-bit integer, is at least one. */
  lemma WindowSurvivesIff(now: Month, config: Config, ensured: Tables)
    requires IsDate(now) && IsConfig(config) && config.ahead >= 1 && WindowFits(now, config.ahead)
    requires Cutoff(now, config.retention).Some? && HasWindow(ensured, now, config.ahead)
    ensures HasWindow(Kept(ensured, ExpiredAt(Cutoff(now, config.retention).value)), now, config.ahead) <==> AsI32(config.retention) >= 1
  {
    var kept := Kept(ensured, ExpiredAt(Cutoff(now, config.retention).value));
    forall offset: nat | offset < config.ahead
      ensures WindowNames(now)(offset) in kept <==> AsI32(config.retention) >= 1 - offset
    {
      WindowFitsAll(now, config.ahead, offset);
      WindowTouches(now, offset);
      DroppedIff(now, config.retention, Ahead(now, offset));
    }
    assert WindowNames(now)(0) == Name(Ahead(now, 0));
  }

  /** So the largest unsigned retention, minus one as a signed integer, drops the current month's partition. */
  lemma HugeRetentionDropsCurrentMonth(now: Month)
    requires IsPartition(now) && IsPartition(NextMonth(now)) && now.year >= 0
    ensures Cutoff(now, 0xFFFF_FFFF).Some? && Expired(Name(now), Cutoff(now, 0xFFFF_FFFF).value)
  {
    CutoffExistsIff(now, 0xFFFF_FFFF);
    DroppedIff(now, 0xFFFF_FFFF, now);
  }
}
