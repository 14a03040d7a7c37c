/** Row locks of concurrent transactions: who waits for whom when every transaction asks for its
    rows in one fixed order, and why somebody can always go on. */
module RowLocks {
  import TextOrder

  datatype Table = Subjects | PropertyGrants | CommandGrants | Sessions | Tokens | TokenCeilings

  /** A row of one of the six tables: its subject, session or token, then its property, then its command. */
  datatype Row = Row(table: Table, id: string, property: string, command: string)

  datatype Mode = Share | Update

  datatype Lock = Lock(row: Row, mode: Mode)

  function Rank(c: Table): nat {
    match c
    case Subjects => 0
    case PropertyGrants => 1
    case CommandGrants => 2
    case Sessions => 3
    case Tokens => 4
    case TokenCeilings => 5
  }

  predicate RowBefore(a: Row, b: Row) {
    if a.table != b.table then Rank(a.table) < Rank(b.table)
    else if a.id != b.id then TextOrder.Less(a.id, b.id)
    else if a.property != b.property then TextOrder.Less(a.property, b.property)
    else TextOrder.Less(a.command, b.command)
  }

  predicate Ascending(locks: seq<Lock>) {
    forall i, j :: 0 <= i < j < |locks| ==> RowBefore(locks[i].row, locks[j].row)
  }

  lemma RowOrder(a: Row, b: Row, c: Row)
    ensures !RowBefore(a, a)
    ensures RowBefore(a, b) && RowBefore(b, c) ==> RowBefore(a, c)
    ensures a == b || RowBefore(a, b) || RowBefore(b, a)
  {
    TextOrder.Irreflexive(a.command);
    TextOrder.Total(a.id, b.id);
    TextOrder.Total(a.property, b.property);
    TextOrder.Total(a.command, b.command);
    NoLoop(a.id, b.id);
    NoLoop(a.property, b.property);
    Chained(a.id, b.id, c.id);
    Chained(a.property, b.property, c.property);
    Chained(a.command, b.command, c.command);
  }

  lemma NoLoop(a: string, b: string)
    ensures !(TextOrder.Less(a, b) && TextOrder.Less(b, a))
  {
    TextOrder.Irreflexive(a);
    if TextOrder.Less(a, b) && TextOrder.Less(b, a) { TextOrder.Transitive(a, b, a); }
  }

  lemma Chained(a: string, b: string, c: string)
    ensures TextOrder.Less(a, b) && TextOrder.Less(b, c) ==> TextOrder.Less(a, c) && a != c
  {
    TextOrder.Irreflexive(a);
    if TextOrder.Less(a, b) && TextOrder.Less(b, c) { TextOrder.Transitive(a, b, c); }
  }

  // ---- transactions ----

  /** A transaction with the locks it asks for in order, how many it has, and the place it took in
      the queue for the next one. */
  datatype Txn = Txn(plan: seq<Lock>, taken: nat, ticket: nat, ended: bool)

  type System = seq<Txn>

  predicate Conflict(a: Mode, b: Mode) {
    a == Update || b == Update
  }

  predicate Wanting(t: Txn) {
    !t.ended && t.taken < |t.plan|
  }

  function Next(t: Txn): Lock
    requires Wanting(t)
  {
    t.plan[t.taken]
  }

  predicate Holds(t: Txn, l: Lock) {
    !t.ended && t.taken <= |t.plan| && l in t.plan[..t.taken]
  }

  predicate HeldAgainst(t: Txn, l: Lock) {
    exists m :: Conflict(l.mode, m) && Holds(t, Lock(l.row, m))
  }

  /** i waits for j: j holds the row that i asks for, or asked for the same row earlier. */
  predicate WaitsFor(s: System, i: nat, j: nat) {
    && i < |s| && j < |s| && i != j && Wanting(s[i])
    && (|| HeldAgainst(s[j], Next(s[i]))
        || (&& Wanting(s[j]) && Next(s[j]).row == Next(s[i]).row && Conflict(Next(s[i]).mode, Next(s[j]).mode)
            && s[j].ticket < s[i].ticket))
  }

  predicate Sound(s: System) {
    forall i :: 0 <= i < |s| ==> s[i].taken <= |s[i].plan| && Ascending(s[i].plan)
  }

  /** No two transactions hold the same row in conflicting modes. */
  ghost predicate Exclusive(s: System) {
    forall i, j, a, b ::
      0 <= i < |s| && 0 <= j < |s| && i != j && Holds(s[i], a) && Holds(s[j], b) && a.row == b.row ==>
        !Conflict(a.mode, b.mode)
  }

  datatype Action = Begin(plan: seq<Lock>, ticket: nat) | Take(i: nat, ticket: nat) | End(i: nat)

  /** A transaction may begin with any ascending plan, take its next lock when it waits for nobody,
      and end at any moment: committed, denied or rolled back. */
  predicate Enabled(s: System, a: Action) {
    match a
    case Begin(plan, _) => Ascending(plan)
    case Take(i, _) => i < |s| && Wanting(s[i]) && forall j :: 0 <= j < |s| ==> !WaitsFor(s, i, j)
    case End(i) => i < |s| && !s[i].ended
  }

  function After(s: System, a: Action): System
    requires Enabled(s, a)
  {
    match a
    case Begin(plan, ticket) => s + [Txn(plan, 0, ticket, false)]
    case Take(i, ticket) => s[i := s[i].(taken := s[i].taken + 1, ticket := ticket)]
    case End(i) => s[i := s[i].(ended := true)]
  }

  /** Every action was enabled when it was made, and they lead from s to last. */
  predicate Leads(s: System, actions: seq<Action>, last: System)
    decreases |actions|
  {
    if actions == [] then last == s
    else Enabled(s, actions[0]) && Leads(After(s, actions[0]), actions[1..], last)
  }

  // ---- what every run keeps ----

  /** The k-th lock of one transaction and the m-th of another, both taken, are not on one row unless both
      share it. */
  predicate Compatible(a: Txn, b: Txn, k: nat, m: nat) {
    !a.ended && !b.ended && k < a.taken && m < b.taken && a.taken <= |a.plan| && b.taken <= |b.plan| ==>
      a.plan[k].row != b.plan[m].row || (a.plan[k].mode == Share && b.plan[m].mode == Share)
  }

  /** Exclusion, over the locks that transactions under way have taken so far. */
  lemma ExclusiveMeans(s: System)
    ensures Exclusive(s) <==>
            forall i, j, k, m :: 0 <= i < |s| && 0 <= j < |s| && i != j ==> Compatible(s[i], s[j], k, m)
  {
    if Exclusive(s) {
      forall i, j, k: nat, m: nat | 0 <= i < |s| && 0 <= j < |s| && i != j ensures Compatible(s[i], s[j], k, m) {
        if k < s[i].taken <= |s[i].plan| && m < s[j].taken <= |s[j].plan| && !s[i].ended && !s[j].ended {
          assert s[i].plan[..s[i].taken][k] == s[i].plan[k] && s[j].plan[..s[j].taken][m] == s[j].plan[m];
          assert Holds(s[i], s[i].plan[k]) && Holds(s[j], s[j].plan[m]);
        }
      }
    }
    if forall i, j, k, m :: 0 <= i < |s| && 0 <= j < |s| && i != j ==> Compatible(s[i], s[j], k, m) {
      forall i, j, a, b |
        0 <= i < |s| && 0 <= j < |s| && i != j && Holds(s[i], a) && Holds(s[j], b) && a.row == b.row
        ensures !Conflict(a.mode, b.mode)
      {
        var k :| 0 <= k < s[i].taken && s[i].plan[k] == a;
        var m :| 0 <= m < s[j].taken && s[j].plan[m] == b;
        assert Compatible(s[i], s[j], k, m);
      }
    }
  }

  /** A row locked for update is held by nobody else; shares wait only for updates; and whoever asks for a
      row that another holds waits, unless both share it. */
  lemma LocksExclude(s: System, i: nat, j: nat, r: Row)
    requires i < |s| && j < |s| && i != j
    ensures Exclusive(s) && Holds(s[i], Lock(r, Update)) ==>
              !Holds(s[j], Lock(r, Update)) && !Holds(s[j], Lock(r, Share))
    ensures Wanting(s[i]) && Next(s[i]) == Lock(r, Share) && WaitsFor(s, i, j) ==>
              Holds(s[j], Lock(r, Update)) || (Wanting(s[j]) && Next(s[j]) == Lock(r, Update))
    ensures Wanting(s[i]) && Next(s[i]).row == r && Holds(s[j], Lock(r, Update)) ==> WaitsFor(s, i, j)
    ensures Wanting(s[i]) && Next(s[i]) == Lock(r, Update) && Holds(s[j], Lock(r, Share)) ==> WaitsFor(s, i, j)
  {
    if Wanting(s[i]) && Next(s[i]).row == r {
      if Holds(s[j], Lock(r, Update)) { assert Conflict(Next(s[i]).mode, Update); }
      if Holds(s[j], Lock(r, Share)) && Next(s[i]).mode == Update { assert Conflict(Update, Share); }
    }
  }

  lemma {:induction false} RunsAreSound(s: System, actions: seq<Action>, last: System)
    requires Sound(s) && Exclusive(s) && Leads(s, actions, last)
    ensures Sound(last) && Exclusive(last)
    decreases |actions|
  {
    if actions != [] {
      ActionKeepsExclusion(s, actions[0]);
      RunsAreSound(After(s, actions[0]), actions[1..], last);
    }
  }

  lemma ActionKeepsExclusion(s: System, a: Action)
    requires Sound(s) && Exclusive(s) && Enabled(s, a)
    ensures Sound(After(s, a)) && Exclusive(After(s, a))
  {
    var t := After(s, a);
    forall i, j, x, y | 0 <= i < |t| && 0 <= j < |t| && i != j && Holds(t[i], x) && Holds(t[j], y) && x.row == y.row
      ensures !Conflict(x.mode, y.mode)
    {
      HeldBeforeOrTaken(s, a, i, x);
      HeldBeforeOrTaken(s, a, j, y);
    }
  }

  lemma HeldBeforeOrTaken(s: System, a: Action, i: nat, l: Lock)
    requires Sound(s) && Enabled(s, a) && i < |After(s, a)| && Holds(After(s, a)[i], l)
    ensures i < |s|
    ensures Holds(s[i], l) || (a.Take? && a.i == i && l == Next(s[i])
                               && forall j :: 0 <= j < |s| && j != i ==> !HeldAgainst(s[j], l))
  {
    if a.Take? && a.i == i {
      assert s[i].plan[..s[i].taken + 1] == s[i].plan[..s[i].taken] + [Next(s[i])];
      forall j | 0 <= j < |s| && j != i ensures !HeldAgainst(s[j], Next(s[i])) {
        assert !WaitsFor(s, i, j);
      }
    }
  }

  // ---- no deadlock ----

  /** Along a wait the rows asked for rise, or stay the same and the ticket falls. */
  predicate Ahead(s: System, i: nat, j: nat)
    requires i < |s| && j < |s| && Wanting(s[i]) && Wanting(s[j])
  {
    || RowBefore(Next(s[i]).row, Next(s[j]).row)
    || (Next(s[i]).row == Next(s[j]).row && s[j].ticket < s[i].ticket)
  }

  lemma WaitsAreAhead(s: System, i: nat, j: nat)
    requires Sound(s) && WaitsFor(s, i, j) && Wanting(s[j])
    ensures Ahead(s, i, j)
  {
    if HeldAgainst(s[j], Next(s[i])) {
      var m :| Conflict(Next(s[i]).mode, m) && Holds(s[j], Lock(Next(s[i]).row, m));
      var k :| 0 <= k < s[j].taken && s[j].plan[k] == Lock(Next(s[i]).row, m);
    }
  }

  lemma AheadIsOrder(s: System, i: nat, j: nat, k: nat)
    requires i < |s| && j < |s| && k < |s| && Wanting(s[i]) && Wanting(s[j]) && Wanting(s[k])
    ensures !Ahead(s, i, i)
    ensures Ahead(s, i, j) && Ahead(s, j, k) ==> Ahead(s, i, k)
  {
    RowOrder(Next(s[i]).row, Next(s[j]).row, Next(s[k]).row);
  }

  /** Each transaction on the path waits for the one after it. */
  predicate WaitPath(s: System, path: seq<nat>) {
    forall k :: 0 < k < |path| ==> WaitsFor(s, path[k - 1], path[k])
  }

  lemma {:induction false} PathsLeadAhead(s: System, path: seq<nat>)
    requires Sound(s) && WaitPath(s, path) && |path| > 1 && path[|path| - 1] < |s| && Wanting(s[path[|path| - 1]])
    ensures path[0] < |s| && Wanting(s[path[0]]) && Ahead(s, path[0], path[|path| - 1])
    decreases |path|
  {
    var n := |path| - 1;
    assert WaitsFor(s, path[n - 1], path[n]);
    WaitsAreAhead(s, path[n - 1], path[n]);
    if n > 1 {
      PathsLeadAhead(s, path[..n]);
      AheadIsOrder(s, path[0], path[n - 1], path[n]);
    }
  }

  /** The wait-for graph has no cycle. */
  lemma NoCycle(s: System, path: seq<nat>)
    requires Sound(s) && WaitPath(s, path) && |path| > 1
    ensures path[0] != path[|path| - 1]
  {
    assert WaitsFor(s, path[0], path[1]);
    if path[0] == path[|path| - 1] {
      PathsLeadAhead(s, path);
      AheadIsOrder(s, path[0], path[0], path[0]);
    }
  }

  /** Among the first n transactions, one that asks and is ahead of all others that ask. */
  lemma {:induction false} Foremost(s: System, n: nat) returns (m: nat)
    requires n <= |s| && exists i :: 0 <= i < n && Wanting(s[i])
    ensures m < n && Wanting(s[m])
    ensures forall i :: 0 <= i < n && Wanting(s[i]) ==> !Ahead(s, m, i)
  {
    if !exists i :: 0 <= i < n - 1 && Wanting(s[i]) {
      m := n - 1;
      AheadIsOrder(s, m, m, m);
    } else {
      m := Foremost(s, n - 1);
      if Wanting(s[n - 1]) {
        AheadIsOrder(s, n - 1, n - 1, n - 1);
        if Ahead(s, m, n - 1) {
          forall i | 0 <= i < n - 1 && Wanting(s[i]) ensures !Ahead(s, n - 1, i) {
            AheadIsOrder(s, m, n - 1, i);
          }
          m := n - 1;
        }
      }
    }
  }

  /** Whenever a transaction is unfinished, one that has all its locks can end, or one can take its next lock. */
  lemma SomeoneProceeds(s: System) returns (i: nat)
    requires Sound(s) && exists k :: 0 <= k < |s| && !s[k].ended
    ensures i < |s| && !s[i].ended
    ensures s[i].taken == |s[i].plan| || forall ticket :: Enabled(s, Take(i, ticket))
  {
    if k :| 0 <= k < |s| && !s[k].ended && s[k].taken == |s[k].plan| {
      i := k;
    } else {
      i := Foremost(s, |s|);
      forall j | 0 <= j < |s| ensures !WaitsFor(s, i, j) {
        if WaitsFor(s, i, j) && Wanting(s[j]) { WaitsAreAhead(s, i, j); }
      }
    }
  }

  /** Ended transactions stay as they are; the others end with every lock they asked for. */
  predicate RunOut(s: System, last: System) {
    |last| == |s| && forall i :: 0 <= i < |s| ==>
      last[i] == if s[i].ended then s[i] else Txn(s[i].plan, |s[i].plan|, last[i].ticket, true)
  }

  /** Every reachable state can run to the end of all its transactions without rolling any back. */
  lemma {:induction false} AllCanEnd(s: System) returns (actions: seq<Action>, last: System)
    requires Sound(s)
    ensures Leads(s, actions, last) && RunOut(s, last)
    decreases Unfinished(s)
  {
    if exists k :: 0 <= k < |s| && !s[k].ended {
      var i := SomeoneProceeds(s);
      var a := if s[i].taken == |s[i].plan| then End(i) else Take(i, 0);
      UnfinishedFalls(s, i);
      var rest;
      rest, last := AllCanEnd(After(s, a));
      actions := [a] + rest;
      assert actions[1..] == rest;
    } else {
      actions, last := [], s;
    }
  }

  function Left(t: Txn): nat {
    if t.ended || t.taken > |t.plan| then 0 else |t.plan| - t.taken + 1
  }

  function Unfinished(s: System): nat {
    if s == [] then 0 else Left(s[0]) + Unfinished(s[1..])
  }

  lemma {:induction false} UnfinishedChanges(s: System, i: nat, t: Txn)
    requires i < |s|
    ensures Unfinished(s[i := t]) == Unfinished(s) - Left(s[i]) + Left(t)
  {
    if i == 0 {
      assert s[i := t][1..] == s[1..];
    } else {
      UnfinishedChanges(s[1..], i - 1, t);
      assert s[i := t][1..] == s[1..][i - 1 := t];
    }
  }

  lemma UnfinishedFalls(s: System, i: nat)
    requires i < |s| && !s[i].ended && s[i].taken <= |s[i].plan|
    ensures Unfinished(s[i := s[i].(ended := true)]) < Unfinished(s)
    ensures s[i].taken < |s[i].plan| ==> Unfinished(s[i := s[i].(taken := s[i].taken + 1, ticket := 0)]) < Unfinished(s)
  {
    UnfinishedChanges(s, i, s[i].(ended := true));
    UnfinishedChanges(s, i, s[i].(taken := s[i].taken + 1, ticket := 0));
  }
}
