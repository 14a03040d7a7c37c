/** Whole runs of confirming transactions: where a match comes from, how its amount may come to differ
    from its bill's, and when a confirmation can still be refused. */
module PaymentRuns {
  import opened Releases
  import opened Payments

  /** The world after the steps, as far as they are enabled. */
  function Play(w: World, steps: seq<Step>): World
    decreases |steps|
  {
    if steps == [] || !Enabled(w, steps[0]) then w else Play(After(w, steps[0]), steps[1..])
  }

  // ---- the amount of a matched payment ----

  /** The amount that the last synchronization of the bill set, if there was one. */
  function LastSync(steps: seq<Step>, b: BillId): Option<Option<nat>> {
    if steps == [] then None
    else
      var rest := LastSync(steps[1..], b);
      if rest.Some? then rest
      else if steps[0].Sync? && steps[0].bill == b then Some(steps[0].now.amount) else None
  }

  /** The last synchronization of the bill set another amount. */
  predicate Resynchronized(steps: seq<Step>, b: BillId, amount: nat) {
    LastSync(steps, b).Some? && LastSync(steps, b).value != Some(amount)
  }

  lemma {:induction false} AmountFollowsLastSync(w: World, steps: seq<Step>, last: World, b: BillId)
    requires Leads(w, steps, last) && b in w.bills
    ensures b in last.bills
    ensures last.bills[b].amount == if LastSync(steps, b).Some? then LastSync(steps, b).value else w.bills[b].amount
    decreases |steps|
  {
    if steps != [] {
      AmountFollowsLastSync(After(w, steps[0]), steps[1..], last, b);
    }
  }

  lemma {:induction false} FactsStay(w: World, steps: seq<Step>, last: World, f: FactId)
    requires Leads(w, steps, last) && f in w.facts
    ensures f in last.facts && last.facts[f] == w.facts[f]
    decreases |steps|
  {
    if steps != [] {
      FactsStay(After(w, steps[0]), steps[1..], last, f);
    }
  }

  /** This step makes the match of the bill: a confirmation commits it, or synchronization links it. */
  predicate Makes(w: World, s: Step, b: BillId, f: FactId) {
    && Enabled(w, s) && b !in w.matches && b in After(w, s).matches && After(w, s).matches[b] == f
    && match s
       case Commit(i) => b in w.txns[i].inserted && w.txns[i].inserted[b] == f
       case Link(x, _) => x == b
       case _ => false
  }

  /** Every match of a run goes back to one commit or link, at which the fact had exactly the bill's amount
      and the bill was not under review; the amounts differ at the end exactly when the last
      synchronization of the bill after that step set another amount. */
  lemma {:induction false} MatchOrigin(w: World, steps: seq<Step>, last: World, b: BillId) returns (k: nat)
    requires Sound(w) && Leads(w, steps, last) && b in last.matches && b !in w.matches
    ensures k < |steps| && Makes(Play(w, steps[..k]), steps[k], b, last.matches[b])
    ensures b in Play(w, steps[..k]).bills && last.matches[b] in Play(w, steps[..k]).facts
    ensures Exact(Play(w, steps[..k]).bills[b], Play(w, steps[..k]).facts[last.matches[b]])
    ensures b in last.bills && last.matches[b] in last.facts
    ensures last.bills[b].amount != Some(last.facts[last.matches[b]].amount) <==>
              Resynchronized(steps[k + 1..], b, last.facts[last.matches[b]].amount)
    decreases |steps|
  {
    var next := After(w, steps[0]);
    StepKeeps(w, steps[0]);
    RunsKeep(next, steps[1..], last);
    if b in next.matches {
      k := 0;
      assert steps[..0] == [] && Play(w, []) == w;
      FirstMatch(w, steps, last, b);
    } else {
      k := MatchOrigin(next, steps[1..], last, b);
      assert steps[1..][..k] == steps[..k + 1][1..];
      assert steps[1..][k + 1..] == steps[k + 2..];
      assert Play(w, steps[..k + 1]) == Play(next, steps[1..][..k]);
      k := k + 1;
    }
  }

  lemma FirstMatch(w: World, steps: seq<Step>, last: World, b: BillId)
    requires Sound(w) && Leads(w, steps, last) && steps != []
    requires b !in w.matches && b in After(w, steps[0]).matches
    requires b in last.matches && last.matches[b] == After(w, steps[0]).matches[b]
    ensures Makes(w, steps[0], b, last.matches[b])
    ensures b in w.bills && last.matches[b] in w.facts && Exact(w.bills[b], w.facts[last.matches[b]])
    ensures b in last.bills && last.matches[b] in last.facts
    ensures last.bills[b].amount != Some(last.facts[last.matches[b]].amount) <==>
              Resynchronized(steps[1..], b, last.facts[last.matches[b]].amount)
  {
    var next, f := After(w, steps[0]), last.matches[b];
    MadeExactly(w, steps[0], b);
    AmountFollowsLastSync(next, steps[1..], last, b);
    FactsStay(next, steps[1..], last, f);
  }

  lemma MadeExactly(w: World, s: Step, b: BillId)
    requires Sound(w) && Enabled(w, s) && b !in w.matches && b in After(w, s).matches
    ensures Makes(w, s, b, After(w, s).matches[b])
    ensures b in w.bills && After(w, s).matches[b] in w.facts && Exact(w.bills[b], w.facts[After(w, s).matches[b]])
    ensures After(w, s).bills[b] == w.bills[b] && After(w, s).facts == w.facts
  {
    if s.Commit? {
      CommitKeeps(w, s.i);
      assert Fair(w, w.txns[s.i]);
    } else {
      assert s.Link?;
      LinkKeeps(w, s.bill, s.fact);
    }
  }

  /** However the transactions interleave, no fact settles two bills, and every matched fact has its
      bill's kind and reference, and its amount unless synchronization changed it afterwards. */
  lemma EveryMatchIsRight(steps: seq<Step>, last: World)
    requires Leads(World(map[], map[], map[], {}, []), steps, last)
    ensures forall a, b :: a in last.matches && b in last.matches && a != b ==> last.matches[a] != last.matches[b]
    ensures forall b :: b in last.matches ==>
              && b in last.bills && last.matches[b] in last.facts
              && var bill, fact := last.bills[b], last.facts[last.matches[b]];
              && fact.property == bill.property && fact.kind == bill.kind && fact.reference == bill.reference
              && (bill.amount == Some(fact.amount) || bill.needsReview)
  {
    RunsKeep(World(map[], map[], map[], {}, []), steps, last);
  }

  // ---- when a confirmation can still be refused ----

  /** The steps are those of others. */
  predicate Spares(steps: seq<Step>, i: nat) {
    forall n :: 0 <= n < |steps| ==> OfOthers(steps[n], i)
  }

  predicate OfOthers(s: Step, i: nat) {
    match s
    case Sync(_, _) => true
    case Link(_, _) => true
    case Record(_) => true
    case Begin(_, _) => true
    case AskLocks(j) => j != i
    case GetLocks(j) => j != i
    case Read(j, _) => j != i
    case Bind(j, _) => j != i
    case Commit(j) => j != i
    case Abort(j) => j != i
  }

  /** After some steps of others the transaction cannot insert its match any more. */
  ghost predicate Refusable(w: World, i: nat, f: FactId) {
    exists steps, last :: Leads(w, steps, last) && Spares(steps, i) && RefusesBind(last, i, f)
  }

  predicate RefusesBind(w: World, i: nat, f: FactId) {
    Enabled(w, Bind(i, f)) && After(w, Bind(i, f)).txns[i].phase.Over?
  }

  lemma {:induction false} OthersLeaveAlone(w: World, steps: seq<Step>, last: World, i: nat)
    requires Leads(w, steps, last) && Spares(steps, i) && i < |w.txns|
    ensures i < |last.txns| && last.txns[i] == w.txns[i]
    decreases |steps|
  {
    if steps != [] {
      OthersLeaveAlone(After(w, steps[0]), steps[1..], last, i);
    }
  }

  /** Once a confirmation has judged its bill and its command has recorded the one fact that fits, no
      step of others can make the match fail, exactly when its lock had found the bill. */
  lemma RefusableExactlyWhenUnlocked(w: World, i: nat, f: FactId)
    requires Sound(w) && PhaseOf(w, i).Judged? && !w.txns[i].phase.alreadyMatched && Candidates(w.txns[i]) == {f}
    ensures Refusable(w, i, f) <==> w.txns[i].locks == {}
  {
    if w.txns[i].locks == {} {
      var steps, last := Interference(w, i, f);
    } else {
      forall steps, last | Leads(w, steps, last) && Spares(steps, i) ensures !RefusesBind(last, i, f) {
        OthersLeaveAlone(w, steps, last, i);
        RunsKeep(w, steps, last);
        LockedBindSucceeds(last, i, f);
      }
    }
  }

  /** Whoever holds the bill gives up, and synchronization puts the bill under review. */
  lemma Interference(w: World, i: nat, f: FactId) returns (steps: seq<Step>, last: World)
    requires Sound(w) && PhaseOf(w, i).Judged? && !w.txns[i].phase.alreadyMatched && Candidates(w.txns[i]) == {f}
    requires w.txns[i].locks == {}
    ensures Leads(w, steps, last) && Spares(steps, i) && RefusesBind(last, i, f)
  {
    var b := w.txns[i].phase.bill;
    assert Fair(w, w.txns[i]);
    var freed := w;
    steps := [];
    if j :| 0 <= j < |w.txns| && b in w.txns[j].locks {
      assert Fair(w, w.txns[j]);
      freed, steps := After(w, Abort(j)), [Abort(j)];
      assert Leads(w, steps, freed);
      HoldsApart(w, j);
    }
    var review := Sync(b, freed.bills[b].(needsReview := true));
    assert FreeFor(freed, |freed.txns|, {b});
    last := After(freed, review);
    assert Leads(freed, [review], last);
    LeadsOn(w, steps, freed, [review], last);
    steps := steps + [review];
    assert FreeFor(last, i, {b});
  }

  // ---- a bill that arrives between the lock and the read ----

  const LATE := Payment("p", Collection, "r", 1, None, {})
  const BILL := Bill("p", Collection, "r", Some(1), true, false, false, None)
  const EMPTY := World(map[], map[], map[], {}, [])

  function Own(f: FactId): map<FactId, Fact> {
    map[f := Fact("p", false, Collection, "r", 1, None)]
  }

  function Started(): seq<Step> {
    [Begin(LATE, Own("f")), Begin(LATE, Own("g")), AskLocks(0), GetLocks(0), AskLocks(1), GetLocks(1)]
  }

  function Judging(): seq<Step> {
    [Sync("b", BILL), Read(0, "b"), Read(1, "b")]
  }

  function Winning(): seq<Step> {
    [Bind(0, "f"), Commit(0)]
  }

  function Pair(t: Phase, u: Phase): seq<Txn> {
    [Txn(LATE, Own("f"), t, {}, map[]), Txn(LATE, Own("g"), u, {}, map[])]
  }

  lemma {:induction false} LeadsOn(w: World, first: seq<Step>, mid: World, second: seq<Step>, last: World)
    requires Leads(w, first, mid) && Leads(mid, second, last)
    ensures Leads(w, first + second, last)
    decreases |first|
  {
    if first == [] {
      assert first + second == second;
    } else {
      LeadsOn(After(w, first[0]), first[1..], mid, second, last);
      assert (first + second)[1..] == first[1..] + second;
    }
  }

  lemma LateStart() returns (w: World)
    ensures w == World(map[], Own("f") + Own("g"), map[], {}, Pair(Locked, Locked)) && Leads(EMPTY, Started(), w)
  {
    w := World(map[], Own("f") + Own("g"), map[], {}, Pair(Locked, Locked));
    var s := Started();
    var w2 := After(After(EMPTY, s[0]), s[1]);
    assert w2 == World(map[], Own("f") + Own("g"), map[], {}, Pair(Idle, Idle));
    assert Rows(w2, LATE) == {};
    var w3 := After(w2, s[2]);
    assert w3.txns == Pair(Waiting({}), Idle);
    var w4 := After(w3, s[3]);
    assert w4.txns == Pair(Locked, Idle);
    var w5 := After(w4, s[4]);
    assert w5.txns == Pair(Locked, Waiting({}));
    assert After(w5, s[5]) == w;
  }

  lemma LateRead(w: World) returns (now: World)
    requires w == World(map[], Own("f") + Own("g"), map[], {}, Pair(Locked, Locked))
    ensures now == World(map["b" := BILL], w.facts, map[], {}, Pair(Judged("b", false), Judged("b", false)))
    ensures Leads(w, Judging(), now)
  {
    var s := Judging();
    var w1 := After(w, s[0]);
    assert w1.bills == map["b" := BILL] && Rows(w1, LATE) == {"b"};
    var w2 := After(w1, s[1]);
    assert w2.txns == Pair(Judged("b", false), Locked);
    now := After(w2, s[2]);
    assert now.txns == Pair(Judged("b", false), Judged("b", false));
  }

  lemma LateWin(w: World) returns (now: World)
    requires w == World(map["b" := BILL], Own("f") + Own("g"), map[], {}, Pair(Judged("b", false), Judged("b", false)))
    ensures now == World(w.bills, w.facts, map["b" := "f"], {"f"}, Pair(Over, Judged("b", false)))
    ensures Leads(w, Winning(), now)
  {
    var s := Winning();
    assert Candidates(w.txns[0]) == {"f"};
    var w1 := After(w, s[0]);
    assert w1.txns[0].inserted == map["b" := "f"];
    now := After(w1, s[1]);
    assert now.matches == map["b" := "f"];
    assert now.txns == Pair(Over, Judged("b", false));
  }

  /** Without a bill to lock, two confirmations can both judge the bill that comes later; only the
      uniqueness of the match stops the second. */
  lemma LateBillIsJudgedTwice() returns (w: World)
    ensures Leads(EMPTY, Started() + Judging() + Winning(), w) && w.matches == map["b" := "f"]
    ensures w.bills == map["b" := BILL] && w.facts == Own("f") + Own("g") && |w.txns| == 2 && w.txns[0].locks == {}
    ensures PhaseOf(w, 1) == Judged("b", false) && w.txns[1].locks == {} && Candidates(w.txns[1]) == {"g"}
    ensures Enabled(w, Bind(1, "g")) && After(w, Bind(1, "g")).txns[1].phase.Over?
  {
    var a := LateStart();
    var b := LateRead(a);
    w := LateWin(b);
    LeadsOn(EMPTY, Started(), a, Judging(), b);
    LeadsOn(EMPTY, Started() + Judging(), b, Winning(), w);
    assert Candidates(w.txns[1]) == {"g"};
  }

  /** The last synchronization of a matched bill sets another amount. */
  lemma AmountChangesAfterMatch() returns (steps: seq<Step>, last: World)
    ensures Leads(EMPTY, steps, last) && last.matches == map["b" := "f"]
    ensures "f" in last.facts && "b" in last.bills
    ensures last.facts["f"].amount == 1 && last.bills["b"].amount == Some(2) && last.bills["b"].needsReview
  {
    var w := LateBillIsJudgedTwice();
    var change := Sync("b", BILL.(amount := Some(2), needsReview := true));
    var won := Started() + Judging() + Winning();
    last := After(w, change);
    assert Leads(w, [change], last);
    LeadsOn(EMPTY, won, w, [change], last);
    steps := won + [change];
  }
}
