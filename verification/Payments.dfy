/** Matching bills of the payment provider to recorded payments, while any number of confirming
    transactions and the synchronization of bills interleave. */
module Payments {
  import opened Releases

  type BillId = string
  type FactId = string

  datatype Kind = Collection | Refund

  datatype Bill = Bill(
    property: string, kind: Kind, reference: string, amount: Option<nat>, success: bool,
    needsReview: bool, historical: bool, transactionId: Option<string>)

  /** A recorded payment; a refund also names the transaction that it refunds, and may have no number. */
  datatype Fact = Fact(
    property: string, membership: bool, kind: Kind, reference: string, amount: nat, original: Option<string>)

  /** The payment a command names: a refund also names the transaction it refunds, a correction the
      facts of the chain that it corrects. */
  datatype Payment = Payment(
    property: string, kind: Kind, reference: string, amount: nat, refundOf: Option<string>, corrects: set<FactId>)

  // Waiting holds the rows that the locking statement saw when it began.
  datatype Phase =
    | Idle
    | Waiting(rows: set<BillId>)
    | Locked
    | Judged(bill: BillId, alreadyMatched: bool)
    | Bound
    | Over

  /** A confirming transaction: its command's facts, its locks and the match it has inserted. */
  datatype Txn = Txn(
    payment: Payment, facts: map<FactId, Fact>, phase: Phase, locks: set<BillId>, inserted: map<BillId, FactId>)

  // The facts of transactions under way are in `facts`, but not yet in `recorded`.
  datatype World = World(
    bills: map<BillId, Bill>, facts: map<FactId, Fact>, matches: map<BillId, FactId>, recorded: set<FactId>,
    txns: seq<Txn>)

  predicate Names(p: Payment, b: Bill) {
    b.property == p.property && b.kind == p.kind && b.reference == p.reference
  }

  function Rows(w: World, p: Payment): set<BillId> {
    set b | b in w.bills && Names(p, w.bills[b])
  }

  predicate FreeFor(w: World, i: nat, rows: set<BillId>) {
    forall j :: 0 <= j < |w.txns| && j != i ==> w.txns[j].locks !! rows
  }

  /** The match of a bill that the transaction sees: a committed one, or its own. */
  function Seen(w: World, t: Txn, b: BillId): Option<FactId> {
    if b in w.matches then Some(w.matches[b]) else if b in t.inserted then Some(t.inserted[b]) else None
  }

  /** The bill may stand for the payment: fresh, or already matched within the chain being corrected. */
  predicate Suits(p: Payment, bill: Bill, matched: Option<FactId>) {
    var sameCorrection := matched.Some? && matched.value in p.corrects;
    && (matched.None? || sameCorrection)
    && bill.success && !bill.needsReview && bill.amount == Some(p.amount)
    && (bill.historical ==> sameCorrection)
    && (p.refundOf.Some? ==> bill.transactionId == p.refundOf)
  }

  predicate FactFits(p: Payment, f: Fact) {
    f.amount == p.amount && f.reference == p.reference && f.kind == p.kind && (f.membership ==> p.kind == Collection)
  }

  /** The fact is of the bill: its property, kind, reference and amount, and for a refund its original. */
  predicate IsOf(b: Bill, f: Fact) {
    && f.property == b.property && f.kind == b.kind && f.reference == b.reference && b.amount == Some(f.amount)
    && (f.membership ==> b.kind == Collection)
    && (b.kind == Refund ==> b.transactionId.Some? && f.original == b.transactionId)
  }

  /** What the database asks of a match when it is inserted. */
  predicate Guard(b: Bill, f: Fact) {
    b.success && !b.needsReview && IsOf(b, f)
  }

  /** A refund without a number that could be the bill's. */
  predicate Unnumbered(b: Bill, f: Fact) {
    && b.kind == Refund && f.kind == Refund && !f.membership && f.property == b.property && f.reference == ""
    && b.amount == Some(f.amount) && b.transactionId.Some? && f.original == b.transactionId
  }

  /** A command writes facts of its own property, and refunds of the transaction that it names. */
  predicate Proper(p: Payment, facts: map<FactId, Fact>) {
    && (p.kind == Refund <==> p.refundOf.Some?)
    && forall f :: f in facts ==>
         facts[f].property == p.property && (facts[f].kind == Refund ==> facts[f].original == p.refundOf)
  }

  datatype Step =
    | Sync(bill: BillId, now: Bill)
    | Link(bill: BillId, fact: FactId)
    | Record(facts: map<FactId, Fact>)
    | Begin(payment: Payment, facts: map<FactId, Fact>)
    | AskLocks(i: nat)
    | GetLocks(i: nat)
    | Read(i: nat, bill: BillId)
    | Bind(i: nat, fact: FactId)
    | Commit(i: nat)
    | Abort(i: nat)

  /** A bill keeps its name; an amount that changes puts it under review, and review is never lifted. */
  predicate MayBecome(was: Bill, now: Bill) {
    && now.property == was.property && now.kind == was.kind && now.reference == was.reference
    && (was.needsReview ==> now.needsReview)
    && (now.amount.None? ==> was.amount.None?)
    && (was.amount.Some? && now.amount != was.amount ==> now.needsReview)
  }

  /** The recorded facts that a bill may be linked to when it is synchronized. */
  function Historic(w: World, b: BillId): set<FactId>
    requires b in w.bills
  {
    set f | f in w.recorded && f in w.facts && IsOf(w.bills[b], w.facts[f])
  }

  function Reviewed(w: World, b: BillId): World
    requires b in w.bills
  {
    w.(bills := w.bills[b := w.bills[b].(needsReview := true)])
  }

  /** Synchronization links a bill to the one recorded fact that is of it; when the choice is not clear,
      or the fact has a bill already, the bill comes under review. */
  function AfterLink(w: World, b: BillId, f: FactId): World
    requires b in w.bills
  {
    var bill := w.bills[b];
    if b in w.matches || !bill.success || bill.amount.None? then w
    else if exists g :: g in w.recorded && g in w.facts && Unnumbered(bill, w.facts[g]) then Reviewed(w, b)
    else if Historic(w, b) == {} then w
    else if Historic(w, b) != {f} || f in w.matches.Values then Reviewed(w, b)
    else if bill.needsReview then w
    else w.(matches := w.matches[b := f])
  }

  function PhaseOf(w: World, i: nat): Phase {
    if i < |w.txns| then w.txns[i].phase else Over
  }

  predicate Enabled(w: World, s: Step) {
    match s
    case Sync(b, now) => b !in w.bills || (MayBecome(w.bills[b], now) && FreeFor(w, |w.txns|, {b}))
    case Link(b, f) =>
      b in w.bills && FreeFor(w, |w.txns|, {b}) && (Historic(w, b) == {f} || |Historic(w, b)| != 1)
    case Record(facts) => facts.Keys !! w.facts.Keys
    case Begin(payment, facts) => facts.Keys !! w.facts.Keys && Proper(payment, facts)
    case AskLocks(i) => PhaseOf(w, i).Idle?
    case GetLocks(i) => PhaseOf(w, i).Waiting? && FreeFor(w, i, PhaseOf(w, i).rows)
    case Read(i, _) => PhaseOf(w, i).Locked?
    case Bind(i, _) => PhaseOf(w, i).Judged? && FreeFor(w, i, {PhaseOf(w, i).bill})
    case Commit(i) => PhaseOf(w, i).Bound?
    case Abort(i) => !PhaseOf(w, i).Over?
  }

  function RolledBack(t: Txn): Txn {
    t.(phase := Over, locks := {}, inserted := map[])
  }

  /** The fresh read: goes on with the bill when it is the only one of that name and suits. */
  function AfterRead(w: World, t: Txn, b: BillId): Txn {
    if Rows(w, t.payment) == {b} && Suits(t.payment, w.bills[b], Seen(w, t, b))
    then t.(phase := Judged(b, Seen(w, t, b).Some?))
    else RolledBack(t)
  }

  function Candidates(t: Txn): set<FactId> {
    set f | f in t.facts && FactFits(t.payment, t.facts[f])
  }

  /** Inserting the match: the fact must be the only one that fits, and the database checks the bill
      once more, under its lock, and that neither the bill nor the fact is matched yet. */
  function AfterBind(w: World, t: Txn, f: FactId): Txn
    requires t.phase.Judged?
  {
    var b := t.phase.bill;
    if t.phase.alreadyMatched then t.(phase := Bound)
    else if Candidates(t) != {f} || b !in w.bills || !Guard(w.bills[b], t.facts[f])
            || b in w.matches || f in w.matches.Values then RolledBack(t)
    else t.(phase := Bound, locks := t.locks + {b}, inserted := t.inserted[b := f])
  }

  function After(w: World, s: Step): World
    requires Enabled(w, s)
  {
    match s
    case Sync(b, now) => w.(bills := w.bills[b := now])
    case Link(b, f) => AfterLink(w, b, f)
    case Record(facts) => w.(facts := w.facts + facts, recorded := w.recorded + facts.Keys)
    case Begin(payment, facts) => w.(facts := w.facts + facts, txns := w.txns + [Txn(payment, facts, Idle, {}, map[])])
    case AskLocks(i) => Set(w, i, w.txns[i].(phase := Waiting(Rows(w, w.txns[i].payment))))
    case GetLocks(i) => Set(w, i, w.txns[i].(phase := Locked, locks := w.txns[i].phase.rows))
    case Read(i, b) => Set(w, i, AfterRead(w, w.txns[i], b))
    case Bind(i, f) => Set(w, i, AfterBind(w, w.txns[i], f))
    case Commit(i) =>
      var t := w.txns[i];
      Set(w, i, RolledBack(t)).(matches := w.matches + t.inserted, recorded := w.recorded + t.facts.Keys)
    case Abort(i) => Set(w, i, RolledBack(w.txns[i]))
  }

  function Set(w: World, i: nat, t: Txn): World
    requires i < |w.txns|
  {
    w.(txns := w.txns[i := t])
  }

  predicate Leads(w: World, steps: seq<Step>, last: World)
    decreases |steps|
  {
    if steps == [] then last == w else Enabled(w, steps[0]) && Leads(After(w, steps[0]), steps[1..], last)
  }

  // ---- what every run keeps ----

  /** The fact has the bill's property, kind and reference, and its amount unless the bill has come
      under review. */
  predicate Right(b: Bill, f: Fact) {
    && f.property == b.property && f.kind == b.kind && f.reference == b.reference
    && (b.amount == Some(f.amount) || b.needsReview)
  }

  ghost predicate MatchesRight(w: World, matches: map<BillId, FactId>) {
    forall b :: b in matches ==> b in w.bills && matches[b] in w.facts && Right(w.bills[b], w.facts[matches[b]])
  }

  predicate Injective(m: map<BillId, FactId>) {
    forall a, b :: a in m && b in m && a != b ==> m[a] != m[b]
  }

  /** What a transaction has and holds. */
  ghost predicate Fair(w: World, t: Txn) {
    && (t.phase.Idle? || t.phase.Waiting? || t.phase.Over? ==> t.locks == {})
    && (t.inserted != map[] ==> t.phase.Bound?)
    && (t.phase.Waiting? ==> t.phase.rows <= Rows(w, t.payment))
    && t.locks <= Rows(w, t.payment)
    && (t.phase.Judged? ==> t.phase.bill in Rows(w, t.payment))
    && (forall f :: f in t.facts ==> f in w.facts && w.facts[f] == t.facts[f])
    && (!t.phase.Over? ==> t.facts.Keys !! w.recorded) && Proper(t.payment, t.facts)
    && t.inserted.Keys <= t.locks && t.inserted.Keys !! w.matches.Keys && t.inserted.Values <= t.facts.Keys
    && Injective(t.inserted) && MatchesRight(w, t.inserted)
    && (forall b :: b in t.inserted ==> Exact(w.bills[b], w.facts[t.inserted[b]]))
  }

  /** The fact has the bill's amount, and the bill is not under review. */
  predicate Exact(b: Bill, f: Fact) {
    b.amount == Some(f.amount) && !b.needsReview
  }

  /** A transaction that judged a bill it holds locked would judge it the same now. */
  ghost predicate Current(w: World, t: Txn) {
    t.phase.Judged? && t.phase.bill in t.locks ==>
      && t.phase.bill in w.bills
      && Suits(t.payment, w.bills[t.phase.bill], Seen(w, t, t.phase.bill))
      && t.phase.alreadyMatched == Seen(w, t, t.phase.bill).Some?
  }

  /** The bill judged is locked unless the locking statement had found no bill at all. */
  ghost predicate LockedWhenFound(t: Txn) {
    t.phase.Judged? ==> (t.phase.bill in t.locks <==> t.locks != {})
  }

  ghost predicate Apart(w: World) {
    forall i, j :: 0 <= i < j < |w.txns| ==>
      w.txns[i].locks !! w.txns[j].locks
      && (!w.txns[i].phase.Over? && !w.txns[j].phase.Over? ==> w.txns[i].facts.Keys !! w.txns[j].facts.Keys)
  }

  ghost predicate Sound(w: World) {
    && MatchesRight(w, w.matches) && Injective(w.matches) && Apart(w)
    && w.recorded <= w.facts.Keys && w.matches.Values <= w.recorded
    && forall i :: 0 <= i < |w.txns| ==> Fair(w, w.txns[i]) && Current(w, w.txns[i]) && LockedWhenFound(w.txns[i])
  }

  /** The world has moved on around a transaction: bills came or changed, but not those it holds;
      facts came; matches came, but not of bills it holds nor of its facts. */
  ghost predicate Moved(w: World, now: World, t: Txn) {
    && (forall b :: b in w.bills ==>
          b in now.bills && (now.bills[b] == w.bills[b] || (MayBecome(w.bills[b], now.bills[b]) && b !in t.locks)))
    && (forall f :: f in w.facts ==> f in now.facts && now.facts[f] == w.facts[f])
    && (forall b :: b in now.matches ==>
          (b in w.matches && now.matches[b] == w.matches[b]) || b !in t.locks)
    && (forall f :: f in now.recorded ==> f in w.recorded || t.phase.Over? || f !in t.facts)
    && (forall b :: b in w.matches ==> b in now.matches && now.matches[b] == w.matches[b])
  }

  lemma MovedKeepsTxn(w: World, now: World, t: Txn)
    requires Moved(w, now, t) && Fair(w, t) && Current(w, t)
    ensures Fair(now, t) && Current(now, t)
  {
    forall b | b in Rows(w, t.payment) ensures b in Rows(now, t.payment) {}
    MovedKeepsRight(w, now, t, t.inserted);
    forall b | b in t.inserted ensures Exact(now.bills[b], now.facts[t.inserted[b]]) {
      assert b in t.locks && Exact(w.bills[b], w.facts[t.inserted[b]]);
    }
  }

  lemma MovedKeepsRight(w: World, now: World, t: Txn, matches: map<BillId, FactId>)
    requires Moved(w, now, t) && MatchesRight(w, matches)
    ensures MatchesRight(now, matches)
  {
    forall b | b in matches
      ensures b in now.bills && matches[b] in now.facts && Right(now.bills[b], now.facts[matches[b]])
    {
      assert Right(w.bills[b], w.facts[matches[b]]);
    }
  }

  /** One transaction changes and the world moves on around the others. */
  lemma OneChanges(w: World, now: World, i: nat)
    requires Sound(w) && i < |w.txns| && |now.txns| == |w.txns|
    requires forall j :: 0 <= j < |w.txns| && j != i ==> now.txns[j] == w.txns[j] && Moved(w, now, w.txns[j])
    requires Fair(now, now.txns[i]) && Current(now, now.txns[i]) && LockedWhenFound(now.txns[i])
    requires FreeFor(w, i, now.txns[i].locks)
    requires now.txns[i].facts == w.txns[i].facts && (!now.txns[i].phase.Over? ==> !w.txns[i].phase.Over?)
    requires MatchesRight(now, now.matches) && Injective(now.matches)
    requires now.recorded <= now.facts.Keys && now.matches.Values <= now.recorded
    ensures Sound(now)
  {
    forall j | 0 <= j < |now.txns| && j != i
      ensures Fair(now, now.txns[j]) && Current(now, now.txns[j]) && LockedWhenFound(now.txns[j])
    {
      MovedKeepsTxn(w, now, w.txns[j]);
    }
  }

  lemma SyncKeeps(w: World, b: BillId, bill: Bill)
    requires Sound(w) && Enabled(w, Sync(b, bill))
    ensures Sound(After(w, Sync(b, bill)))
  {
    var now := After(w, Sync(b, bill));
    forall i | 0 <= i < |w.txns| ensures Moved(w, now, w.txns[i]) {
      assert Fair(w, w.txns[i]);
      if b in w.bills { assert w.txns[i].locks !! {b}; }
    }
    forall i | 0 <= i < |w.txns| ensures Fair(now, w.txns[i]) && Current(now, w.txns[i]) {
      MovedKeepsTxn(w, now, w.txns[i]);
    }
    forall x | x in w.matches ensures Right(now.bills[x], w.facts[w.matches[x]]) {
      assert Right(w.bills[x], w.facts[w.matches[x]]);
    }
  }

  /** Only the world around the transactions moves on. */
  lemma WorldKeeps(w: World, now: World)
    requires Sound(w) && now.txns == w.txns
    requires forall i :: 0 <= i < |w.txns| ==> Moved(w, now, w.txns[i])
    requires MatchesRight(now, now.matches) && Injective(now.matches)
    requires now.recorded <= now.facts.Keys && now.matches.Values <= now.recorded
    ensures Sound(now)
  {
    forall i | 0 <= i < |w.txns| ensures Fair(now, w.txns[i]) && Current(now, w.txns[i]) {
      MovedKeepsTxn(w, now, w.txns[i]);
    }
  }

  lemma LinkKeeps(w: World, b: BillId, f: FactId)
    requires Sound(w) && Enabled(w, Link(b, f))
    ensures Sound(After(w, Link(b, f)))
    ensures var now := After(w, Link(b, f));
            && (forall x :: x in w.matches ==> x in now.matches && now.matches[x] == w.matches[x])
            && (forall x :: x in now.matches && x !in w.matches ==>
                  x in w.bills && now.matches[x] in w.facts && Exact(w.bills[x], w.facts[now.matches[x]]))
  {
    var now := After(w, Link(b, f));
    if now == Reviewed(w, b) {
      SyncKeeps(w, b, w.bills[b].(needsReview := true));
    } else if now != w {
      LinkedKeeps(w, b, f);
    }
  }

  lemma LinkedKeeps(w: World, b: BillId, f: FactId)
    requires Sound(w) && b in w.bills && FreeFor(w, |w.txns|, {b})
    requires b !in w.matches && f !in w.matches.Values && f in Historic(w, b)
    ensures Sound(w.(matches := w.matches[b := f]))
  {
    var now := w.(matches := w.matches[b := f]);
    forall i | 0 <= i < |w.txns| ensures Moved(w, now, w.txns[i]) {
      assert w.txns[i].locks !! {b};
    }
    forall x, y | x in now.matches && y in now.matches && x != y ensures now.matches[x] != now.matches[y] {
      assert x in w.matches ==> w.matches[x] in w.matches.Values;
      assert y in w.matches ==> w.matches[y] in w.matches.Values;
    }
    forall g | g in now.matches.Values ensures g in now.recorded {
      assert g == f || g in w.matches.Values;
    }
    WorldKeeps(w, now);
  }

  lemma RecordKeeps(w: World, facts: map<FactId, Fact>)
    requires Sound(w) && Enabled(w, Record(facts))
    ensures Sound(After(w, Record(facts)))
  {
    var now := After(w, Record(facts));
    forall i | 0 <= i < |w.txns| ensures Moved(w, now, w.txns[i]) {
      assert Fair(w, w.txns[i]);
    }
    WorldKeeps(w, now);
  }

  lemma BeginKeeps(w: World, p: Payment, facts: map<FactId, Fact>)
    requires Sound(w) && Enabled(w, Begin(p, facts))
    ensures Sound(After(w, Begin(p, facts)))
  {
    var now := After(w, Begin(p, facts));
    forall i | 0 <= i < |w.txns| ensures Fair(now, w.txns[i]) && Current(now, w.txns[i]) {
      assert Moved(w, now, w.txns[i]);
      MovedKeepsTxn(w, now, w.txns[i]);
    }
    assert Fair(now, now.txns[|w.txns|]);
    assert forall i :: 0 <= i < |w.txns| ==> Fair(w, w.txns[i]);
  }

  /** A transaction of its own step, the rest of the world as it was. */
  lemma OwnStep(w: World, i: nat, t: Txn)
    requires Sound(w) && i < |w.txns| && t.facts == w.txns[i].facts && (!t.phase.Over? ==> !w.txns[i].phase.Over?)
    requires Fair(w, t) && Current(w, t) && LockedWhenFound(t) && FreeFor(w, i, t.locks)
    ensures Sound(Set(w, i, t))
  {
    var now := Set(w, i, t);
    forall j | 0 <= j < |w.txns| && j != i ensures Moved(w, now, w.txns[j]) {}
    assert Moved(w, now, t);
    MovedKeepsTxn(w, now, t);
    OneChanges(w, now, i);
  }

  lemma HoldsApart(w: World, i: nat)
    requires Sound(w) && i < |w.txns|
    ensures FreeFor(w, i, w.txns[i].locks)
  {
  }

  lemma ReadKeeps(w: World, i: nat, b: BillId)
    requires Sound(w) && Enabled(w, Read(i, b))
    ensures Sound(After(w, Read(i, b)))
  {
    var t, r := w.txns[i], AfterRead(w, w.txns[i], b);
    HoldsApart(w, i);
    if !r.phase.Over? {
      assert t.locks <= {b};
      assert b in t.locks <==> t.locks != {};
    }
    assert Fair(w, t) && Fair(w, r);
    OwnStep(w, i, r);
  }

  lemma BindKeeps(w: World, i: nat, f: FactId)
    requires Sound(w) && Enabled(w, Bind(i, f))
    ensures Sound(After(w, Bind(i, f)))
  {
    var t, r := w.txns[i], AfterBind(w, w.txns[i], f);
    HoldsApart(w, i);
    assert Fair(w, t);
    if r.inserted != map[] {
      assert t.inserted == map[];
      assert r.inserted == map[t.phase.bill := f] && f in Candidates(t);
    }
    assert Fair(w, r);
    OwnStep(w, i, r);
  }

  lemma CommitKeeps(w: World, i: nat)
    requires Sound(w) && Enabled(w, Commit(i))
    ensures Sound(After(w, Commit(i)))
    ensures forall b :: b in w.matches ==>
              b in After(w, Commit(i)).matches && After(w, Commit(i)).matches[b] == w.matches[b]
    ensures forall b :: b in After(w, Commit(i)).matches && b !in w.matches ==>
              Exact(w.bills[b], w.facts[After(w, Commit(i)).matches[b]])
  {
    var t, now := w.txns[i], After(w, Commit(i));
    assert Fair(w, t);
    HoldsApart(w, i);
    forall j | 0 <= j < |w.txns| && j != i ensures Moved(w, now, w.txns[j]) {
      NothingOfOthers(w, i, j);
    }
    forall a, b | a in now.matches && b in now.matches && a != b ensures now.matches[a] != now.matches[b] {
      assert a in t.inserted ==> t.inserted[a] in t.facts.Keys;
      assert b in t.inserted ==> t.inserted[b] in t.facts.Keys;
    }
    assert Fair(now, now.txns[i]);
    OneChanges(w, now, i);
  }

  lemma NothingOfOthers(w: World, i: nat, j: nat)
    requires Sound(w) && i < |w.txns| && j < |w.txns| && i != j && !w.txns[i].phase.Over?
    ensures forall b :: b in w.txns[i].inserted ==> b !in w.txns[j].locks
    ensures !w.txns[j].phase.Over? ==> forall b :: b in w.txns[i].inserted ==> w.txns[i].inserted[b] !in w.txns[j].facts
  {
    assert Fair(w, w.txns[i]);
    assert w.txns[i].locks !! w.txns[j].locks;
    forall b | b in w.txns[i].inserted ensures w.txns[i].inserted[b] in w.txns[i].facts.Keys {
      assert w.txns[i].inserted[b] in w.txns[i].inserted.Values;
    }
  }

  // ---- what the single decisions mean ----

  /** The bill is the only one of the payment's property, kind and number. */
  predicate OnlyBillOf(w: World, p: Payment, b: BillId) {
    && b in w.bills
    && w.bills[b].property == p.property && w.bills[b].kind == p.kind && w.bills[b].reference == p.reference
    && forall x :: x in w.bills && x != b ==>
         w.bills[x].property != p.property || w.bills[x].kind != p.kind || w.bills[x].reference != p.reference
  }

  /** The fresh read goes on with a bill exactly when it is the only one of that number, has succeeded
      with the payment's amount, is not under review, for a refund names the transaction refunded, and
      is either unmatched and not of before the matching began, or matched within the chain being corrected.
      Otherwise the confirmation is over and holds nothing. */
  lemma ReadJudgesExactly(w: World, i: nat, b: BillId)
    requires Sound(w) && Enabled(w, Read(i, b))
    ensures var p, t := w.txns[i].payment, After(w, Read(i, b)).txns[i];
            && (t.phase.Judged? || t == Txn(p, t.facts, Over, {}, map[]))
            && (t.phase.Judged? <==>
                  && OnlyBillOf(w, p, b)
                  && w.bills[b].success && !w.bills[b].needsReview && w.bills[b].amount == Some(p.amount)
                  && (p.kind == Refund ==> w.bills[b].transactionId == p.refundOf)
                  && (if b in w.matches then w.matches[b] in p.corrects else !w.bills[b].historical))
            && (t.phase.Judged? ==>
                  t.phase == Judged(b, b in w.matches) && t.locks == w.txns[i].locks && t.inserted == map[])
  {
    assert Fair(w, w.txns[i]);
    var p := w.txns[i].payment;
    if OnlyBillOf(w, p, b) {
      assert Rows(w, p) == {b};
    }
    if Rows(w, p) == {b} {
      assert b in Rows(w, p);
      assert forall x :: x in w.bills && x != b ==> x !in Rows(w, p);
    }
  }

  /** A confirmation asks for exactly the bills of its property, kind and number that are there when it asks,
      and waits until it holds them all. */
  lemma LocksWhatIsThere(w: World, i: nat)
    ensures Enabled(w, AskLocks(i)) ==>
              && After(w, AskLocks(i)).txns[i].phase.Waiting?
              && forall b :: b in After(w, AskLocks(i)).txns[i].phase.rows <==>
                   && b in w.bills && w.bills[b].property == w.txns[i].payment.property
                   && w.bills[b].kind == w.txns[i].payment.kind && w.bills[b].reference == w.txns[i].payment.reference
    ensures PhaseOf(w, i).Waiting? ==>
              (Enabled(w, GetLocks(i)) <==>
                forall j, b :: 0 <= j < |w.txns| && j != i && b in w.txns[j].locks ==> b !in w.txns[i].phase.rows)
    ensures Enabled(w, GetLocks(i)) ==>
              After(w, GetLocks(i)).txns[i].locks == w.txns[i].phase.rows && After(w, GetLocks(i)).txns[i].phase.Locked?
  {
  }

  /** While a transaction holds a bill, synchronization and linking leave it alone and nobody else gets hold
      of it or inserts a match for it. */
  lemma HeldBillIsLeftAlone(w: World, i: nat, b: BillId, s: Step)
    requires i < |w.txns| && b in w.txns[i].locks && b in w.bills && Enabled(w, s)
    ensures s.Sync? || s.Link? ==> s.bill != b
    ensures s.GetLocks? && s.i != i ==> b !in w.txns[s.i].phase.rows
    ensures s.Bind? && s.i != i ==> b != w.txns[s.i].phase.bill
    ensures After(w, s).bills[b] == w.bills[b]
  {
  }

  /** The fact is one of the command's, of the payment's amount, number and kind; a membership fact
      settles collections only. */
  predicate Answers(t: Txn, f: FactId) {
    && f in t.facts && t.facts[f].amount == t.payment.amount && t.facts[f].reference == t.payment.reference
    && t.facts[f].kind == t.payment.kind && (t.facts[f].membership ==> t.payment.kind == Collection)
  }

  /** A bill judged unmatched gets its match exactly when one fact of the command answers the payment and
      the bill is then still there, unmatched, successful, not under review and of the fact's amount. */
  lemma BindInsertsExactly(w: World, i: nat, f: FactId)
    requires Sound(w) && Enabled(w, Bind(i, f)) && !w.txns[i].phase.alreadyMatched
    ensures var b, t := w.txns[i].phase.bill, After(w, Bind(i, f)).txns[i];
            && (t.phase.Bound? || t == Txn(t.payment, t.facts, Over, {}, map[]))
            && (t.phase.Bound? ==> t.inserted == map[b := f] && b in t.locks)
            && (t.phase.Bound? <==>
                  && Answers(w.txns[i], f) && (forall g :: Answers(w.txns[i], g) ==> g == f)
                  && b !in w.matches && f !in w.matches.Values && b in w.bills
                  && w.bills[b].success && !w.bills[b].needsReview
                  && w.bills[b].amount == Some(w.txns[i].payment.amount)
                  && (w.txns[i].payment.kind == Refund ==>
                        w.bills[b].transactionId.Some? && w.bills[b].transactionId == w.txns[i].payment.refundOf))
  {
    var t := w.txns[i];
    assert Fair(w, t);
    assert forall g :: g in Candidates(t) <==> Answers(t, g);
    if Answers(t, f) && forall g :: Answers(t, g) ==> g == f {
      assert Candidates(t) == {f};
    }
    if Candidates(t) == {f} {
      assert f in Candidates(t);
      assert forall g :: Answers(t, g) ==> g in Candidates(t);
    }
  }

  /** A recorded fact of the bill's property, kind, number and amount, and for a refund of its original. */
  predicate MayStandFor(w: World, b: BillId, f: FactId)
    requires b in w.bills
  {
    && f in w.recorded && f in w.facts
    && var bill, fact := w.bills[b], w.facts[f];
    && fact.property == bill.property && fact.kind == bill.kind && fact.reference == bill.reference
    && bill.amount == Some(fact.amount)
    && (bill.kind == Refund ==> bill.transactionId.Some? && fact.original == bill.transactionId && !fact.membership)
  }

  /** A refund without a number could be the bill's. */
  predicate RefundUnclear(w: World, b: BillId)
    requires b in w.bills
  {
    && w.bills[b].kind == Refund && w.bills[b].transactionId.Some?
    && exists g :: g in w.recorded && g in w.facts && w.facts[g].kind == Refund && !w.facts[g].membership
                   && w.facts[g].property == w.bills[b].property && w.facts[g].reference == ""
                   && Some(w.facts[g].amount) == w.bills[b].amount && w.facts[g].original == w.bills[b].transactionId
  }

  /** Synchronization links a bill exactly when it is successful, unmatched and not under review, one
      recorded fact alone may stand for it, that fact is not matched, and no refund without a number could
      be meant instead. */
  lemma LinkMatchesExactly(w: World, b: BillId, f: FactId)
    requires Enabled(w, Link(b, f)) && b !in w.matches
    ensures b in After(w, Link(b, f)).matches <==>
            && w.bills[b].success && !w.bills[b].needsReview
            && MayStandFor(w, b, f) && (forall g :: MayStandFor(w, b, g) ==> g == f)
            && f !in w.matches.Values
            && !RefundUnclear(w, b)
    ensures b in After(w, Link(b, f)).matches ==> After(w, Link(b, f)).matches[b] == f
  {
    assert forall g :: g in Historic(w, b) <==> MayStandFor(w, b, g);
    if MayStandFor(w, b, f) && forall g :: MayStandFor(w, b, g) ==> g == f {
      assert Historic(w, b) == {f};
    }
    if Historic(w, b) == {f} {
      assert f in Historic(w, b);
    }
  }

  /** Otherwise nothing but the bill's review changes: it comes under review exactly when it is successful,
      unmatched and has an amount, and a refund without a number could be meant, more than one fact may
      stand for it, or the one that may is matched already. */
  lemma LinkReviewsExactly(w: World, b: BillId, f: FactId)
    requires Enabled(w, Link(b, f))
    ensures var now, bill := After(w, Link(b, f)), w.bills[b];
            && now.bills == w.bills[b := bill.(needsReview := now.bills[b].needsReview)]
            && now.facts == w.facts && now.recorded == w.recorded && now.txns == w.txns
            && (now.bills[b].needsReview <==>
                  || bill.needsReview
                  || (&& bill.success && b !in w.matches && bill.amount.Some?
                      && (|| RefundUnclear(w, b)
                          || exists g, h :: MayStandFor(w, b, g) && MayStandFor(w, b, h)
                                            && (g != h || g in w.matches.Values))))
            && (b in w.matches || now.bills[b].needsReview ==> now.matches == w.matches)
  {
    assert forall g :: g in Historic(w, b) <==> MayStandFor(w, b, g);
    if Historic(w, b) != {} && Historic(w, b) != {f} {
      var g :| g in Historic(w, b);
      assert Historic(w, b) != {g};
    }
    if Historic(w, b) == {f} { assert f in Historic(w, b); }
  }

  /** Every step keeps the world sound and every match that was committed. */
  lemma StepKeeps(w: World, s: Step)
    requires Sound(w) && Enabled(w, s)
    ensures Sound(After(w, s))
    ensures forall b :: b in w.matches ==> b in After(w, s).matches && After(w, s).matches[b] == w.matches[b]
  {
    match s
    case Sync(b, now) => SyncKeeps(w, b, now);
    case Link(b, f) => LinkKeeps(w, b, f);
    case Record(facts) => RecordKeeps(w, facts);
    case Begin(p, facts) => BeginKeeps(w, p, facts);
    case AskLocks(i) =>
      HoldsApart(w, i);
      assert Fair(w, w.txns[i]) && Fair(w, After(w, s).txns[i]);
      OwnStep(w, i, After(w, s).txns[i]);
    case GetLocks(i) =>
      assert Fair(w, w.txns[i]) && Fair(w, After(w, s).txns[i]);
      OwnStep(w, i, After(w, s).txns[i]);
    case Read(i, b) => ReadKeeps(w, i, b);
    case Bind(i, f) => BindKeeps(w, i, f);
    case Commit(i) => CommitKeeps(w, i);
    case Abort(i) =>
      assert Fair(w, w.txns[i]) && Fair(w, RolledBack(w.txns[i]));
      OwnStep(w, i, RolledBack(w.txns[i]));
  }

  lemma {:induction false} RunsKeep(w: World, steps: seq<Step>, last: World)
    requires Sound(w) && Leads(w, steps, last)
    ensures Sound(last)
    ensures forall b :: b in w.matches ==> b in last.matches && last.matches[b] == w.matches[b]
    decreases |steps|
  {
    if steps != [] {
      StepKeeps(w, steps[0]);
      RunsKeep(After(w, steps[0]), steps[1..], last);
    }
  }

  /** A confirmation that found its bill when it locked is never refused when it inserts the match:
      nobody can hold it up, and the bill is still fit and unmatched, whatever ran in between. */
  lemma LockedBindSucceeds(w: World, i: nat, f: FactId)
    requires Sound(w) && PhaseOf(w, i).Judged? && w.txns[i].locks != {}
    requires !w.txns[i].phase.alreadyMatched && Candidates(w.txns[i]) == {f}
    ensures Enabled(w, Bind(i, f))
    ensures var t := After(w, Bind(i, f)).txns[i];
            t.phase.Bound? && t.inserted == map[w.txns[i].phase.bill := f]
  {
    var t := w.txns[i];
    assert Fair(w, t) && Current(w, t) && LockedWhenFound(t);
    HoldsApart(w, i);
    assert f in Candidates(t);
  }
}
