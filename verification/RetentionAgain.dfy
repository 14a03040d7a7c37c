/** Retention run after run: when a later run deletes a success that an earlier one kept. */
module RetentionAgain {
  import opened Releases
  import opened Retention

  /** The prefixes whose releases a run does not see as successes. */
  function Unseen(s: Setting): set<string> {
    s.unreadable + s.extras
  }

  predicate SameProtection(s: Setting, later: Setting) {
    later.protected == s.protected && later.keep == s.keep
  }

  /** Whatever the store holds and however the first run ends, the later run deletes nothing of a
      success that the first one kept. */
  ghost predicate NeverLoses(s: Setting, later: Setting) {
    forall before, after, e :: Outcome(before, after, s) && e in Retained(before, s) ==> !Doomed(after, later, e.prefix)
  }

  /** It depends on what the two runs see alone: either nothing unprotected is ever kept, or the later
      run sees no prefix that the first one did not. */
  lemma LosesExactlyWhatWasUnseen(s: Setting, later: Setting)
    requires SameProtection(s, later)
    ensures NeverLoses(s, later) <==> s.keep <= 0 || Unseen(s) <= Unseen(later)
  {
    if s.keep <= 0 || Unseen(s) <= Unseen(later) {
      forall before, after, e | Outcome(before, after, s) && e in Retained(before, s)
        ensures !Doomed(after, later, e.prefix)
      {
        SecondRunKeeps(before, after, s, later, e);
      }
    } else {
      var p :| p in Unseen(s) && p !in Unseen(later);
      var gs, e := LosingStore(s, later, p);
      assert Outcome(gs, gs, s);
    }
  }

  lemma SecondRunKeeps(before: Groups, after: Groups, s: Setting, later: Setting, e: Entry)
    requires Outcome(before, after, s) && SameProtection(s, later)
    requires s.keep <= 0 || Unseen(s) <= Unseen(later)
    requires e in Retained(before, s)
    ensures !Doomed(after, later, e.prefix)
  {
    RetainedAreKept(before, after, s, e);
    StillWhole(e.prefix, At(before, e.prefix), s, later);
    if e in Unprotected(before, s) {
      RetainedWithinKeep(before, s, e);
      NothingNewlySeen(before, after, s, later);
      SecondRunLoss(before, after, s, later);
      assert Planned(after, later) * Retained(before, s) == {};
    }
  }

  lemma NothingNewlySeen(before: Groups, after: Groups, s: Setting, later: Setting)
    requires Outcome(before, after, s) && Unseen(s) <= Unseen(later)
    ensures NewlySeen(before, after, s, later) == {}
  {
    forall x | x in Successes(after, later) ensures x in Successes(before, s) {
      SuccessWasWhole(before, after, s, later, x.prefix);
      assert x == Entry(DeployedAt(before[x.prefix]), x.prefix);
    }
  }

  // ---- any number of runs ----

  /** Runs one after the other, each on what the one before it left. */
  ghost predicate Runs(stores: seq<Groups>, settings: seq<Setting>) {
    && |stores| == |settings| + 1
    && forall i :: 0 <= i < |settings| ==> Outcome(stores[i], stores[i + 1], settings[i])
  }

  /** The run finds the bundle as it was and leaves it alone. */
  ghost predicate Left(store: Groups, s: Setting, e: Entry, g: Group) {
    && At(store, e.prefix) == g && !Doomed(store, s, e.prefix)
    && (e in Retained(store, s) || e.prefix in Unseen(s))
  }

  /** However many runs follow, and however each of them ends: a success that one run kept is left
      alone by all later ones, as long as no run sees a prefix that the one before it did not. */
  lemma {:induction false} ManyRunsKeep(stores: seq<Groups>, settings: seq<Setting>, i: nat, j: nat, e: Entry)
    requires Runs(stores, settings) && i <= j < |settings|
    requires forall k :: i < k <= j ==>
               SameProtection(settings[k - 1], settings[k]) && Unseen(settings[k - 1]) <= Unseen(settings[k])
    requires e in Retained(stores[i], settings[i])
    ensures Left(stores[j], settings[j], e, At(stores[i], e.prefix))
    ensures At(stores[j + 1], e.prefix) == At(stores[i], e.prefix) != map[]
    decreases j - i
  {
    var g := At(stores[i], e.prefix);
    RetainedAreKept(stores[i], stores[i + 1], settings[i], e);
    if i < j {
      ManyRunsKeep(stores, settings, i, j - 1, e);
      assert Left(stores[j - 1], settings[j - 1], e, g);
      OneRunMore(stores, settings, j, e, g, settings[i]);
    } else {
      RetainedIsLeft(stores[i], settings[i], e);
    }
    LeftStays(stores[j], stores[j + 1], settings[j], e, g);
  }

  lemma OneRunMore(stores: seq<Groups>, settings: seq<Setting>, j: nat, e: Entry, g: Group, first: Setting)
    requires Runs(stores, settings) && 0 < j < |settings|
    requires SameProtection(settings[j - 1], settings[j]) && Unseen(settings[j - 1]) <= Unseen(settings[j])
    requires Judge(e.prefix, g, first) == Success && e == Entry(DeployedAt(g), e.prefix)
    requires Left(stores[j - 1], settings[j - 1], e, g)
    ensures Left(stores[j], settings[j], e, g)
  {
    assert Outcome(stores[j - 1], stores[j], settings[j - 1]);
    LeftOnceMore(stores[j - 1], stores[j], settings[j - 1], settings[j], e, g, first);
  }

  lemma RetainedIsLeft(store: Groups, s: Setting, e: Entry)
    requires e in Retained(store, s)
    ensures Left(store, s, e, At(store, e.prefix))
  {
  }

  lemma LeftStays(before: Groups, after: Groups, s: Setting, e: Entry, g: Group)
    requires Outcome(before, after, s) && Left(before, s, e, g)
    ensures At(after, e.prefix) == g
  {
  }

  lemma LeftOnceMore(before: Groups, after: Groups, s: Setting, later: Setting, e: Entry, g: Group, first: Setting)
    requires Outcome(before, after, s) && SameProtection(s, later) && Unseen(s) <= Unseen(later)
    requires Judge(e.prefix, g, first) == Success && e == Entry(DeployedAt(g), e.prefix)
    requires Left(before, s, e, g)
    ensures Left(after, later, e, g)
  {
    LeftStays(before, after, s, e, g);
    StillWhole(e.prefix, g, first, later);
    if e.prefix !in Unseen(s) {
      SecondRunKeeps(before, after, s, later, e);
    }
    if e.prefix !in Unseen(later) {
      assert Judge(e.prefix, g, later) == Success;
      assert e in Successes(after, later) by { SuccessCounts(after, later, e.prefix); }
    } else if e in Planned(after, later) {
      PlannedJudged(after, later, e);
    }
  }

  // ---- a store that shows the loss ----

  function Bundles(names: set<string>): Groups {
    map q | q in names :: WholeBundle(q, 1)
  }

  function Entries(names: set<string>): set<Entry> {
    set q | q in names :: Entry(1, q)
  }

  /** Full of older releases that both runs see, and one newer release that only the later run sees. */
  lemma LosingStore(s: Setting, later: Setting, p: string) returns (gs: Groups, e: Entry)
    requires SameProtection(s, later) && s.keep > 0
    requires p in Unseen(s) && p !in Unseen(later)
    ensures e in Retained(gs, s) && Doomed(gs, later, e.prefix)
  {
    var names := FreshNames(s.protected + Unseen(s) + Unseen(later) + {p}, s.keep);
    gs := Bundles(names)[p := WholeBundle(p, 2)];
    EntriesSize(names);
    FirstSeesOlder(gs, s, names, p);
    LaterSeesAll(gs, later, names, p);
    e := OldestGoes(gs, later, names, p);
    assert Planned(gs, s) == {};
    assert DeployedAt(At(gs, e.prefix)) == 1;
  }

  /** One success too many: an older one is planned for deletion, as it precedes the newer one. */
  lemma OldestGoes(gs: Groups, s: Setting, names: set<string>, p: string) returns (e: Entry)
    requires Successes(gs, s) == Entries(names) + {Entry(2, p)}
    requires |names| == |Entries(names)| == s.keep > 0 && names !! s.protected && p !in names
    ensures e in Planned(gs, s) && e in Entries(names)
  {
    var q :| q in names;
    var u := Unprotected(gs, s);
    assert Entry(1, q) in u;
    FirstOfSize(u, 1);
    SubsetSize({Entry(1, q)}, u);
    assert Excess(gs, s) == 1;
    assert |Planned(gs, s)| == 1;
    e :| e in Planned(gs, s);
    if e == Entry(2, p) {
      SubsetSize({Entry(1, q)}, Preceding(u, e));
    }
  }

  lemma WholeBundleCounts(p: string, at: Timestamp, s: Setting)
    ensures p !in Unseen(s) ==> Judge(p, WholeBundle(p, at), s) == Success
    ensures p in Unseen(s) ==> Judge(p, WholeBundle(p, at), s) != Success
    ensures DeployedAt(WholeBundle(p, at)) == at
  {
  }

  lemma FirstSeesOlder(gs: Groups, s: Setting, names: set<string>, p: string)
    requires gs == Bundles(names)[p := WholeBundle(p, 2)] && p in Unseen(s) && p !in names
    requires names !! Unseen(s)
    ensures Successes(gs, s) == Entries(names)
  {
    WholeBundleCounts(p, 2, s);
    forall q | q in names ensures Judge(q, gs[q], s) == Success && Entry(1, q) in Successes(gs, s) {
      WholeBundleCounts(q, 1, s);
      SuccessCounts(gs, s, q);
    }
  }

  lemma LaterSeesAll(gs: Groups, s: Setting, names: set<string>, p: string)
    requires gs == Bundles(names)[p := WholeBundle(p, 2)] && p !in Unseen(s) && p !in names
    requires names !! Unseen(s)
    ensures Successes(gs, s) == Entries(names) + {Entry(2, p)}
  {
    WholeBundleCounts(p, 2, s);
    SuccessCounts(gs, s, p);
    forall q | q in names ensures Judge(q, gs[q], s) == Success && Entry(1, q) in Successes(gs, s) {
      WholeBundleCounts(q, 1, s);
      SuccessCounts(gs, s, q);
    }
  }

  lemma {:induction false} EntriesSize(names: set<string>)
    ensures |Entries(names)| == |names|
  {
    if names != {} {
      var q :| q in names;
      EntriesSize(names - {q});
      assert Entries(names) == Entries(names - {q}) + {Entry(1, q)};
    } else {
      assert Entries(names) == {};
    }
  }

  lemma {:induction false} FreshNames(avoid: set<string>, k: nat) returns (names: set<string>)
    ensures |names| == k && names !! avoid
  {
    if k == 0 {
      names := {};
    } else {
      names := FreshNames(avoid, k - 1);
      var longest := LongestOf(avoid + names);
      var q := seq(longest + 1, _ => 'q');
      names := names + {q};
    }
  }

  lemma {:induction false} LongestOf(names: set<string>) returns (longest: nat)
    ensures forall q :: q in names ==> |q| <= longest
  {
    if names == {} {
      longest := 0;
    } else {
      var q :| q in names;
      longest := LongestOf(names - {q});
      longest := if |q| > longest then |q| else longest;
    }
  }

  /** The smallest such store: the first run cannot read the newer of two
      releases and keeps the older; the second run reads both and deletes what the first kept. */
  lemma TransientReadLosesRelease() returns (gs: Groups, s: Setting, later: Setting, e: Entry)
    ensures later == s.(unreadable := {}) && Outcome(gs, gs, s)
    ensures e in Retained(gs, s) && Doomed(gs, later, e.prefix)
  {
    var older, newer := WholeBundle("a", 1), WholeBundle("b", 2);
    gs := map["a" := older, "b" := newer];
    s, e := Setting({}, {}, {"b"}, 1, 0), Entry(1, "a");
    later := s.(unreadable := {});
    assert Judge("a", older, s) == Success && Judge("b", newer, s) == CorruptSuccess;
    assert Successes(gs, s) == {e} by {
      SuccessCounts(gs, s, "a");
    }
    assert Planned(gs, s) == {};
    var f := Entry(2, "b");
    assert Judge("b", newer, later) == Success && Judge("a", older, later) == Success;
    assert Successes(gs, later) == {e, f} by {
      SuccessCounts(gs, later, "a");
      SuccessCounts(gs, later, "b");
    }
    assert Unprotected(gs, later) == {e, f};
    assert Preceding({e, f}, e) == {} by {
      BeforeIsStrictOrder(e, e, e);
    }
    assert e in Planned(gs, later);
  }

}
