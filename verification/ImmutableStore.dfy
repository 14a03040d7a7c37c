/** Immutable objects in the release store. Between any two requests of one writer, other writers
    and deletions may change the store; every request may fail, even after it was carried out. */
module ImmutableStore {
  import opened Releases

  datatype Content = MarkerOf(release: string, deployedAt: Timestamp) | Other(bytes: string)

  type Objects = map<string, Content>

  /** What happens around one request: keys that are deleted, objects that other writers put, and
      how the request itself goes. */
  datatype Around = Around(deleted: set<string>, put: Objects, fails: bool, took: bool, repeated: bool)

  /** The store as it was after each request or change, oldest first. */
  type Trace = seq<Objects>

  /** No step overwrites: a key that stays keeps its bytes. */
  predicate NeverOverwritten(trace: Trace) {
    forall n :: 0 < n < |trace| ==> Kept(trace, n)
  }

  predicate Kept(trace: Trace, n: nat)
    requires 0 < n < |trace|
  {
    forall k :: k in trace[n - 1] && k in trace[n] ==> trace[n][k] == trace[n - 1][k]
  }

  predicate Steady(trace: Trace, k: string, i: nat, j: nat) {
    forall n :: i <= n <= j && n < |trace| ==> k in trace[n]
  }

  /** While a key is present its bytes never change. */
  lemma {:induction false} SteadyKeepsBytes(trace: Trace, k: string, i: nat, j: nat)
    requires NeverOverwritten(trace) && i <= j < |trace| && Steady(trace, k, i, j)
    ensures trace[i][k] == trace[j][k]
    decreases j - i
  {
    if i < j {
      SteadyKeepsBytes(trace, k, i, j - 1);
      assert Kept(trace, j) && k in trace[j - 1] && k in trace[j];
    }
  }

  datatype Reply<T> = Answer(value: T) | Raised

  datatype PutReply = Accepted | Conflict | Error

  datatype Outcome = Existing | Uploaded | Refused

  predicate Quiet(around: nat -> Around, from: nat, to: nat) {
    forall n :: from <= n < to ==> !around(n).fails
  }

  /** Nothing deletes the key meanwhile. */
  predicate Undeleted(around: nat -> Around, key: string, from: nat, to: nat) {
    forall n :: from <= n < to ==> key !in around(n).deleted
  }

  /** No other writer puts the key meanwhile. */
  predicate Alone(around: nat -> Around, key: string, from: nat, to: nat) {
    forall n :: from <= n < to ==> key !in around(n).put
  }

  predicate Extends(trace: Trace, earlier: Trace) {
    |earlier| <= |trace| && trace[..|earlier|] == earlier
  }

  /** The last state holds the content under the key. */
  predicate Stored(trace: Trace, k: string, c: Content) {
    |trace| > 0 && k in trace[|trace| - 1] && trace[|trace| - 1][k] == c
  }

  /** The key holds this content in every state from the given one on. */
  predicate Stays(trace: Trace, k: string, from: nat, c: Content) {
    forall n :: from <= n < |trace| ==> k in trace[n] && trace[n][k] == c
  }

  class CosStore {
    var objects: Objects
    const around: nat -> Around
    var tick: nat
    ghost var trace: Trace

    constructor (objects: Objects, around: nat -> Around)
      ensures Valid() && this.objects == objects && this.around == around && tick == 0 && trace == [objects]
    {
      this.objects, this.around, tick, trace := objects, around, 0, [objects];
    }

    ghost predicate Valid()
      reads this
    {
      |trace| > 0 && trace[|trace| - 1] == objects && NeverOverwritten(trace)
    }

    method Become(next: Objects)
      requires Valid()
      requires forall k :: k in objects && k in next ==> next[k] == objects[k]
      modifies this`objects, this`trace
      ensures Valid() && objects == next && trace == old(trace) + [next]
    {
      objects := next;
      ghost var before := trace;
      trace := trace + [next];
      forall n | 0 < n < |trace| ensures Kept(trace, n) {
        assert n < |before| ==> Kept(before, n);
      }
    }

    /** Deletions, and puts of other writers: these too never replace an object. */
    method Others() returns (a: Around)
      requires Valid()
      modifies this
      ensures Valid() && Extends(trace, old(trace)) && tick == old(tick) + 1 && a == around(old(tick))
      ensures objects == a.put + (old(objects) - a.deleted)
    {
      a := around(tick);
      tick := tick + 1;
      Become(objects - a.deleted);
      Become(a.put + objects);
    }

    method Head(key: string) returns (r: Reply<bool>)
      requires Valid()
      modifies this
      ensures Valid() && Extends(trace, old(trace)) && tick == old(tick) + 1
      ensures r.Raised? <==> around(old(tick)).fails
      ensures r.Answer? ==> r.value == (key in objects)
      ensures objects == around(old(tick)).put + (old(objects) - around(old(tick)).deleted)
    {
      var a := Others();
      r := if a.fails then Raised else Answer(key in objects);
    }

    /** Reads an object, for its JSON or for its checksum. */
    method Read(key: string) returns (r: Reply<Option<Content>>)
      requires Valid()
      modifies this
      ensures Valid() && Extends(trace, old(trace)) && tick == old(tick) + 1
      ensures r.Raised? <==> around(old(tick)).fails
      ensures r.Answer? ==> r.value == if key in objects then Some(objects[key]) else None
      ensures objects == around(old(tick)).put + (old(objects) - around(old(tick)).deleted)
    {
      var a := Others();
      r := if a.fails then Raised else Answer(if key in objects then Some(objects[key]) else None);
    }

    /** The conditional put: stores only under a free key. The request may be repeated on the way, and
        then meets the object it has just stored. */
    method PutObject(key: string, body: Content) returns (r: PutReply)
      requires Valid()
      modifies this
      ensures Valid() && Extends(trace, old(trace)) && tick == old(tick) + 1
      ensures r.Accepted? ==> Stored(trace, key, body) && !Steady(trace, key, |old(trace)| - 1, |trace| - 1)
      ensures r.Error? <==> around(old(tick)).fails
      ensures !r.Error? ==> key in objects
      ensures key !in old(objects) && !r.Error? && key !in around(old(tick)).put ==> Stored(trace, key, body)
    {
      var a := Others();
      if key in objects {
        r := if a.fails then Error else Conflict;
      } else {
        ghost var n := |trace| - 1;
        if !a.fails || a.took {
          Become(objects[key := body]);
        }
        assert key !in trace[n];
        r := if a.fails then Error else if a.repeated then Conflict else Accepted;
      }
    }

    /** Success means that the object now stored is the writer's own. An object that stays in place is
        confirmed when it is equal and refused when it is not, and is not replaced either way. */
    method PutImmutable(key: string, body: Content) returns (r: Outcome)
      requires Valid()
      modifies this
      ensures Valid() && Extends(trace, old(trace)) && tick >= old(tick)
      ensures !r.Refused? ==> Stored(trace, key, body)
      ensures Steady(trace, key, |old(trace)| - 1, |trace| - 1) ==>
                !r.Uploaded? && (old(objects)[key] != body ==> r.Refused?)
      ensures Steady(trace, key, |old(trace)| - 1, |trace| - 1) && old(objects)[key] == body
              && Quiet(around, old(tick), tick)
              ==> r.Existing?
      ensures Quiet(around, old(tick), tick) ==> (r.Refused? <==> !Stored(trace, key, body))
      ensures Quiet(around, old(tick), tick) && Undeleted(around, key, old(tick), tick) ==> key in objects
      ensures Quiet(around, old(tick), tick) && Undeleted(around, key, old(tick), tick) && key !in old(objects)
              && Alone(around, key, old(tick), tick)
              ==> Stored(trace, key, body)
    {
      ghost var from := |trace| - 1;
      var existing := Head(key);
      if existing.Raised? {
        r := Refused;
      } else if existing.value {
        r := Compare(key, body);
      } else {
        r := PutAbsent(key, body);
      }
      if Steady(trace, key, from, |trace| - 1) {
        SteadyKeepsBytes(trace, key, from, |trace| - 1);
      }
    }

    method PutAbsent(key: string, body: Content) returns (r: Outcome)
      requires Valid() && key !in objects
      modifies this
      ensures Valid() && Extends(trace, old(trace)) && tick >= old(tick)
      ensures !r.Refused? ==> Stored(trace, key, body)
      ensures Quiet(around, old(tick), tick) ==> (r.Refused? <==> !Stored(trace, key, body))
      ensures Quiet(around, old(tick), tick) && Undeleted(around, key, old(tick), tick) ==> key in objects
      ensures Quiet(around, old(tick), tick) && Undeleted(around, key, old(tick), tick)
              && Alone(around, key, old(tick), tick)
              ==> Stored(trace, key, body)
    {
      var put := PutObject(key, body);
      match put {
        case Accepted => r := Uploaded;
        case Conflict => r := Compare(key, body);
        case Error => r := Refused;
      }
    }

    method Compare(key: string, body: Content) returns (r: Outcome)
      requires Valid()
      modifies this
      ensures Valid() && Extends(trace, old(trace)) && tick == old(tick) + 1
      ensures r == if !around(old(tick)).fails && Stored(trace, key, body) then Existing else Refused
      ensures objects == around(old(tick)).put + (old(objects) - around(old(tick)).deleted)
    {
      var actual := Read(key);
      r := if actual.Answer? && actual.value == Some(body) then Existing else Refused;
    }

    /** Writes a release's marker, or confirms the one that is there with the time that it names. */
    method EnsureMarker(key: string, release: string, deployedAt: Timestamp) returns (r: Option<Content>)
      requires Valid()
      modifies this
      ensures Valid() && Extends(trace, old(trace)) && tick >= old(tick)
      ensures r.Some? ==> r.value.MarkerOf? && r.value.release == release && Stored(trace, key, r.value)
      ensures Quiet(around, old(tick), tick) ==>
                forall at: Timestamp :: Stays(trace, key, |old(trace)| - 1, MarkerOf(release, at)) ==>
                  r == Some(MarkerOf(release, at))
      ensures Quiet(around, old(tick), tick) && Undeleted(around, key, old(tick), tick)
              && Alone(around, key, old(tick), tick)
              && key !in old(objects)
              ==> r == Some(MarkerOf(release, deployedAt))
    {
      var existing := Read(key);
      if existing.Raised? { return None; }
      var marker := MarkerOf(release, deployedAt);
      if existing.value.Some? {
        if !existing.value.value.MarkerOf? || existing.value.value.release != release { return None; }
        marker := existing.value.value;
      }
      var put := PutImmutable(key, marker);
      r := if put.Refused? then None else Some(marker);
    }

    /** Any number of finalizations of releases, each under its own key and with its own time. However
        deletions and other writers fall between, two that succeed under one key which stayed present
        meanwhile have the same marker: the first time is kept. */
    method FinalizeAll(todo: seq<Finalization>) returns (results: seq<Option<Content>>, ghost at: seq<nat>)
      requires Valid()
      modifies this
      ensures Valid() && Extends(trace, old(trace))
      ensures |results| == |todo| == |at|
      ensures forall i :: 0 <= i < |todo| ==> at[i] < |trace| && |old(trace)| <= at[i] + 1
      ensures forall i :: 0 <= i < |todo| && results[i].Some? ==> Confirmed(trace, todo[i], results[i].value, at[i])
      ensures forall i, j :: 0 <= i < j < |todo| && results[i].Some? && results[j].Some?
                             && SameStay(trace, todo, at, i, j)
                ==> at[i] <= at[j] && results[i] == results[j]
    {
      results, at := [], [];
      for n := 0 to |todo|
        invariant Valid() && Extends(trace, old(trace))
        invariant |results| == n == |at|
        invariant forall i :: 0 <= i < n ==> at[i] < |trace| && |old(trace)| <= at[i] + 1
        invariant forall i, j :: 0 <= i < j < n ==> at[i] <= at[j]
        invariant forall i :: 0 <= i < n && results[i].Some? ==> Confirmed(trace, todo[i], results[i].value, at[i])
      {
        var result := EnsureMarker(todo[n].key, todo[n].release, todo[n].deployedAt);
        results := results + [result];
        at := at + [|trace| - 1];
      }
      forall i, j | 0 <= i < j < |todo| && results[i].Some? && results[j].Some? && SameStay(trace, todo, at, i, j)
        ensures results[i] == results[j]
      {
        SteadyKeepsBytes(trace, todo[i].key, at[i], at[j]);
      }
    }
  }

  datatype Finalization = Finalization(key: string, release: string, deployedAt: Timestamp)

  /** Both are about one key, which was present from the one moment to the other. */
  predicate SameStay(trace: Trace, todo: seq<Finalization>, at: seq<nat>, i: nat, j: nat)
    requires i < |todo| == |at| && j < |todo|
  {
    todo[i].key == todo[j].key && Steady(trace, todo[i].key, at[i], at[j])
  }

  predicate Confirmed(trace: Trace, f: Finalization, c: Content, n: nat) {
    && c.MarkerOf? && c.release == f.release
    && n < |trace| && f.key in trace[n] && trace[n][f.key] == c
  }
}
