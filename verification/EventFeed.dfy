/** The event feed: events get consecutive numbers when they are published, an acknowledged prefix is
    pruned, and consumers page through the rest with signed cursors. */
module EventFeed {
  import opened Releases

  type Body = string

  datatype Event = Event(number: nat, body: Body)

  /** A cursor as it arrives: its parts, and whether its form and its signature are good. */
  datatype Cursor = Cursor(wellFormed: bool, signed: bool, source: string, property: string, number: nat)

  datatype Refusal = InvalidLimit | InsufficientAccess | InvalidCursor | CursorExpired

  datatype Page = Page(events: seq<Event>, next: nat, hasMore: bool, head: nat, floor: nat)

  datatype Reply = Answer(page: Page) | Refused(reason: Refusal)

  /** The stored rows after one number up to another, in order, at most so many. */
  function RowsAfter(published: map<nat, Body>, after: nat, head: nat, limit: nat): seq<Event>
    decreases head - after
  {
    if after >= head || limit == 0 then []
    else if after + 1 in published then
      [Event(after + 1, published[after + 1])] + RowsAfter(published, after + 1, head, limit - 1)
    else RowsAfter(published, after + 1, head, limit)
  }

  function Numbered(log: seq<Body>, from: nat, to: nat): (r: seq<Event>)
    requires from <= to <= |log|
    ensures |r| == to - from
    ensures forall i :: 0 <= i < |r| ==> r[i] == Event(from + i + 1, log[from + i])
  {
    seq(to - from, i requires 0 <= i < to - from => Event(from + i + 1, log[from + i]))
  }

  lemma {:induction false} RowsAreConsecutive(published: map<nat, Body>, log: seq<Body>, after: nat, limit: nat)
    requires after <= |log| && forall n :: after < n <= |log| ==> n in published && published[n] == log[n - 1]
    ensures var to := if |log| - after < limit then |log| else after + limit;
            RowsAfter(published, after, |log|, limit) == Numbered(log, after, to)
    decreases limit
  {
    if after < |log| && limit > 0 {
      RowsAreConsecutive(published, log, after + 1, limit - 1);
    }
  }

  lemma NumberedJoins(log: seq<Body>, from: nat, mid: nat, to: nat)
    requires from <= mid <= to <= |log|
    ensures Numbered(log, from, mid) + Numbered(log, mid, to) == Numbered(log, from, to)
  {
  }

  lemma NumberedGrows(log: seq<Body>, more: seq<Body>, from: nat, to: nat)
    requires from <= to <= |log|
    ensures Numbered(log + more, from, to) == Numbered(log, from, to)
  {
  }

  class Feed {
    const source: string
    const property: string
    var outbox: seq<Body>
    var published: map<nat, Body>
    var head: nat
    var floor: nat
    // Everything ever published, in order.
    ghost var log: seq<Body>

    ghost predicate Valid()
      reads this
    {
      && floor <= head == |log|
      && (forall n :: n in published <==> floor < n <= head)
      && (forall n :: n in published ==> published[n] == log[n - 1])
    }

    constructor (source: string, property: string)
      ensures Valid() && this.source == source && this.property == property && log == [] && outbox == [] && floor == 0
    {
      this.source, this.property, outbox, published, head, floor, log := source, property, [], map[], 0, 0, [];
    }

    method Record(body: Body)
      requires Valid()
      modifies this
      ensures Valid() && outbox == old(outbox) + [body] && log == old(log) && floor == old(floor)
      ensures log + outbox == old(log) + old(outbox) + [body]
    {
      outbox := outbox + [body];
    }

    /** Numbers the oldest unpublished events, at most so many at once. */
    method Publish(limit: nat) returns (count: nat)
      requires Valid() && 1 <= limit <= 100
      modifies this
      ensures Valid() && floor == old(floor)
      ensures count == if |old(outbox)| < limit then |old(outbox)| else limit
      ensures log == old(log) + old(outbox)[..count] && outbox == old(outbox)[count..]
      ensures log + outbox == old(log) + old(outbox)
    {
      count := 0;
      ghost var pending := outbox;
      while count < limit && outbox != []
        invariant Valid() && floor == old(floor)
        invariant count <= |pending| && count <= limit
        invariant log == old(log) + pending[..count] && outbox == pending[count..]
      {
        head := head + 1;
        published := published[head := outbox[0]];
        log := log + [outbox[0]];
        outbox := outbox[1..];
        count := count + 1;
      }
      assert pending == pending[..count] + pending[count..];
    }

    /** Removes everything before the first event that is still held back, and raises the floor. */
    method Prune(heldBack: set<nat>) returns (through: nat)
      requires Valid()
      modifies this
      ensures Valid() && log == old(log) && outbox == old(outbox)
      ensures floor == through && old(floor) <= floor
      ensures forall n :: n in old(published) && n in heldBack ==> n in published
      ensures floor < head ==> floor + 1 in heldBack
    {
      through := floor;
      while through < head && through + 1 !in heldBack
        invariant floor <= through <= head
        invariant forall n :: floor < n <= through ==> n !in heldBack
        decreases head - through
      {
        through := through + 1;
      }
      published := map n | n in published && n > through :: published[n];
      floor := through;
    }

    /** A readable cursor of another property. */
    predicate Foreign(c: Cursor) {
      c.wellFormed && c.property != property
    }

    predicate Genuine(c: Cursor)
      reads this
    {
      c.wellFormed && c.signed && c.source == source && c.property == property && c.number <= head
    }

    /** One page. Without a cursor it starts at the floor; a genuine cursor below the floor has expired. */
    method ReadPmsEventFeed(cursor: Option<Cursor>, limit: int) returns (r: Reply)
      requires Valid()
      ensures r == Refused(InvalidLimit) <==> !(1 <= limit <= 100)
      ensures 1 <= limit <= 100 && cursor.Some? && Foreign(cursor.value) ==>
                r == Refused(InsufficientAccess)
      ensures 1 <= limit <= 100 && cursor.Some? && !Genuine(cursor.value) && !Foreign(cursor.value) ==>
                r == Refused(InvalidCursor)
      ensures 1 <= limit <= 100 && (cursor.None? || Genuine(cursor.value)) ==>
                var consumed := if cursor.Some? then cursor.value.number else floor;
                (r == Refused(CursorExpired) <==> consumed < floor)
                && (consumed >= floor ==> r.Answer? && Follows(r.page, consumed, limit))
    {
      if limit < 1 || limit > 100 { return Refused(InvalidLimit); }
      var consumed := floor;
      if cursor.Some? {
        var c := cursor.value;
        if !c.wellFormed { return Refused(InvalidCursor); }
        if c.property != property { return Refused(InsufficientAccess); }
        if !c.signed { return Refused(InvalidCursor); }
        if c.source != source { return Refused(InvalidCursor); }
        consumed := c.number;
        if consumed > head { return Refused(InvalidCursor); }
        if consumed < floor { return Refused(CursorExpired); }
      }
      var rows := RowsAfter(published, consumed, head, limit + 1);
      RowsAreConsecutive(published, log, consumed, limit + 1);
      var selected := if |rows| > limit then rows[..limit] else rows;
      var next := if selected == [] then consumed else selected[|selected| - 1].number;
      r := Answer(Page(selected, next, |rows| > limit, head, floor));
    }

    /** The page holds the events right after the cursor, without a gap, as many as the limit lets
        through, and says truly whether there are more. */
    ghost predicate Follows(p: Page, consumed: nat, limit: nat)
      requires Valid()
      reads this
    {
      && consumed <= p.next <= head && p.next - consumed <= limit
      && p.events == Numbered(log, consumed, p.next)
      && (p.hasMore <==> p.next < head) && (p.hasMore ==> p.next - consumed == limit)
      && p.head == head && p.floor == floor
    }
  }

  datatype Action =
    | Recording(body: Body)
    | Publishing(batch: nat)
    | Pruning(heldBack: set<nat>)
    | Polling(limit: int, lost: bool)

  function Recorded(actions: seq<Action>): seq<Body> {
    if actions == [] then []
    else
      var last := actions[|actions| - 1];
      Recorded(actions[..|actions| - 1]) + if last.Recording? then [last.body] else []
  }

  /** A consumer that goes on from the last cursor it got; an answer may be lost on the way. */
  class Consumer {
    const feed: Feed
    var cursor: Option<Cursor>
    var received: seq<Event>
    var expired: bool
    ghost var start: nat

    constructor (feed: Feed)
      ensures this.feed == feed && cursor == None && received == [] && !expired
    {
      this.feed, cursor, received, expired, start := feed, None, [], false, 0;
    }

    /** Received so far is exactly what was published after the start, once and in order. */
    ghost predicate Complete()
      reads this, feed
    {
      && feed.Valid()
      && (cursor.None? ==> received == [])
      && (cursor.Some? ==>
            && feed.Genuine(cursor.value)
            && start <= cursor.value.number
            && received == Numbered(feed.log, start, cursor.value.number))
      && (expired ==> cursor.Some? && cursor.value.number < feed.floor)
    }

    method Poll(limit: int, lost: bool)
      requires Complete()
      modifies this
      ensures Complete()
      ensures old(received) <= received && (old(cursor).Some? ==> cursor.Some? && start == old(start))
      ensures 1 <= limit <= 100 && !old(expired) ==>
                (expired <==> old(cursor).Some? && old(cursor).value.number < feed.floor)
      ensures 1 <= limit <= 100 && !lost && !expired ==>
                && cursor.Some? && feed.floor <= cursor.value.number
                && (cursor.value.number == feed.head || |received| == |old(received)| + limit)
    {
      if expired { return; }
      var reply := feed.ReadPmsEventFeed(cursor, limit);
      match reply {
        case Answer(page) =>
          if !lost {
            if cursor.None? { start := feed.floor; }
            ghost var from := if cursor.Some? then cursor.value.number else feed.floor;
            NumberedJoins(feed.log, start, from, page.next);
            received := received + page.events;
            cursor := Some(Cursor(true, true, feed.source, feed.property, page.next));
          }
        case Refused(reason) =>
          if reason == CursorExpired { expired := true; }
      }
    }

    /** Polls until the feed says that there is no more. */
    method CatchUp(limit: int)
      requires Complete() && 1 <= limit <= 100 && (cursor.Some? ==> feed.floor <= cursor.value.number) && !expired
      modifies this
      ensures Complete() && !expired && cursor.Some? && cursor.value.number == feed.head
      ensures received == Numbered(feed.log, start, |feed.log|)
    {
      Poll(limit, false);
      while cursor.value.number < feed.head
        invariant Complete() && !expired && cursor.Some? && feed.floor <= cursor.value.number
        decreases feed.head - cursor.value.number
      {
        Poll(limit, false);
      }
    }

    /** Whatever is recorded, published, pruned and polled: every event after the start exactly once in
        rising order up to the cursor, or an expired cursor; and every recorded event is published or
        still pending, once and in its order. */
    method Follow(actions: seq<Action>)
      requires Complete()
      modifies this, feed
      ensures Complete() && old(received) <= received && old(feed.log) <= feed.log
      ensures feed.log + feed.outbox == old(feed.log) + old(feed.outbox) + Recorded(actions)
    {
      for n := 0 to |actions|
        invariant Complete() && old(received) <= received && old(feed.log) <= feed.log
        invariant feed.log + feed.outbox == old(feed.log) + old(feed.outbox) + Recorded(actions[..n])
      {
        assert actions[..n + 1] != [] && actions[..n + 1][..n] == actions[..n];
        Act(actions[n]);
      }
      assert actions[..|actions|] == actions;
    }

    method Act(action: Action)
      requires Complete()
      modifies this, feed
      ensures Complete() && old(received) <= received && old(feed.log) <= feed.log
      ensures feed.log + feed.outbox ==
                old(feed.log) + old(feed.outbox) + if action.Recording? then [action.body] else []
      ensures action.Publishing? && 1 <= action.batch <= 100 ==>
                |feed.log| - |old(feed.log)| ==
                if |old(feed.outbox)| < action.batch then |old(feed.outbox)| else action.batch
      ensures action.Polling? && 1 <= action.limit <= 100 && !action.lost && !expired ==>
                && cursor.Some? && feed.floor <= cursor.value.number
                && (cursor.value.number == feed.head || |received| == |old(received)| + action.limit)
    {
      match action {
        case Recording(body) => feed.Record(body);
        case Publishing(batch) =>
          if 1 <= batch <= 100 {
            ghost var before := feed.log;
            var count := feed.Publish(batch);
            if cursor.Some? { NumberedGrows(before, feed.log[|before|..], start, cursor.value.number); }
          }
        case Pruning(heldBack) =>
          var _ := feed.Prune(heldBack);
        case Polling(limit, lost) => Poll(limit, lost);
      }
    }
  }
}
