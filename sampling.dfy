/**
 * The reservoir sampler the agent submits force-sampled spans to
 * (lib/agent/reservoir_sampler, exercised by lib/agent/reservoir_sampler.spec.js).
 *
 * The sampler keeps at most `sizeLimit` items out of the `itemsSeen` it has
 * been offered. While fewer than `sizeLimit` have been seen every item is
 * kept; after that the item draws a slot and is kept, in that slot, only
 * when the slot is below `sizeLimit`. The draw is an argument, `draw`. The
 * model assumes it is `floor(random * itemsSeen)`; the tests fix only that,
 * with limit 1 and one item seen, random 0 admits and random 1 rejects.
 */
module Sampling {

  /** The value of a sampler: its size limit, how many items it was offered, and the items it kept. */
  datatype Reservoir<T> = Reservoir(limit: nat, seen: nat, items: seq<T>)

  /** What every sampler satisfies, including one whose `itemsSeen` a test has set by hand. */
  predicate Bounded<T>(r: Reservoir<T>)
  {
    |r.items| <= r.limit && |r.items| <= r.seen
  }

  /** What a sampler used only through `addReturnsSuccess` satisfies: no slot is ever left empty. */
  predicate Dense<T>(r: Reservoir<T>)
  {
    |r.items| == if r.seen < r.limit then r.seen else r.limit
  }

  /** `new ReservoirSampler(limit)`. */
  function Fresh<T>(limit: nat): (r: Reservoir<T>)
    ensures r.limit == limit && r.seen == 0 && r.items == []
  {
    Reservoir(limit, 0, [])
  }

  /** Whether the next offered item is kept when the random slot is `draw`. */
  predicate Admits<T>(r: Reservoir<T>, draw: nat): (b: bool)
    ensures r.seen < r.limit ==> b
    ensures r.seen >= r.limit ==> (b <==> draw < r.limit)
  {
    r.seen < r.limit || draw < r.limit
  }

  /** `addReturnsSuccess(item)` with the random slot `draw`, on the sampler's value. */
  function Add<T>(r: Reservoir<T>, item: T, draw: nat): (r': Reservoir<T>)
    ensures r'.limit == r.limit && r'.seen == r.seen + 1
    ensures |r.items| <= |r'.items| <= |r.items| + 1
    ensures forall x :: x in r'.items ==> x in r.items || x == item
    // at most one slot changes: every held item outside the drawn slot stays where it was
    ensures forall j :: 0 <= j < |r.items| && j != draw ==> r'.items[j] == r.items[j]
    // an item admitted past the limit into a held slot evicts that one item and does not grow the sampler
    ensures r.seen >= r.limit && draw < r.limit && draw < |r.items| ==> |r'.items| == |r.items| && r'.items[draw] == item
    // below the limit, every held item stays where it was
    ensures r.seen < r.limit ==> r'.items[..|r.items|] == r.items
  {
    if r.seen < r.limit then
      Reservoir(r.limit, r.seen + 1, r.items + [item])
    else if draw < r.limit then
      Reservoir(r.limit, r.seen + 1, if draw < |r.items| then r.items[draw := item] else r.items + [item])
    else
      Reservoir(r.limit, r.seen + 1, r.items)
  }

  lemma FreshIsDense<T>(limit: nat)
    ensures Dense(Fresh<T>(limit)) && Bounded(Fresh<T>(limit))
  {
  }

  lemma DenseIsBounded<T>(r: Reservoir<T>)
    requires Dense(r)
    ensures Bounded(r)
  {
  }

  /** The size limit is never exceeded by an add. */
  lemma AddPreservesBounded<T>(r: Reservoir<T>, item: T, draw: nat)
    requires Bounded(r)
    ensures Bounded(Add(r, item, draw))
    ensures Add(r, item, draw).limit == r.limit && Add(r, item, draw).seen == r.seen + 1
  {
  }

  lemma AddPreservesDense<T>(r: Reservoir<T>, item: T, draw: nat)
    requires Dense(r)
    ensures Dense(Add(r, item, draw))
  {
  }

  /**
   * An admitted item is among the kept items afterwards; a rejected one
   * leaves the kept items as they were.
   */
  lemma AddKeepsAdmitted<T>(r: Reservoir<T>, item: T, draw: nat)
    ensures Admits(r, draw) ==> item in Add(r, item, draw).items
    ensures !Admits(r, draw) ==> Add(r, item, draw).items == r.items
  {
    if Admits(r, draw) && r.seen >= r.limit && draw < |r.items| {
      assert r.items[draw := item][draw] == item;
    }
  }

  /** Below the size limit the draw does not matter: the item is appended. */
  lemma BelowLimitIgnoresDraw<T>(r: Reservoir<T>, item: T, draw1: nat, draw2: nat)
    requires r.seen < r.limit
    ensures Add(r, item, draw1) == Add(r, item, draw2)
    ensures Admits(r, draw1) && Add(r, item, draw1).items == r.items + [item]
  {
  }

  /** Offering the items of `stream` one by one, the i-th with the random slot `draws[i]`. */
  function Feed<T>(r: Reservoir<T>, stream: seq<T>, draws: seq<nat>): (r': Reservoir<T>)
    requires |draws| == |stream|
    ensures r'.limit == r.limit && r'.seen == r.seen + |stream|
    ensures |r.items| <= |r'.items| <= |r.items| + |stream|
    decreases |stream|
  {
    if stream == [] then r
    else Feed(Add(r, stream[0], draws[0]), stream[1..], draws[1..])
  }

  /** Over any stream the sampler keeps at most `limit` items and counts every offer. */
  lemma {:induction false} FeedBounded<T>(r: Reservoir<T>, stream: seq<T>, draws: seq<nat>)
    requires |draws| == |stream|
    requires Bounded(r)
    ensures Bounded(Feed(r, stream, draws))
    ensures Feed(r, stream, draws).limit == r.limit
    ensures Feed(r, stream, draws).seen == r.seen + |stream|
    decreases |stream|
  {
    if stream != [] {
      AddPreservesBounded(r, stream[0], draws[0]);
      FeedBounded(Add(r, stream[0], draws[0]), stream[1..], draws[1..]);
    }
  }

  /** While the limit is not reached, every offered item is kept, in order. */
  lemma {:induction false} FeedKeepsAll<T>(r: Reservoir<T>, stream: seq<T>, draws: seq<nat>)
    requires |draws| == |stream|
    requires r.seen + |stream| <= r.limit
    ensures Feed(r, stream, draws).items == r.items + stream
    decreases |stream|
  {
    if stream != [] {
      FeedKeepsAll(Add(r, stream[0], draws[0]), stream[1..], draws[1..]);
      assert r.items + [stream[0]] + stream[1..] == r.items + stream;
    }
  }

  /** A fresh sampler offered at most `limit` items keeps exactly those items. */
  lemma FreshKeepsShortStream<T>(limit: nat, stream: seq<T>, draws: seq<nat>)
    requires |draws| == |stream| <= limit
    ensures Feed(Fresh(limit), stream, draws).items == stream
  {
    FeedKeepsAll(Fresh(limit), stream, draws);
  }

  /** Every kept item was offered: it was kept before or comes from the stream. */
  lemma {:induction false} FeedKeepsOnlyOffered<T>(r: Reservoir<T>, stream: seq<T>, draws: seq<nat>, x: T)
    requires |draws| == |stream|
    requires x in Feed(r, stream, draws).items
    ensures x in r.items || x in stream
    decreases |stream|
  {
    if stream != [] {
      var r' := Add(r, stream[0], draws[0]);
      FeedKeepsOnlyOffered(r', stream[1..], draws[1..], x);
      if x in r'.items && x != stream[0] && r.seen >= r.limit && draws[0] < |r.items| {
        var j :| 0 <= j < |r'.items| && r'.items[j] == x;
        assert r.items[j] == x;
      }
      assert x in stream[1..] ==> x in stream;
    }
  }

  /**
   * With a size limit of 1, a second item replaces the first when the draw
   * selects slot 0, and is discarded when the draw is any other slot.
   */
  lemma SingleSlotSecondItem<T>(first: T, second: T, draw1: nat, draw2: nat)
    ensures Add(Add(Fresh(1), first, draw1), second, draw2).items
            == if draw2 == 0 then [second] else [first]
  {
  }

  /** A sampler object; `itemsSeen` is public, and the tests set it directly. */
  class ReservoirSampler<T> {
    const sizeLimit: nat
    var itemsSeen: nat
    var items: seq<T>

    function View(): Reservoir<T>
      reads this
    {
      Reservoir(sizeLimit, itemsSeen, items)
    }

    predicate Valid()
      reads this
    {
      Bounded(View())
    }

    constructor (sizeLimit: nat)
      ensures Valid() && View() == Fresh(sizeLimit)
    {
      this.sizeLimit := sizeLimit;
      itemsSeen := 0;
      items := [];
    }

    /** Offers `item`; `draw` is the slot `floor(random * itemsSeen)`. Says whether the item was kept. */
    method AddReturnsSuccess(item: T, draw: nat) returns (isAdded: bool)
      requires Valid()
      modifies this
      ensures Valid()
      ensures View() == Add(old(View()), item, draw)
      ensures isAdded == Admits(old(View()), draw)
    {
      isAdded := false;
      if itemsSeen < sizeLimit {
        items := items + [item];
        isAdded := true;
      } else if draw < sizeLimit {
        if draw < |items| {
          items := items[draw := item];
        } else {
          items := items + [item];
        }
        isAdded := true;
      }
      itemsSeen := itemsSeen + 1;
    }

    method GetItems() returns (kept: seq<T>)
      requires Valid()
      ensures kept == items
      ensures |kept| <= sizeLimit && |kept| <= itemsSeen
    {
      kept := items;
    }
  }

  /** 'adds the item' when the seen count is below the size limit: a fresh sampler of limit 3. */
  method AddsItemBelowLimit(item: string, draw: nat) returns (isAdded: bool, kept: seq<string>)
    ensures isAdded && kept == [item]
  {
    var sampler := new ReservoirSampler<string>(3);
    isAdded := sampler.AddReturnsSuccess(item, draw);
    kept := sampler.GetItems();
  }

  /** 'adds the item if selected': limit 1, one item already seen, random 0 draws slot 0. */
  method AddsItemIfSelected(item: string) returns (isAdded: bool)
    ensures isAdded
  {
    var sampler := new ReservoirSampler<string>(1);
    sampler.itemsSeen := 1;
    isAdded := sampler.AddReturnsSuccess(item, 0);
  }

  /** 'discards the item if not selected': limit 1, one item already seen, random 1 draws slot 1. */
  method DiscardsItemIfNotSelected(item: string) returns (isAdded: bool)
    ensures !isAdded
  {
    var sampler := new ReservoirSampler<string>(1);
    sampler.itemsSeen := 1;
    isAdded := sampler.AddReturnsSuccess(item, 1);
  }
}
