/**
 * The bounded history log that `saveToHistory` and `getHistory` keep in one
 * localStorage slot: newest result first, truncated to a fixed capacity
 * (20 campaigns, 10 research runs). JSON encoding is abstracted: the slot holds
 * either nothing, the empty string, text that `JSON.parse` rejects, or a list.
 */
module History {
  import opened Wrappers

  /** What `localStorage.getItem(key)` can hold, after abstracting JSON. */
  datatype Stored<R> =
    | Missing                           // getItem returns null
    | Blank                             // the empty string, which is falsy
    | Unparsable(parseError: string)    // JSON.parse throws an Error with this message
    | Entries(items: seq<R>)            // a serialised array

  /** `s.slice(0, n)` */
  function Take<R>(s: seq<R>, n: nat): (r: seq<R>)
    ensures |r| <= n && |r| <= |s|
    ensures |r| == n || r == s
    ensures forall i :: 0 <= i < |r| ==> r[i] == s[i]
  {
    if |s| <= n then s else s[..n]
  }

  /**
   * The log after `history.unshift(r)` and `history.slice(0, capacity)`:
   * r at the head, at most `capacity` entries, the kept older entries in their old order.
   */
  function Pushed<R>(r: R, log: seq<R>, capacity: nat): (p: seq<R>)
    ensures |p| == if |log| + 1 <= capacity then |log| + 1 else capacity
    ensures capacity > 0 ==> p[0] == r
    ensures forall i :: 0 <= i < |p| - 1 ==> p[i + 1] == log[i]
  {
    Take([r] + log, capacity)
  }

  /** What `getHistory` returns for a slot: `existing ? JSON.parse(existing) : []`. */
  function Listed<R>(slot: Stored<R>): (res: Result<seq<R>>)
    ensures res.Err? <==> slot.Unparsable?
    ensures slot.Unparsable? ==> res == Err(slot.parseError)
    ensures slot.Entries? ==> res == Ok(slot.items)
    ensures (slot.Missing? || slot.Blank?) ==> res == Ok([])
  {
    match slot
    case Missing => Ok([])
    case Blank => Ok([])
    case Unparsable(e) => Err(e)
    case Entries(items) => Ok(items)
  }

  /** The slot after `saveToHistory(r)`: unchanged when parsing throws, otherwise the pushed log. */
  function Saved<R>(slot: Stored<R>, r: R, capacity: nat): Stored<R>
  {
    match Listed(slot)
    case Err(_) => slot
    case Ok(log) => Entries(Pushed(r, log, capacity))
  }

  /** One history slot, updated in place by `saveToHistory` and read by `getHistory`. */
  class HistoryStore<R> {
    const capacity: nat
    var slot: Stored<R>

    /** The slot as the page finds it when it loads. */
    constructor (capacity: nat, initial: Stored<R>)
      ensures this.capacity == capacity && slot == initial
    {
      this.capacity := capacity;
      slot := initial;
    }

    /**
     * saveToHistory: parse the slot, put r at the front, keep the first `capacity`
     * entries and write them back. Reports the parse error it throws, if any, in which
     * case nothing is written.
     */
    method Save(r: R) returns (thrown: Option<string>)
      modifies this
      ensures thrown.Some? <==> old(slot).Unparsable?
      ensures thrown.Some? ==> thrown.value == old(slot).parseError && slot == old(slot)
      ensures thrown.None? ==> slot == Entries(Pushed(r, Listed(old(slot)).value, capacity))
      ensures slot == Saved(old(slot), r, capacity)
    {
      var history: seq<R>;
      match slot {
        case Unparsable(e) =>
          return Some(e);
        case Missing =>
          history := [];
        case Blank =>
          history := [];
        case Entries(items) =>
          history := items;
      }
      history := [r] + history;
      var limited := if |history| <= capacity then history else history[..capacity];
      slot := Entries(limited);
      thrown := None;
    }

    /** getHistory: a pure read of the slot. */
    method GetHistory() returns (res: Result<seq<R>>)
      ensures res == Listed(slot)
    {
      match slot {
        case Missing => res := Ok([]);
        case Blank => res := Ok([]);
        case Unparsable(e) => res := Err(e);
        case Entries(items) => res := Ok(items);
      }
    }
  }

  /** After a save that did not throw, listing the slot gives the pushed log: r first, at most `capacity` entries. */
  lemma ListAfterSave<R>(slot: Stored<R>, r: R, capacity: nat)
    requires capacity > 0
    requires !slot.Unparsable?
    ensures var res := Listed(Saved(slot, r, capacity));
      && res.Ok?
      && res.value == Pushed(r, Listed(slot).value, capacity)
      && res.value[0] == r
      && |res.value| <= capacity
  {
  }

  /** A log of at most `capacity` entries stays within capacity after any number of saves. */
  lemma SavedStaysBounded<R>(slot: Stored<R>, r: R, capacity: nat)
    requires Listed(slot).Ok? ==> |Listed(slot).value| <= capacity
    ensures var after := Listed(Saved(slot, r, capacity));
      after.Ok? ==> |after.value| <= capacity
  {
  }

  // ----- a run of saves -----

  function Reversed<R>(s: seq<R>): (r: seq<R>)
    ensures |r| == |s|
  {
    if s == [] then [] else [s[|s| - 1]] + Reversed(s[..|s| - 1])
  }

  /** The log after saving xs[0], xs[1], ... in that order, starting from `log`. */
  function PushAll<R>(log: seq<R>, xs: seq<R>, capacity: nat): seq<R>
  {
    if xs == [] then log else Pushed(xs[|xs| - 1], PushAll(log, xs[..|xs| - 1], capacity), capacity)
  }

  lemma TakeTwice<R>(x: R, s: seq<R>, n: nat)
    ensures Take([x] + Take(s, n), n) == Take([x] + s, n)
  {
    if |s| > n && n > 0 {
      assert ([x] + s[..n])[..n] == ([x] + s)[..n];
    }
  }

  /**
   * Saving a run of results keeps exactly the newest `capacity` of them and of the
   * old log, newest first.
   */
  lemma {:induction false} PushAllKeepsNewest<R>(log: seq<R>, xs: seq<R>, capacity: nat)
    requires |log| <= capacity
    ensures PushAll(log, xs, capacity) == Take(Reversed(xs) + log, capacity)
  {
    if xs != [] {
      var init, x := xs[..|xs| - 1], xs[|xs| - 1];
      PushAllKeepsNewest(log, init, capacity);
      TakeTwice(x, Reversed(init) + log, capacity);
      assert Reversed(xs) == [x] + Reversed(init);
    }
  }

  /**
   * Saving capacity + 1 results into an empty log leaves exactly `capacity` entries,
   * newest first, and the first (oldest) result is the one evicted.
   */
  lemma OverflowEvictsOldest<R>(xs: seq<R>, capacity: nat)
    requires |xs| == capacity + 1
    ensures var log := PushAll([], xs, capacity);
      && |log| == capacity
      && forall i :: 0 <= i < capacity ==> log[i] == xs[capacity - i]
  {
    PushAllKeepsNewest([], xs, capacity);
    ReversedAt(xs);
  }

  lemma {:induction false} ReversedAt<R>(s: seq<R>)
    ensures forall i :: 0 <= i < |s| ==> Reversed(s)[i] == s[|s| - 1 - i]
  {
    if s != [] {
      ReversedAt(s[..|s| - 1]);
    }
  }
}
