/** The bounded log buffer of internal/logbuf/ring.go: a circular buffer with
    cursors, and the history-based meaning its readers depend on. */
module LogRing {

  const MaxUint64 := 0xFFFF_FFFF_FFFF_FFFF
  const MaxInt := 0x7FFF_FFFF_FFFF_FFFF

  // ---------- Meaning, in terms of everything ever added ----------

  function Retained<T>(limit: int, history: seq<T>): nat {
    if limit <= 0 then 0 else if |history| <= limit then |history| else limit
  }

  /** The newest `limit` entries of the history. */
  function Window<T>(limit: int, history: seq<T>): seq<T> {
    history[|history| - Retained(limit, history)..]
  }

  /** The position after the newest entry; a disabled buffer counts nothing. */
  function Cursor<T>(limit: int, history: seq<T>): nat {
    if limit <= 0 then 0 else |history|
  }

  /** Log changes after a cursor (LogBatch in internal/supervisor/supervisor.go). */
  datatype Batch<T> = Batch(entries: seq<T>, cursor: nat, retained: nat, reset: bool)

  /** What a read from a cursor must return: exactly the later entries when the
      cursor lies within the retained range, otherwise the whole window. */
  function Since<T>(limit: int, history: seq<T>, cursor: nat): Batch<T> {
    var retained := Retained(limit, history);
    var next := Cursor(limit, history);
    if next - retained <= cursor <= next then
      Batch(if limit <= 0 then [] else history[cursor..], next, retained, false)
    else
      Batch(Window(limit, history), next, retained, true)
  }

  lemma WindowSnoc<T>(limit: int, history: seq<T>, item: T)
    ensures limit <= 0 ==> Window(limit, history + [item]) == []
    ensures 0 < limit && |history| < limit ==> Window(limit, history + [item]) == Window(limit, history) + [item]
    ensures 0 < limit <= |history| ==> Window(limit, history + [item]) == Window(limit, history)[1..] + [item]
  {
  }

  /** A read in terms of the window, for a buffer that stands at next. */
  function ReadFrom<T>(limit: int, history: seq<T>, next: nat, cursor: nat): Batch<T>
    requires Retained(limit, history) <= next
  {
    var retained := Retained(limit, history);
    if retained == 0 then Batch([], next, 0, cursor != next)
    else if next - retained <= cursor <= next then
      Batch(Window(limit, history)[cursor - (next - retained)..], next, retained, false)
    else Batch(Window(limit, history), next, retained, true)
  }

  lemma SinceCases<T>(limit: int, history: seq<T>, cursor: nat)
    ensures |Window(limit, history)| == Retained(limit, history) <= Cursor(limit, history)
    ensures Since(limit, history, cursor) == ReadFrom(limit, history, Cursor(limit, history), cursor)
  {
    var retained, next := Retained(limit, history), Cursor(limit, history);
    if retained > 0 && next - retained <= cursor <= next {
      assert history[cursor..] == Window(limit, history)[cursor - (next - retained)..];
    }
  }

  // ---------- The buffer ----------

  /** The slots read from start onwards, wrapping around. */
  function Unrolled<T>(items: seq<T>, start: nat): seq<T>
    requires start <= |items|
  {
    items[start..] + items[..start]
  }

  lemma WrapIndex(start: nat, i: nat, n: nat)
    requires start < n && i < n
    ensures (start + i) % n == if start + i < n then start + i else start + i - n
  {
    if start + i >= n {
      assert start + i == n + (start + i - n);
    }
  }

  /** The slot of the i-th oldest item. */
  function Slot(start: nat, i: nat, n: nat): nat
    requires n > 0
  {
    (start + i) % n
  }

  lemma UnrolledAt<T>(items: seq<T>, start: nat, i: nat)
    requires i < |items| && start < |items|
    ensures Slot(start, i, |items|) < |items| && items[Slot(start, i, |items|)] == Unrolled(items, start)[i]
  {
    WrapIndex(start, i, |items|);
  }

  lemma NextIndex(start: nat, n: nat)
    requires start < n
    ensures (start + 1) % n == if start + 1 == n then 0 else start + 1
  {
  }

  lemma OverwriteAt<T>(items: seq<T>, start: nat, item: T, next: nat)
    requires start < |items| && next == if start + 1 == |items| then 0 else start + 1
    ensures Unrolled(items[start := item], next) == Unrolled(items, start)[1..] + [item]
  {
    var s := items[start := item];
    assert s[start + 1..] == items[start + 1..] && s[..start] == items[..start];
    if next == 0 {
      assert Unrolled(s, 0) == s[..start] + [item];
    } else {
      assert s[..start + 1] == s[..start] + [item];
    }
  }

  /** Overwriting the oldest slot and advancing start drops the oldest entry. */
  lemma OverwriteOldest<T>(items: seq<T>, start: nat, item: T)
    requires start < |items|
    ensures Unrolled(items[start := item], (start + 1) % |items|) == Unrolled(items, start)[1..] + [item]
  {
    hide Unrolled;
    NextIndex(start, |items|);
    OverwriteAt(items, start, item, (start + 1) % |items|);
  }

  /** The cursor after a number of adds. It counts them up to its largest value; the next
      add takes it back to the limit, and so after every 2^64 - limit further adds. */
  function Position(limit: int, adds: nat): (r: nat)
    requires limit <= MaxInt
    ensures r <= MaxUint64 && (0 < limit <= adds ==> limit <= r)
  {
    if limit <= 0 then 0
    else if adds <= MaxUint64 then adds
    else Position(limit, adds - (MaxUint64 + 1 - limit))
  }

  /** One more add moves the cursor on by one, or from its largest value to the number of
      items. */
  lemma {:induction false} PositionNext(limit: int, adds: nat)
    requires 0 < limit <= MaxInt
    ensures Position(limit, adds + 1) == NextRevision(Position(limit, adds), if adds < limit then adds + 1 else limit)
  {
    if adds > MaxUint64 {
      PositionNext(limit, adds - (MaxUint64 + 1 - limit));
    }
  }

  /** Within fewer adds than the cursor takes to come back, it has moved on by their number,
      or has wrapped and is smaller than before. */
  lemma {:induction false} PositionGap(limit: int, before: nat, after: nat)
    requires 0 < limit <= MaxInt && before <= after < before + MaxUint64 + 1 - limit
    ensures Position(limit, after) == Position(limit, before) + (after - before) || Position(limit, after) < Position(limit, before)
  {
    if before > MaxUint64 {
      PositionGap(limit, before - (MaxUint64 + 1 - limit), after - (MaxUint64 + 1 - limit));
    }
  }

  /** A reader that comes back with an earlier cursor gets exactly what was added since, or is
      told to start over with the whole window. A wrap of the cursor in between does not
      mislead it, unless the cursor has come back to where it was. */
  lemma ReadAcrossWrap<T>(limit: int, history: seq<T>, read: nat)
    requires 0 < limit <= MaxInt && read <= |history| < read + MaxUint64 + 1 - limit
    ensures Retained(limit, history) <= Position(limit, |history|)
    ensures var batch := ReadFrom(limit, history, Position(limit, |history|), Position(limit, read));
            && (!batch.reset ==> batch.entries == history[read..])
            && (batch.reset ==> batch.entries == Window(limit, history))
            && (batch.reset <==> |history| - read > Retained(limit, history) || Position(limit, |history|) < Position(limit, read))
  {
    hide Position;
    PositionGap(limit, read, |history|);
    assert Position(limit, |history|) >= Retained(limit, history) by { PositionEnough(limit, |history|); }
    var next, cursor := Position(limit, |history|), Position(limit, read);
    if next - Retained(limit, history) <= cursor <= next {
      assert Window(limit, history)[cursor - (next - Retained(limit, history))..] == history[read..];
    }
  }

  lemma PositionEnough(limit: int, adds: nat)
    requires 0 < limit <= MaxInt
    ensures Position(limit, adds) >= if adds <= limit then adds else limit
  {
  }

  /** What the fields of a ring say about its history. */
  ghost predicate Holds<T>(limit: int, items: seq<T>, start: nat, revision: nat, history: seq<T>) {
    && limit <= MaxInt
    && |items| == Retained(limit, history)
    && (|items| < limit || limit <= 0 ==> start == 0)
    && (0 < limit == |items| ==> start < limit)
    && start <= |items| && Unrolled(items, start) == Window(limit, history)
    && revision == Position(limit, |history|)
  }

  function NextRevision(revision: nat, count: nat): nat {
    if revision == MaxUint64 then count else revision + 1
  }

  lemma AddDisabled<T>(limit: int, items: seq<T>, start: nat, revision: nat, history: seq<T>, item: T)
    requires Holds(limit, items, start, revision, history) && limit <= 0
    ensures Holds(limit, items, start, revision, history + [item])
  {
  }

  lemma AddGrowing<T>(limit: int, items: seq<T>, start: nat, revision: nat, history: seq<T>, item: T)
    requires Holds(limit, items, start, revision, history) && |items| < limit
    ensures Holds(limit, items + [item], start, NextRevision(revision, |items| + 1), history + [item])
  {
    PositionNext(limit, |history|);
    WindowSnoc(limit, history, item);
    assert Unrolled(items, 0) == items && Unrolled(items + [item], 0) == items + [item];
  }

  lemma AddOverwriting<T>(limit: int, items: seq<T>, start: nat, revision: nat, history: seq<T>, item: T)
    requires Holds(limit, items, start, revision, history) && 0 < limit <= |items|
    ensures start < |items| && limit == |items|
    ensures Holds(limit, items[start := item], (start + 1) % limit, NextRevision(revision, |items|), history + [item])
  {
    PositionNext(limit, |history|);
    WindowSnoc(limit, history, item);
    OverwriteOldest(items, start, item);
  }

  class Ring<T> {
    const limit: int
    var items: seq<T>
    var start: nat
    var revision: nat
    /** Everything added so far. */
    ghost var history: seq<T>

    ghost predicate Valid()
      reads this
    {
      Holds(limit, items, start, revision, history)
    }

    constructor (limit: int)
      requires limit <= MaxInt
      ensures Valid() && this.limit == limit && history == []
    {
      this.limit := limit;
      items, start, revision, history := [], 0, 0, [];
    }

    method Add(item: T)
      requires Valid()
      modifies this
      ensures Valid() && history == old(history) + [item]
    {
      hide Holds, Position, Window, Retained;
      if limit <= 0 {
        AddDisabled(limit, items, start, revision, history, item);
        history := history + [item];
        return;
      }
      if |items| < limit {
        AddGrowing(limit, items, start, revision, history, item);
        items := items + [item];
      } else {
        AddOverwriting(limit, items, start, revision, history, item);
        items := items[start := item];
        start := (start + 1) % limit;
      }
      if revision == MaxUint64 {
        revision := |items|;
      } else {
        revision := revision + 1;
      }
      history := history + [item];
    }

    lemma Facts()
      requires Valid()
      ensures limit <= MaxInt && revision == Position(limit, |history|)
      ensures |items| == Retained(limit, history) == |Window(limit, history)| <= revision <= MaxUint64
      ensures |history| <= MaxUint64 ==> revision == Cursor(limit, history)
    {
    }

    lemma ItemAt(i: nat)
      requires Valid() && i < |items|
      ensures Slot(start, i, |items|) < |items|
      ensures i < |Window(limit, history)| && items[Slot(start, i, |items|)] == Window(limit, history)[i]
    {
      UnrolledAt(items, start, i);
    }

    method Items() returns (out: seq<T>)
      requires Valid()
      ensures out == Window(limit, history)
    {
      hide *;
      Facts();
      if |items| == 0 {
        return [];
      }
      out := [];
      var i := 0;
      while i < |items|
        invariant 0 <= i <= |items|
        invariant out == Window(limit, history)[..i]
      {
        ItemAt(i);
        out := out + [items[Slot(start, i, |items|)]];
        i := i + 1;
      }
    }

    method State() returns (cursor: nat, retained: nat)
      requires Valid()
      ensures retained == Retained(limit, history) && cursor == Position(limit, |history|)
      ensures |history| <= MaxUint64 ==> cursor == Cursor(limit, history)
    {
      return revision, |items|;
    }

    /** Below the cursor wrap the result is the specified batch; beyond it the end of the
        window that the cursor marks now. */
    method ItemsSince(cursor: nat) returns (batch: Batch<T>)
      requires Valid() && cursor <= MaxUint64
      ensures limit <= MaxInt && Retained(limit, history) <= Position(limit, |history|)
      ensures batch == ReadFrom(limit, history, Position(limit, |history|), cursor)
      ensures |history| <= MaxUint64 ==> batch == Since(limit, history, cursor)
    {
      hide Ring.Valid, Since, Window, Retained, Cursor, Position, Slot;
      Facts();
      SinceCases(limit, history, cursor);
      var retained := |items|;
      var next := revision;
      if retained == 0 {
        return Batch([], next, 0, cursor != next);
      }
      var earliest := revision - retained;
      if cursor < earliest || cursor > revision {
        var all := Items();
        return Batch(all, next, retained, true);
      }
      var offset := cursor - earliest;
      var entries: seq<T> := [];
      var index := offset;
      while index < retained
        invariant offset <= index <= retained
        invariant entries == Window(limit, history)[offset..index]
      {
        ItemAt(index);
        entries := entries + [items[Slot(start, index, retained)]];
        index := index + 1;
      }
      assert Window(limit, history)[offset..index] == Window(limit, history)[offset..];
      return Batch(entries, next, retained, false);
    }
  }
}
