/** An assignment stream: the list handed out by the sampler together with
    the cursor of an iterator over it. */
module Streams {
  import opened Results

  datatype Stream<T> = Stream(items: seq<T>, cursor: nat)

  /** A stream over a fresh list, as `iter(list)` makes it. */
  function Start<T>(items: seq<T>): Stream<T> {
    Stream(items, 0)
  }

  /** `it.next()`: the item under the cursor, and the stream moved one
      step; `StopIteration` once the list is used up. */
  function Next<T>(s: Stream<T>): (r: Result<(T, Stream<T>)>)
    ensures r.Ok? <==> s.cursor < |s.items|
    ensures r.Err? ==> r.error == StopIteration
    ensures r.Ok? ==> r.value.0 == s.items[s.cursor]
    ensures r.Ok? ==> r.value.1 == Stream(s.items, s.cursor + 1)
  {
    if s.cursor < |s.items| then Ok((s.items[s.cursor], Stream(s.items, s.cursor + 1)))
    else Err(StopIteration)
  }

  /** An iterator's cursor never passes the end of its list. */
  predicate Valid<T>(s: Stream<T>) {
    s.cursor <= |s.items|
  }

  /** Whether `n` more items can still be drawn. */
  predicate Holds<T>(s: Stream<T>, n: nat) {
    s.cursor + n <= |s.items|
  }

  /** The stream after `n` draws. */
  function Skip<T>(s: Stream<T>, n: nat): Stream<T> {
    Stream(s.items, s.cursor + n)
  }

  /** `k` successive `it.next()` calls: the items drawn, in order, and the
      stream after them; the first `StopIteration` ends the calls. */
  function Draw<T>(s: Stream<T>, k: nat): Result<(seq<T>, Stream<T>)>
    decreases k
  {
    if k == 0 then Ok(([], s))
    else
      match Next(s)
      case Err(e) => Err(e)
      case Ok(first) =>
        match Draw(first.1, k - 1)
        case Err(e) => Err(e)
        case Ok(rest) => Ok(([first.0] + rest.0, rest.1))
  }

  /** Drawing `k` times succeeds exactly when `k` items remain; it then
      yields the next `k` items in list order and moves the cursor by `k`,
      and otherwise stops with `StopIteration`. */
  lemma {:induction false} DrawInOrder<T>(s: Stream<T>, k: nat)
    requires Valid(s)
    ensures Draw(s, k).Ok? <==> Holds(s, k)
    ensures Holds(s, k) ==> Draw(s, k) == Ok((s.items[s.cursor..s.cursor + k], Skip(s, k)))
    ensures !Holds(s, k) ==> Draw(s, k) == Err(StopIteration)
    decreases k
  {
    if k > 0 && s.cursor < |s.items| {
      var t := Stream(s.items, s.cursor + 1);
      DrawInOrder(t, k - 1);
      if Holds(s, k) {
        var window := s.items[s.cursor..s.cursor + k];
        assert window[0] == s.items[s.cursor];
        assert window[1..] == t.items[t.cursor..t.cursor + (k - 1)];
        assert window == [window[0]] + window[1..];
      }
    } else if k == 0 {
      assert s.items[s.cursor..s.cursor] == [] && Skip(s, 0) == s;
    }
  }

  /** An iterator over a fresh list hands out the list's first `k` items in
      order, and a draw past the end of the list is `StopIteration`. */
  lemma DrainFresh<T>(xs: seq<T>, k: nat)
    ensures k <= |xs| ==> Draw(Start(xs), k) == Ok((xs[..k], Stream(xs, k)))
    ensures k <= |xs| ==> (Next(Stream(xs, k)).Err? <==> k == |xs|)
    ensures k > |xs| ==> Draw(Start(xs), k) == Err(StopIteration)
  {
    DrawInOrder(Start(xs), k);
  }
}
