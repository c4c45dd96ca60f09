/** Polling the indexer: pages chained by cursors, and attempts until something is found. */
module Poll {
  import opened Ideal

  // What one fetch returns; the next cursor names a later page of the chain.
  datatype Page<+X> = Page(transactions: seq<X>, next: Option<nat>)

  /** A finite cursor chain: the first fetch reads page 0, and every cursor leads forward. */
  predicate Chain<X, E>(pages: seq<Result<Page<X>, E>>) {
    && pages != []
    && forall i ::
         0 <= i < |pages| && pages[i].Ok? && pages[i].value.next.Some? ==> i < pages[i].value.next.value < |pages|
  }

  /* Scanning a list of transactions. */

  /** The successful scans in order, or the first scan error. */
  function ScanAll<X, T, E>(scan: X -> Result<Option<T>, E>, txs: seq<X>): Result<seq<T>, E> {
    if txs == [] then Ok([])
    else
      match ScanAll(scan, txs[..|txs| - 1])
      case Err(e) => Err(e)
      case Ok(found) =>
        match scan(txs[|txs| - 1])
        case Err(e) => Err(e)
        case Ok(None) => Ok(found)
        case Ok(Some(item)) => Ok(found + [item])
  }

  function Prefixed<T, E>(found: seq<T>, rest: Result<seq<T>, E>): Result<seq<T>, E> {
    match rest
    case Err(e) => Err(e)
    case Ok(more) => Ok(found + more)
  }

  lemma PrefixedTwice<T, E>(a: seq<T>, b: seq<T>, rest: Result<seq<T>, E>)
    ensures Prefixed([], rest) == rest
    ensures Prefixed(a, Prefixed(b, rest)) == Prefixed(a + b, rest)
  {
    if rest.Ok? {
      assert [] + rest.value == rest.value;
      assert a + (b + rest.value) == a + b + rest.value;
    }
  }

  /** Scanning a concatenation is scanning its parts: an error in the first part hides the second. */
  lemma {:induction false} ScanAllConcat<X, T, E>(scan: X -> Result<Option<T>, E>, a: seq<X>, b: seq<X>)
    ensures ScanAll(scan, a + b) == if ScanAll(scan, a).Err? then ScanAll(scan, a)
                                    else Prefixed(ScanAll(scan, a).value, ScanAll(scan, b))
    decreases b
  {
    if b == [] {
      assert a + b == a;
      if ScanAll(scan, a).Ok? {
        assert ScanAll(scan, a).value + [] == ScanAll(scan, a).value;
      }
    } else {
      var n := |b| - 1;
      ScanAllConcat(scan, a, b[..n]);
      assert (a + b)[..|a| + n] == a + b[..n];
      assert (a + b)[|a| + n] == b[n];
      if ScanAll(scan, a).Ok? && ScanAll(scan, b[..n]).Ok? && scan(b[n]).Ok? && scan(b[n]).value.Some? {
        var x, y, item := ScanAll(scan, a).value, ScanAll(scan, b[..n]).value, scan(b[n]).value.value;
        assert x + y + [item] == x + (y + [item]);
      }
    }
  }

  /** Independent reading of the result: it is Ok exactly when no scan fails, and then its items are
      the values of the scans that found something, each once and in order. */
  lemma {:induction false} ScanAllExactly<X, T, E>(scan: X -> Result<Option<T>, E>, txs: seq<X>)
    returns (positions: seq<nat>)
    ensures ScanAll(scan, txs).Ok? <==> forall i :: 0 <= i < |txs| ==> scan(txs[i]).Ok?
    ensures ScanAll(scan, txs).Ok? ==>
              && |positions| == |ScanAll(scan, txs).value|
              && (forall k :: 0 <= k < |positions| ==>
                    positions[k] < |txs| && scan(txs[positions[k]]) == Ok(Some(ScanAll(scan, txs).value[k])))
              && (forall k, l :: 0 <= k < l < |positions| ==> positions[k] < positions[l])
              && (forall i :: 0 <= i < |txs| && scan(txs[i]).value.Some? ==> i in positions)
  {
    positions := [];
    if txs != [] {
      var n := |txs| - 1;
      var before := txs[..n];
      positions := ScanAllExactly(scan, before);
      assert forall i :: 0 <= i < n ==> before[i] == txs[i];
      if ScanAll(scan, txs).Ok? && scan(txs[n]).value.Some? {
        ghost var earlier := positions;
        positions := positions + [n];
        assert positions[|earlier|] == n;
        assert forall i :: i in earlier ==> i in positions;
      }
    }
  }

  /** The error of a failed scan is the first one: every earlier scan succeeded. */
  lemma {:induction false} ScanAllFirstError<X, T, E>(scan: X -> Result<Option<T>, E>, txs: seq<X>) returns (k: nat)
    requires ScanAll(scan, txs).Err?
    ensures k < |txs| && scan(txs[k]) == Err(ScanAll(scan, txs).error)
    ensures forall i :: 0 <= i < k ==> scan(txs[i]).Ok?
  {
    var n := |txs| - 1;
    var before := txs[..n];
    if ScanAll(scan, before).Err? {
      k := ScanAllFirstError(scan, before);
      assert forall i :: 0 <= i <= k ==> before[i] == txs[i];
    } else {
      k := n;
      var positions := ScanAllExactly(scan, before);
      assert forall i :: 0 <= i < n ==> before[i] == txs[i];
    }
  }

  /* collect_tagged */

  /** What the pages from `from` on yield; pages after an error are never fetched. */
  function Collected<X, T, E>(pages: seq<Result<Page<X>, E>>, from: nat, scan: X -> Result<Option<T>, E>)
    : Result<seq<T>, E>
    requires Chain(pages) && from < |pages|
    decreases |pages| - from
  {
    match pages[from]
    case Err(e) => Err(e)
    case Ok(page) =>
      match ScanAll(scan, page.transactions)
      case Err(e) => Err(e)
      case Ok(found) =>
        if page.next.None? then Ok(found) else Prefixed(found, Collected(pages, page.next.value, scan))
  }

  method CollectTagged<X, T, E>(ownerTag: Result<seq<Byte>, E>, pages: seq<Result<Page<X>, E>>,
                                scan: X -> Result<Option<T>, E>)
    returns (r: Result<seq<T>, E>)
    requires Chain(pages)
    ensures r == if ownerTag.Err? then Err(ownerTag.error) else Collected(pages, 0, scan)
  {
    if ownerTag.Err? {
      return Err(ownerTag.error);
    }
    var found: seq<T> := [];
    var cursor: nat := 0;
    PrefixedTwice(found, found, Collected(pages, 0, scan));
    while true
      invariant cursor < |pages|
      invariant Collected(pages, 0, scan) == Prefixed(found, Collected(pages, cursor, scan))
      decreases |pages| - cursor
    {
      if pages[cursor].Err? {
        return Err(pages[cursor].error);
      }
      var page := pages[cursor].value;
      ghost var earlier := found;
      for i := 0 to |page.transactions|
        invariant ScanAll(scan, page.transactions[..i]).Ok?
        invariant found == earlier + ScanAll(scan, page.transactions[..i]).value
      {
        assert page.transactions[..i + 1][..i] == page.transactions[..i];
        assert page.transactions == page.transactions[..i + 1] + page.transactions[i + 1..];
        ScanAllConcat(scan, page.transactions[..i + 1], page.transactions[i + 1..]);
        var item := scan(page.transactions[i]);
        if item.Err? {
          return Err(item.error);
        }
        if item.value.Some? {
          found := found + [item.value.value];
        }
      }
      assert page.transactions[..|page.transactions|] == page.transactions;
      if page.next.None? {
        return Ok(found);
      }
      PrefixedTwice(earlier, ScanAll(scan, page.transactions).value, Collected(pages, page.next.value, scan));
      cursor := page.next.value;
    }
  }

  /** What the fetches of a chain deliver from `from` on: the transactions in order, up to the first
      fetch that fails, and its error. */
  function Fetched<X, E>(pages: seq<Result<Page<X>, E>>, from: nat): (seq<X>, Option<E>)
    requires Chain(pages) && from < |pages|
    decreases |pages| - from
  {
    match pages[from]
    case Err(e) => ([], Some(e))
    case Ok(page) =>
      if page.next.None? then (page.transactions, None)
      else
        var rest := Fetched(pages, page.next.value);
        (page.transactions + rest.0, rest.1)
  }

  /** Pagination is invisible: collecting over a chain is scanning what was fetched once, in order. A
      scan error comes before the fetch error that would follow it. */
  lemma {:induction false} CollectedIsScan<X, T, E>(pages: seq<Result<Page<X>, E>>, from: nat,
                                                    scan: X -> Result<Option<T>, E>)
    requires Chain(pages) && from < |pages|
    ensures var (txs, error) := Fetched(pages, from);
            Collected(pages, from, scan)
            == if ScanAll(scan, txs).Ok? && error.Some? then Err(error.value) else ScanAll(scan, txs)
    decreases |pages| - from
  {
    if pages[from].Ok? && pages[from].value.next.Some? {
      var page := pages[from].value;
      CollectedIsScan(pages, page.next.value, scan);
      ScanAllConcat(scan, page.transactions, Fetched(pages, page.next.value).0);
    }
  }

  /* index_until */

  datatype Indexed<+T, +E> = Found(items: seq<T>) | Failed(error: E) | TimedOut

  /** Attempts until one finds something or fails. The deadline is the number of attempts that
      begin before it, less one: the clock is read only after an empty attempt. */
  method IndexUntil<T, E>(deadline: nat, collect: nat -> Result<seq<T>, E>) returns (r: Indexed<T, E>, attempts: nat)
    ensures attempts <= deadline
    ensures forall k :: 0 <= k < attempts ==> collect(k) == Ok([])
    ensures match r
            case Found(items) => items != [] && collect(attempts) == Ok(items)
            case Failed(error) => collect(attempts) == Err(error)
            case TimedOut => attempts == deadline && collect(deadline) == Ok([])
  {
    attempts := 0;
    while true
      invariant attempts <= deadline
      invariant forall k :: 0 <= k < attempts ==> collect(k) == Ok([])
      decreases deadline - attempts
    {
      var found := collect(attempts);
      if found.Err? {
        return Failed(found.error), attempts;
      }
      if found.value != [] {
        return Found(found.value), attempts;
      }
      if attempts >= deadline {
        return TimedOut, attempts;
      }
      attempts := attempts + 1;
    }
  }
}
