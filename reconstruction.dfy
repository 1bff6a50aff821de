// The block-checkpointed loops that fill new columns of a posterior table row by row:
// the reconstruction of marginalised parameters and the per-detector log likelihoods.
// The per-row computation (a likelihood evaluation, for the reconstruction a random draw)
// is a function parameter; the pool, the progress bar and the pickle file are not modelled.

module Reconstruction {
  import opened Values

  /** A posterior table: one sample per row, in row order. */
  type Table = seq<Sample>

  /** What one row yields: a tuple with one float per new column. */
  type RowFill = Sample -> seq<real>

  /** cached_samples_dict: the table it was built for (under "_samples") and, in insertion
      order, the start row of each block it holds with that block's tuples. */
  datatype Cache = Cache(samples: Table, starts: seq<int>, blocks: map<int, seq<seq<real>>>)

  /** The dict view is consistent: each start once, each with its block. */
  predicate Valid(c: Cache)
  {
    && (forall a, b :: 0 <= a < b < |c.starts| ==> c.starts[a] != c.starts[b])
    && (forall s <- c.starts :: s in c.blocks)
    && (forall s <- c.blocks :: s in c.starts)
  }

  /** The tuples of rows [lo, hi), in row order. */
  function FillRows(samples: Table, fill: RowFill, lo: int, hi: int): (rows: seq<seq<real>>)
    requires 0 <= lo <= hi <= |samples|
    ensures |rows| == hi - lo
    ensures forall j :: 0 <= j < hi - lo ==> rows[j] == fill(samples[lo + j])
  {
    seq(hi - lo, j requires 0 <= j < hi - lo => fill(samples[lo + j]))
  }

  /** A cache holding only the table. */
  function FreshCache(samples: Table): (c: Cache)
    ensures Valid(c) && c.samples == samples && c.starts == []
  {
    Cache(samples, [], map[])
  }

  /** The cache the loop starts from: the stored one when it was built for an identical
      table, otherwise a fresh one holding only the table. */
  function InitialCache(samples: Table, stored: Option<Cache>): (c: Cache)
    ensures c.samples == samples
    ensures stored.Some? && stored.value.samples == samples ==> c == stored.value
    ensures stored.None? || stored.value.samples != samples ==> c == FreshCache(samples)
  {
    if stored.Some? && stored.value.samples == samples then stored.value else FreshCache(samples)
  }

  /** The starts the loop fills from row ii on: every multiple of block below n that the
      cache does not already hold, in increasing order. */
  function NewStarts(cached: set<int>, block: int, n: int, ii: int): seq<int>
    requires block > 0
    decreases n - ii
  {
    if ii >= n then []
    else if ii in cached then NewStarts(cached, block, n, ii + block)
    else [ii] + NewStarts(cached, block, n, ii + block)
  }

  /** Starts in [lo, n), none of them cached, in increasing order. */
  predicate FreshStarts(starts: seq<int>, cached: set<int>, lo: int, n: int)
  {
    && (forall a :: 0 <= a < |starts| ==> lo <= starts[a] < n && starts[a] !in cached)
    && (forall a, b :: 0 <= a < b < |starts| ==> starts[a] < starts[b])
  }

  lemma {:induction false} NewStartsFresh(cached: set<int>, block: int, n: int, ii: int)
    requires block > 0
    ensures FreshStarts(NewStarts(cached, block, n, ii), cached, ii, n)
    decreases n - ii
  {
    if ii < n {
      var rest := NewStarts(cached, block, n, ii + block);
      NewStartsFresh(cached, block, n, ii + block);
      if ii !in cached {
        var starts := [ii] + rest;
        assert NewStarts(cached, block, n, ii) == starts;
        forall a, b | 0 <= a < b < |starts|
          ensures starts[a] < starts[b]
        {
          assert starts[b] == rest[b - 1];
          if a > 0 {
            assert starts[a] == rest[a - 1];
          }
        }
      }
    }
  }

  /** The loop invariant: the blocks added so far are exactly the new starts below ii, each
      holding the tuples of its rows, and the cached blocks are untouched. */
  predicate FilledUpTo(c: Cache, c0: Cache, samples: Table, fill: RowFill, block: int, ii: int)
    requires block > 0
  {
    && c.samples == c0.samples
    && c.starts + NewStarts(c0.blocks.Keys, block, |samples|, ii) == c0.starts + NewStarts(c0.blocks.Keys, block, |samples|, 0)
    && |c0.starts| <= |c.starts|
    && c.blocks.Keys == c0.blocks.Keys + (set s <- c.starts[|c0.starts|..])
    && (forall s <- c.blocks :: s in c0.blocks || s < ii)
    && (forall s <- c0.blocks :: c.blocks[s] == c0.blocks[s])
    && (forall s <- c.blocks :: s !in c0.blocks ==> 0 <= s < |samples| && c.blocks[s] == FillRows(samples, fill, s, Min(s + block, |samples|)))
  }

  /** The while loop over blocks: starting at row 0 and stepping by block, a start the cache
      holds is skipped and any other gets the tuples of rows [ii, min(ii + block, n)). The
      new blocks follow the cached ones, in increasing order of their start. */
  method FillBlocks(samples: Table, fill: RowFill, block: int, cache: Cache) returns (c: Cache)
    requires block > 0
    requires Valid(cache)
    ensures c.samples == cache.samples
    ensures c.starts == cache.starts + NewStarts(cache.blocks.Keys, block, |samples|, 0)
    ensures Valid(c)
    ensures forall s <- cache.blocks :: c.blocks[s] == cache.blocks[s]
    ensures forall s <- c.blocks :: s !in cache.blocks ==>
      0 <= s < |samples| && c.blocks[s] == FillRows(samples, fill, s, Min(s + block, |samples|))
  {
    var n := |samples|;
    c := cache;
    var ii := 0;
    while ii < n
      invariant 0 <= ii
      invariant FilledUpTo(c, cache, samples, fill, block, ii)
      decreases n - ii
    {
      if ii in c.blocks {
        ii := ii + block;
        continue;
      }
      var hi := Min(ii + block, n);
      var subset := FillRows(samples, fill, ii, hi);
      FillStep(c, cache, samples, fill, block, ii, subset);
      c := c.(starts := c.starts + [ii], blocks := c.blocks[ii := subset]);
      ii := ii + block;
    }
    FillDone(c, cache, samples, fill, block, ii);
  }

  lemma FillStep(c: Cache, c0: Cache, samples: Table, fill: RowFill, block: int, ii: int, subset: seq<seq<real>>)
    requires block > 0 && 0 <= ii < |samples|
    requires FilledUpTo(c, c0, samples, fill, block, ii)
    requires ii !in c.blocks
    requires subset == FillRows(samples, fill, ii, Min(ii + block, |samples|))
    ensures FilledUpTo(c.(starts := c.starts + [ii], blocks := c.blocks[ii := subset]), c0, samples, fill, block, ii + block)
  {
    var next := c.(starts := c.starts + [ii], blocks := c.blocks[ii := subset]);
    assert ii !in c0.blocks;
    assert NewStarts(c0.blocks.Keys, block, |samples|, ii) == [ii] + NewStarts(c0.blocks.Keys, block, |samples|, ii + block);
    assert next.starts[|c0.starts|..] == c.starts[|c0.starts|..] + [ii];
  }

  lemma FillDone(c: Cache, c0: Cache, samples: Table, fill: RowFill, block: int, ii: int)
    requires block > 0 && ii >= |samples|
    requires Valid(c0)
    requires FilledUpTo(c, c0, samples, fill, block, ii)
    ensures c.starts == c0.starts + NewStarts(c0.blocks.Keys, block, |samples|, 0)
    ensures Valid(c)
  {
    var added := NewStarts(c0.blocks.Keys, block, |samples|, 0);
    assert NewStarts(c0.blocks.Keys, block, |samples|, ii) == [];
    assert c.starts == c0.starts + added;
    assert c.starts[|c0.starts|..] == added;
    NewStartsFresh(c0.blocks.Keys, block, |samples|, 0);
    ValidAfterAppend(c0, c, added, |samples|);
  }

  /** Appending fresh, increasing starts with their blocks keeps the dict view consistent. */
  lemma ValidAfterAppend(c0: Cache, c: Cache, added: seq<int>, n: int)
    requires Valid(c0)
    requires FreshStarts(added, c0.blocks.Keys, 0, n)
    requires c.starts == c0.starts + added
    requires c.blocks.Keys == c0.blocks.Keys + (set s <- added)
    ensures Valid(c)
  {
    AddedDistinct(c0.starts, c0.blocks.Keys, added);
    forall i | 0 <= i < |c.starts|
      ensures c.starts[i] in c.blocks
    {
      if i >= |c0.starts| {
        assert c.starts[i] == added[i - |c0.starts|];
      } else {
        assert c.starts[i] in c0.starts;
      }
    }
    forall s <- c.blocks
      ensures s in c.starts
    {
      if s in c0.blocks {
        var i :| 0 <= i < |c0.starts| && c0.starts[i] == s;
        assert c.starts[i] == s;
      } else {
        var i :| 0 <= i < |added| && added[i] == s;
        assert c.starts[|c0.starts| + i] == s;
      }
    }
  }

  lemma AddedDistinct(old_starts: seq<int>, cached: set<int>, added: seq<int>)
    requires forall a, b :: 0 <= a < b < |old_starts| ==> old_starts[a] != old_starts[b]
    requires forall s <- old_starts :: s in cached
    requires forall a :: 0 <= a < |added| ==> added[a] !in cached
    requires forall a, b :: 0 <= a < b < |added| ==> added[a] < added[b]
    ensures var all := old_starts + added; forall a, b :: 0 <= a < b < |all| ==> all[a] != all[b]
  {
    var all := old_starts + added;
    forall a, b | 0 <= a < b < |all|
      ensures all[a] != all[b]
    {
      if a < |old_starts| && b >= |old_starts| {
        assert all[a] == old_starts[a] && old_starts[a] in old_starts;
        assert all[b] == added[b - |old_starts|];
      }
    }
  }

  /** np.concatenate over the blocks in the dict's order. */
  function Concatenate(starts: seq<int>, blocks: map<int, seq<seq<real>>>): seq<seq<real>>
    requires forall i :: 0 <= i < |starts| ==> starts[i] in blocks
  {
    if starts == [] then [] else Concatenate(starts[..|starts| - 1], blocks) + blocks[starts[|starts| - 1]]
  }

  /** Block starts as the loop produces them: 0, then each one block after the last. */
  predicate Stepped(starts: seq<int>, block: int)
  {
    && (|starts| > 0 ==> starts[0] == 0)
    && forall i :: 0 < i < |starts| ==> starts[i] == starts[i - 1] + block
  }

  /** Where the block after the given ones starts. */
  function NextStart(starts: seq<int>, block: int): int
  {
    if starts == [] then 0 else starts[|starts| - 1] + block
  }

  lemma {:induction false} SteppedIncreasing(starts: seq<int>, block: int)
    requires Stepped(starts, block) && block > 0
    ensures forall i, j :: 0 <= i < j < |starts| ==> starts[i] < starts[j]
    ensures forall i :: 0 <= i < |starts| ==> 0 <= starts[i] < NextStart(starts, block)
  {
    if |starts| > 1 {
      var init := starts[..|starts| - 1];
      assert Stepped(init, block);
      SteppedIncreasing(init, block);
      assert forall i :: 0 <= i < |init| ==> init[i] == starts[i];
    }
  }

  /** A cache a run of the same loop left behind for this table: blocks starting at 0 and
      one block apart, each below the table's end and holding the tuples of its rows.
      A fresh cache is one. */
  predicate CachedPrefix(c: Cache, samples: Table, fill: RowFill, block: int)
  {
    && block > 0
    && c.samples == samples
    && Stepped(c.starts, block)
    && c.blocks.Keys == (set s <- c.starts)
    && (forall i :: 0 <= i < |c.starts| ==> c.starts[i] < |samples|)
    && forall s <- c.blocks :: 0 <= s < |samples| && c.blocks[s] == FillRows(samples, fill, s, Min(s + block, |samples|))
  }

  /** Every block of the table, from 0 up to past its end, each filled. */
  predicate Complete(c: Cache, samples: Table, fill: RowFill, block: int)
  {
    && block > 0
    && Stepped(c.starts, block)
    && (forall i :: 0 <= i < |c.starts| ==> 0 <= c.starts[i] < |samples|)
    && NextStart(c.starts, block) >= |samples|
    && (forall i :: 0 <= i < |c.starts| ==> c.starts[i] in c.blocks)
    && forall i :: 0 <= i < |c.starts| ==>
      c.blocks[c.starts[i]] == FillRows(samples, fill, c.starts[i], Min(c.starts[i] + block, |samples|))
  }

  /** From a cached prefix, the loop skips every cached start. */
  lemma {:induction false} SkipCached(prefix: seq<int>, block: int, n: int, i: nat)
    requires block > 0 && Stepped(prefix, block) && i <= |prefix|
    requires forall j :: 0 <= j < |prefix| ==> prefix[j] < n
    ensures var from := if i == |prefix| then NextStart(prefix, block) else prefix[i];
      NewStarts((set s <- prefix), block, n, from) == NewStarts((set s <- prefix), block, n, NextStart(prefix, block))
    decreases |prefix| - i
  {
    if i < |prefix| {
      assert prefix[i] in (set s <- prefix);
      SkipCached(prefix, block, n, i + 1);
    }
  }

  /** Block starts from 0, one block apart, up to the last below n. */
  predicate CoveringStarts(starts: seq<int>, block: int, n: int)
  {
    && Stepped(starts, block)
    && NextStart(starts, block) >= n
    && forall j :: 0 <= j < |starts| ==> starts[j] < n
  }

  /** Past the cached starts, the loop adds every further block start below n. */
  lemma {:induction false} NewAfterPrefix(cached: set<int>, done: seq<int>, block: int, n: int)
    requires block > 0 && Stepped(done, block)
    requires forall j :: 0 <= j < |done| ==> done[j] < n
    requires forall x <- cached :: x < NextStart(done, block)
    ensures CoveringStarts(done + NewStarts(cached, block, n, NextStart(done, block)), block, n)
    decreases n - NextStart(done, block)
  {
    var next := NextStart(done, block);
    if next >= n {
      assert done + NewStarts(cached, block, n, next) == done;
    } else {
      var longer := AppendStart(done, block);
      assert NewStarts(cached, block, n, next) == [next] + NewStarts(cached, block, n, next + block);
      NewAfterPrefix(cached, longer, block, n);
      assert done + NewStarts(cached, block, n, next) == longer + NewStarts(cached, block, n, next + block);
    }
  }

  /** The loop's next block start, appended. */
  lemma AppendStart(done: seq<int>, block: int) returns (longer: seq<int>)
    requires Stepped(done, block)
    ensures longer == done + [NextStart(done, block)]
    ensures Stepped(longer, block) && NextStart(longer, block) == NextStart(done, block) + block
  {
    longer := done + [NextStart(done, block)];
  }

  lemma FillRowsSplit(samples: Table, fill: RowFill, lo: int, mid: int, hi: int)
    requires 0 <= lo <= mid <= hi <= |samples|
    ensures FillRows(samples, fill, lo, mid) + FillRows(samples, fill, mid, hi) == FillRows(samples, fill, lo, hi)
  {
  }

  /** The first k blocks of a complete cache concatenate to the tuples of their rows. */
  lemma {:induction false} ConcatenatePrefix(c: Cache, samples: Table, fill: RowFill, block: int, k: nat)
    requires block > 0 && Complete(c, samples, fill, block) && k <= |c.starts|
    ensures Concatenate(c.starts[..k], c.blocks) == FillRows(samples, fill, 0, Min(NextStart(c.starts[..k], block), |samples|))
  {
    if k > 0 {
      var init := c.starts[..k - 1];
      assert c.starts[..k][..k - 1] == init;
      ConcatenatePrefix(c, samples, fill, block, k - 1);
      var lo := c.starts[k - 1];
      assert NextStart(init, block) == lo;
      FillRowsSplit(samples, fill, 0, lo, Min(lo + block, |samples|));
    }
  }

  lemma ConcatenateComplete(c: Cache, samples: Table, fill: RowFill, block: int)
    requires block > 0 && Complete(c, samples, fill, block)
    ensures Concatenate(c.starts, c.blocks) == FillRows(samples, fill, 0, |samples|)
    ensures c.starts == [] <==> |samples| == 0
  {
    ConcatenatePrefix(c, samples, fill, block, |c.starts|);
    assert c.starts[..|c.starts|] == c.starts;
  }

  /** The point of the loop: started from a cache this loop left behind for the same table
      (or a fresh one), the concatenated blocks are one tuple per row, in row order. */
  lemma ResumedFillIsRowwise(cache: Cache, c: Cache, samples: Table, fill: RowFill, block: int)
    requires block > 0
    requires CachedPrefix(cache, samples, fill, block)
    requires c.starts == cache.starts + NewStarts(cache.blocks.Keys, block, |samples|, 0)
    requires forall s <- cache.blocks :: s in c.blocks && c.blocks[s] == cache.blocks[s]
    requires forall s <- c.blocks :: s !in cache.blocks ==>
      0 <= s < |samples| && c.blocks[s] == FillRows(samples, fill, s, Min(s + block, |samples|))
    requires forall i :: 0 <= i < |c.starts| ==> c.starts[i] in c.blocks
    ensures Concatenate(c.starts, c.blocks) == FillRows(samples, fill, 0, |samples|)
    ensures c.starts == [] <==> |samples| == 0
  {
    ResumedStartsCover(cache, c.starts, samples, fill, block);
    forall i | 0 <= i < |c.starts|
      ensures 0 <= c.starts[i] && c.starts[i] in c.blocks
      ensures c.blocks[c.starts[i]] == FillRows(samples, fill, c.starts[i], Min(c.starts[i] + block, |samples|))
    {
      assert c.starts[i] in c.starts;
    }
    assert Complete(c, samples, fill, block);
    ConcatenateComplete(c, samples, fill, block);
  }

  /** The starts after a resumed loop are every block start of the table. */
  lemma ResumedStartsCover(cache: Cache, starts: seq<int>, samples: Table, fill: RowFill, block: int)
    requires block > 0
    requires CachedPrefix(cache, samples, fill, block)
    requires starts == cache.starts + NewStarts(cache.blocks.Keys, block, |samples|, 0)
    ensures CoveringStarts(starts, block, |samples|)
  {
    var n := |samples|;
    SkipCached(cache.starts, block, n, 0);
    assert NewStarts(cache.blocks.Keys, block, n, 0) == NewStarts(cache.blocks.Keys, block, n, NextStart(cache.starts, block));
    SteppedIncreasing(cache.starts, block);
    NewAfterPrefix(cache.blocks.Keys, cache.starts, block, n);
  }

  /** All tuples have one value per column. */
  predicate Rectangular(values: seq<seq<real>>, width: nat)
  {
    forall i :: 0 <= i < |values| ==> |values[i]| == width
  }

  /** No key after position j, and before position end, repeats keys[j]: the write at j is
      the last one to that key. */
  predicate LastBefore(keys: seq<string>, j: int, end: int)
    requires 0 <= j < |keys| && end <= |keys|
  {
    forall m :: j < m < end ==> keys[m] != keys[j]
  }

  /** With distinct keys every write is the last one to its key. */
  lemma DistinctKeysAllLast(keys: seq<string>)
    requires forall a, b :: 0 <= a < b < |keys| ==> keys[a] != keys[b]
    ensures forall j :: 0 <= j < |keys| ==> LastBefore(keys, j, |keys|)
  {
  }

  /** After the writes of keys[..end] to one row: the row gained exactly those keys, kept its
      other values, and holds values[j] under keys[j] for every write not overwritten later. */
  ghost predicate RowWritten(row: Sample, before: Sample, keys: seq<string>, values: seq<real>, end: int)
    requires 0 <= end <= |keys| == |values|
  {
    && row.Keys == before.Keys + (set k <- keys[..end])
    && KeepsOthers(row, before, set k <- keys[..end])
    && forall j :: 0 <= j < end && LastBefore(keys, j, end) ==> row[keys[j]] == Num(values[j])
  }

  /** The keys of one more prefix are the earlier keys and the next one. */
  lemma PrefixKeysStep(keys: seq<string>, end: int, next: int)
    requires 0 <= end < |keys| && next == end + 1
    ensures (set k <- keys[..next]) == (set k <- keys[..end]) + {keys[end]}
  {
    assert keys[..next] == keys[..end] + [keys[end]];
  }

  /** One more column write keeps RowWritten. */
  lemma WriteStep(row: Sample, before: Sample, keys: seq<string>, values: seq<real>, end: int)
    requires 0 <= end < |keys| == |values| && RowWritten(row, before, keys, values, end)
    ensures RowWritten(row[keys[end] := Num(values[end])], before, keys, values, end + 1)
  {
    var next := row[keys[end] := Num(values[end])];
    PrefixKeysStep(keys, end, end + 1);
    forall j | 0 <= j < end + 1 && LastBefore(keys, j, end + 1)
      ensures next[keys[j]] == Num(values[j])
    {
      if j < end {
        assert LastBefore(keys, j, end);
        assert keys[j] != keys[end];
      }
    }
  }

  /** `samples[key] = new_samples[:, j]` for each column key in turn: the table must have one
      tuple per row and every tuple one value per key, else a ValueError. A key named twice
      holds the column of its last occurrence. */
  method WriteColumns(samples: Table, keys: seq<string>, values: seq<seq<real>>) returns (r: Result<Table>)
    ensures r.Ok? <==> |values| == |samples| && Rectangular(values, |keys|)
    ensures r.Ok? ==> |r.value| == |samples|
    ensures r.Ok? ==> forall i :: 0 <= i < |samples| ==>
      && r.value[i].Keys == samples[i].Keys + (set k <- keys)
      && KeepsOthers(r.value[i], samples[i], set k <- keys)
      && forall j :: 0 <= j < |keys| && LastBefore(keys, j, |keys|) ==> r.value[i][keys[j]] == Num(values[i][j])
  {
    if |values| != |samples| || !Rectangular(values, |keys|) {
      return Err(ValueError("Length of values does not match length of index"));
    }
    var out := samples;
    for j := 0 to |keys|
      invariant |out| == |samples|
      invariant forall i :: 0 <= i < |samples| ==> RowWritten(out[i], samples[i], keys, values[i], j)
    {
      var next := seq(|out|, i requires 0 <= i < |out| => out[i][keys[j] := Num(values[i][j])]);
      forall i | 0 <= i < |samples|
        ensures RowWritten(next[i], samples[i], keys, values[i], j + 1)
      {
        WriteStep(out[i], samples[i], keys, values[i], j);
      }
      out := next;
    }
    assert keys[..|keys|] == keys;
    r := Ok(out);
  }

  /** Stacks the cached blocks and writes one column per key; with no block at all
      np.concatenate has nothing to join and raises a ValueError. */
  method StackColumns(samples: Table, keys: seq<string>, c: Cache) returns (r: Result<Table>)
    requires forall i :: 0 <= i < |c.starts| ==> c.starts[i] in c.blocks
    ensures c.starts == [] ==> r.Err?
    ensures c.starts != [] ==> (r.Ok? <==> |Concatenate(c.starts, c.blocks)| == |samples| && Rectangular(Concatenate(c.starts, c.blocks), |keys|))
    ensures r.Ok? ==> |r.value| == |samples|
    ensures r.Ok? ==> forall i :: 0 <= i < |samples| ==>
      && r.value[i].Keys == samples[i].Keys + (set k <- keys)
      && KeepsOthers(r.value[i], samples[i], set k <- keys)
      && forall j :: 0 <= j < |keys| && LastBefore(keys, j, |keys|) ==>
        r.value[i][keys[j]] == Num(Concatenate(c.starts, c.blocks)[i][j])
  {
    if c.starts == [] {
      return Err(ValueError("need at least one array to concatenate"));
    }
    r := WriteColumns(samples, keys, Concatenate(c.starts, c.blocks));
  }

  /** Every row's tuple has one value per column. */
  predicate FillsWidth(samples: Table, fill: RowFill, width: nat)
  {
    forall i :: 0 <= i < |samples| ==> |fill(samples[i])| == width
  }

  /** The outcome of filling columns keys row by row: it fails exactly when the table is
      empty or a tuple has the wrong width, and on success every row keeps its other keys
      and has, under keys[j], the j-th value of its own tuple, the last such j for a key
      named twice. */
  predicate ColumnsFilled(r: Result<Table>, samples: Table, keys: seq<string>, fill: RowFill)
  {
    && (r.Ok? <==> |samples| > 0 && FillsWidth(samples, fill, |keys|))
    && (r.Ok? ==> |r.value| == |samples| && forall i :: 0 <= i < |samples| ==>
          && r.value[i].Keys == samples[i].Keys + (set k <- keys)
          && KeepsOthers(r.value[i], samples[i], set k <- keys)
          && forall j :: 0 <= j < |keys| && LastBefore(keys, j, |keys|) ==> r.value[i][keys[j]] == Num(fill(samples[i])[j]))
  }

  /** The block loop, the concatenation and the column writes. From a cache this loop left
      behind for the table, or a fresh one, the columns hold each row's own tuple. */
  method FillColumns(samples: Table, keys: seq<string>, fill: RowFill, block: int, cache: Cache)
    returns (r: Result<Table>)
    requires block > 0 && Valid(cache)
    ensures CachedPrefix(cache, samples, fill, block) ==> ColumnsFilled(r, samples, keys, fill)
  {
    var c := FillBlocks(samples, fill, block, cache);
    r := StackColumns(samples, keys, c);
    if CachedPrefix(cache, samples, fill, block) {
      ResumedFillIsRowwise(cache, c, samples, fill, block);
      StackedRowsFilled(r, samples, keys, fill, Concatenate(c.starts, c.blocks), c.starts == []);
    }
  }

  /** Columns stacked from the row-by-row tuples are the columns each row's own draw fills. */
  lemma StackedRowsFilled(r: Result<Table>, samples: Table, keys: seq<string>, fill: RowFill, rows: seq<seq<real>>, empty: bool)
    requires rows == FillRows(samples, fill, 0, |samples|)
    requires empty ==> r.Err? && rows == []
    requires !empty ==> |samples| > 0 && (r.Ok? <==> |rows| == |samples| && Rectangular(rows, |keys|))
    requires r.Ok? ==> |r.value| == |samples|
    requires r.Ok? ==> forall i :: 0 <= i < |samples| ==>
      && r.value[i].Keys == samples[i].Keys + (set k <- keys)
      && KeepsOthers(r.value[i], samples[i], set k <- keys)
      && forall j :: 0 <= j < |keys| && LastBefore(keys, j, |keys|) ==> r.value[i][keys[j]] == Num(rows[i][j])
    ensures ColumnsFilled(r, samples, keys, fill)
  {
    RowwiseWidth(samples, fill, |keys|);
  }

  /** The row-by-row tuples are rectangular exactly when every row's tuple has the width. */
  lemma RowwiseWidth(samples: Table, fill: RowFill, width: nat)
    ensures Rectangular(FillRows(samples, fill, 0, |samples|), width) <==> FillsWidth(samples, fill, width)
  {
    var rows := FillRows(samples, fill, 0, |samples|);
    if Rectangular(rows, width) {
      forall i | 0 <= i < |samples| ensures |fill(samples[i])| == width {
        assert rows[i] == fill(samples[i]);
      }
    }
  }

  /** generate_posterior_samples_from_marginalized_likelihood on a table. Without marginalised
      parameters the table comes back as it is. Otherwise, when the stored cache is absent,
      built for another table, or left by this loop for this table, every row gets each
      marginalised parameter from that row's draw. */
  method GeneratePosteriorSamplesFromMarginalizedLikelihood(samples: Table, marginalized: seq<string>, fill: RowFill,
                                                             block: int, stored: Option<Cache>)
    returns (r: Result<Table>)
    requires block > 0
    requires stored.Some? ==> Valid(stored.value)
    ensures |marginalized| == 0 ==> r == Ok(samples)
    ensures (&& |marginalized| > 0
             && (stored.None? || stored.value.samples != samples || CachedPrefix(stored.value, samples, fill, block))) ==>
      ColumnsFilled(r, samples, marginalized, fill)
  {
    if |marginalized| == 0 {
      return Ok(samples);
    }
    var cache := InitialCache(samples, stored);
    if stored.None? || stored.value.samples != samples {
      assert cache.blocks.Keys == {};
      assert CachedPrefix(cache, samples, fill, block);
    }
    r := FillColumns(samples, marginalized, fill, block, cache);
  }

  /** The column compute_per_detector_log_likelihoods writes for a detector. */
  function LogLikelihoodKey(detector: string): (key: string)
    ensures |key| == |detector| + |"_log_likelihood"| && key[..|detector|] == detector
  {
    detector + "_log_likelihood"
  }

  function LogLikelihoodKeys(detectors: seq<string>): (keys: seq<string>)
    ensures |keys| == |detectors| && forall j :: 0 <= j < |detectors| ==> keys[j] == LogLikelihoodKey(detectors[j])
  {
    seq(|detectors|, j requires 0 <= j < |detectors| => LogLikelihoodKey(detectors[j]))
  }

  /** Distinct detectors write distinct columns. */
  lemma LogLikelihoodKeysDistinct(detectors: seq<string>)
    requires forall a, b :: 0 <= a < b < |detectors| ==> detectors[a] != detectors[b]
    ensures var keys := LogLikelihoodKeys(detectors); forall a, b :: 0 <= a < b < |keys| ==> keys[a] != keys[b]
  {
    forall a, b | 0 <= a < b < |detectors|
      ensures LogLikelihoodKey(detectors[a]) != LogLikelihoodKey(detectors[b])
    {
      var ka, kb := LogLikelihoodKey(detectors[a]), LogLikelihoodKey(detectors[b]);
      if |detectors[a]| == |detectors[b]| {
        assert ka[..|detectors[a]|] != kb[..|detectors[b]|];
      } else {
        assert |ka| != |kb|;
      }
    }
  }

  /** compute_per_detector_log_likelihoods on a table: the same block loop from an empty
      cache, then one '<detector>_log_likelihood' column per detector holding each row's
      log likelihood in that detector. */
  method ComputePerDetectorLogLikelihoods(samples: Table, detectors: seq<string>, logLikelihoods: RowFill, block: int)
    returns (r: Result<Table>)
    requires block > 0
    ensures ColumnsFilled(r, samples, LogLikelihoodKeys(detectors), logLikelihoods)
    ensures r.Ok? && (forall a, b :: 0 <= a < b < |detectors| ==> detectors[a] != detectors[b]) ==>
      forall i, j :: 0 <= i < |samples| && 0 <= j < |detectors| ==>
        r.value[i][LogLikelihoodKey(detectors[j])] == Num(logLikelihoods(samples[i])[j])
  {
    var cache := FreshCache(samples);
    assert CachedPrefix(cache, samples, logLikelihoods, block) by {
      assert cache.blocks.Keys == {};
    }
    if forall a, b :: 0 <= a < b < |detectors| ==> detectors[a] != detectors[b] {
      LogLikelihoodKeysDistinct(detectors);
      DistinctKeysAllLast(LogLikelihoodKeys(detectors));
    }
    r := FillColumns(samples, LogLikelihoodKeys(detectors), logLikelihoods, block, cache);
  }
}
