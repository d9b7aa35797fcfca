/**
 * Resolution of the chunks a page needs for a list of requested entry points
 * (`findImportedChunks`): each entry, then everything it reaches through static
 * imports, collected in a PHP ordered map keyed by chunk name.
 *
 * The ordered map is modelled by the sequence of its keys; its values are always
 * `chunks[key]`, so the keys determine it.
 */
module Resolution {
  import opened Wrappers
  import opened Chunks
  import opened PhpStrings

  datatype Error = EntryNotFound(name: string) | NotAnEntryPoint(name: string)

  type ChunkMap = map<string, Chunk>

  /** Every static import names a chunk of the map (the build tool's own output guarantees it). */
  predicate ImportsClosed(chunks: ChunkMap) {
    forall n | n in chunks :: forall m | m in chunks[n].imports :: m in chunks
  }

  predicate Distinct(s: seq<string>) {
    forall i, j | 0 <= i < j < |s| :: s[i] != s[j]
  }

  predicate IsEntryPoint(chunks: ChunkMap, name: string) {
    name in chunks && chunks[name].isEntry
  }

  /** The error a requested name that is not an entry point fails with. */
  function ErrorFor(chunks: ChunkMap, name: string): Error {
    if name !in chunks then EntryNotFound(name) else NotAnEntryPoint(name)
  }

  /** `entries[i]` is the first requested name that is not an entry point. */
  predicate FirstInvalid(chunks: ChunkMap, entries: seq<string>, i: int) {
    && 0 <= i < |entries|
    && !IsEntryPoint(chunks, entries[i])
    && forall j | 0 <= j < i :: IsEntryPoint(chunks, entries[j])
  }

  // ---------------------------------------------------------------------------
  // Reachability through static imports: the independent description of the result.

  /** A chain of chunks, each statically importing the next. */
  ghost predicate IsImportPath(chunks: ChunkMap, path: seq<string>) {
    && path != []
    && (forall i | 0 <= i < |path| :: path[i] in chunks)
    && (forall i | 0 <= i < |path| - 1 :: path[i + 1] in chunks[path[i]].imports)
  }

  /** `target` is `source` itself or reached from it through static imports only. */
  ghost predicate Reachable(chunks: ChunkMap, source: string, target: string) {
    exists path :: IsImportPath(chunks, path) && path[0] == source && path[|path| - 1] == target
  }

  /** `name` is reachable from one of `roots`. */
  ghost predicate Covered(chunks: ChunkMap, roots: seq<string>, name: string) {
    exists i | 0 <= i < |roots| :: Reachable(chunks, roots[i], name)
  }

  // ---------------------------------------------------------------------------
  // The ordered map of found chunks.

  /** `$chunks[$key] = ...` on a PHP ordered map: a new key goes last, an existing key keeps its place. */
  function Insert(order: seq<string>, key: string): (r: seq<string>)
    ensures IsPrefix(order, r)
    ensures forall n :: n in r <==> n in order || n == key
    ensures Distinct(order) ==> Distinct(r)
  {
    if key in order then order else order + [key]
  }

  /** Inserting each of `keys` in turn. */
  function InsertAll(order: seq<string>, keys: seq<string>): seq<string>
    decreases |keys|
  {
    if keys == [] then order else InsertAll(Insert(order, keys[0]), keys[1..])
  }

  ghost function Unvisited(chunks: ChunkMap, found: seq<string>): set<string> {
    chunks.Keys - set n | n in found
  }

  /**
   * The inner loop of `findImportedChunks`: take the first queued import; if it is not
   * found yet, record it and queue its own imports at the back. Each step either records
   * a chunk never seen before or shortens the queue, so the walk ends on every import
   * graph, cycles included. Everything found before and everything queued is found
   * afterwards, and nothing outside the chunk map is added.
   */
  function Walk(chunks: ChunkMap, found: seq<string>, queue: seq<string>): (r: seq<string>)
    requires ImportsClosed(chunks)
    requires forall n | n in queue :: n in chunks
    ensures forall n | n in found :: n in r
    ensures forall n | n in queue :: n in r
    ensures forall n | n in r :: n in found || n in chunks
    decreases Unvisited(chunks, found), |queue|
  {
    if queue == [] then found
    else if queue[0] in found then
      assert queue == [queue[0]] + queue[1..];
      Walk(chunks, found, queue[1..])
    else
      var next := queue[0];
      assert (set n | n in found + [next]) == (set n | n in found) + {next};
      assert queue == [next] + queue[1..];
      Walk(chunks, found + [next], queue[1..] + chunks[next].imports)
  }

  /**
   * The outer loop of `findImportedChunks`, from the chunks found so far. On success every
   * chunk found before and every requested entry is found, and nothing outside the chunk
   * map is added.
   */
  function ResolveFrom(chunks: ChunkMap, found: seq<string>, entries: seq<string>): (r: Result<seq<string>, Error>)
    requires ImportsClosed(chunks)
    ensures r.Ok? ==> forall n | n in found :: n in r.value
    ensures r.Ok? ==> forall n | n in entries :: n in r.value
    ensures r.Ok? ==> forall n | n in r.value :: n in found || n in chunks
    decreases |entries|
  {
    if entries == [] then Ok(found)
    else
      var entry := entries[0];
      if entry !in chunks then Err(EntryNotFound(entry))
      else if !chunks[entry].isEntry then Err(NotAnEntryPoint(entry))
      else
        var r := ResolveFrom(chunks, Walk(chunks, Insert(found, entry), chunks[entry].imports), entries[1..]);
        assert entries == [entry] + entries[1..];
        r
  }

  /**
   * `findImportedChunks($entries)`: fails, naming it, on the first requested name that is
   * missing or not an entry point; otherwise yields each needed chunk exactly once, and
   * exactly the chunks reachable from the entries through static imports.
   */
  function Resolve(chunks: ChunkMap, entries: seq<string>): (r: Result<seq<string>, Error>)
    requires ImportsClosed(chunks)
    ensures r.Ok? <==> forall i | 0 <= i < |entries| :: IsEntryPoint(chunks, entries[i])
    ensures r.Err? ==> exists i :: FirstInvalid(chunks, entries, i) && r.error == ErrorFor(chunks, entries[i])
    ensures r.Ok? ==> Distinct(r.value)
    ensures r.Ok? ==> forall n :: n in r.value <==> Covered(chunks, entries, n)
  {
    ResolveFromErrors(chunks, [], entries);
    ResolveFromDistinct(chunks, [], entries);
    ResolveFromCovers(chunks, [], entries);
    ResolveFrom(chunks, [], entries)
  }

  // ---------------------------------------------------------------------------
  // Paths.

  lemma ReachableSelf(chunks: ChunkMap, name: string)
    requires name in chunks
    ensures Reachable(chunks, name, name)
  {
    assert IsImportPath(chunks, [name]);
  }

  lemma ReachableStep(chunks: ChunkMap, source: string, via: string, target: string)
    requires Reachable(chunks, source, via)
    requires via in chunks && target in chunks[via].imports && target in chunks
    ensures Reachable(chunks, source, target)
  {
    var path :| IsImportPath(chunks, path) && path[0] == source && path[|path| - 1] == via;
    var longer := path + [target];
    assert forall i | 0 <= i < |path| :: longer[i] == path[i];
    assert IsImportPath(chunks, longer);
  }

  /** A set of chunks holding the imports of each of its members, or queued to be visited. */
  predicate Closed(chunks: ChunkMap, found: seq<string>, queue: seq<string>) {
    forall n | n in found :: n in chunks && forall m | m in chunks[n].imports :: m in found || m in queue
  }

  lemma {:induction false} PathStaysIn(chunks: ChunkMap, s: seq<string>, path: seq<string>)
    requires Closed(chunks, s, [])
    requires IsImportPath(chunks, path) && path[0] in s
    ensures path[|path| - 1] in s
    decreases |path|
  {
    if |path| > 1 {
      var tail := path[1..];
      assert forall i | 0 <= i < |tail| :: tail[i] == path[i + 1];
      assert IsImportPath(chunks, tail);
      PathStaysIn(chunks, s, tail);
    }
  }

  /** A closed set holding `source` holds everything `source` reaches. */
  lemma ClosedHoldsReachable(chunks: ChunkMap, s: seq<string>, source: string, target: string)
    requires Closed(chunks, s, []) && source in s
    requires Reachable(chunks, source, target)
    ensures target in s
  {
    var path :| IsImportPath(chunks, path) && path[0] == source && path[|path| - 1] == target;
    PathStaysIn(chunks, s, path);
  }

  // ---------------------------------------------------------------------------
  // The walk.

  lemma {:induction false} WalkExtends(chunks: ChunkMap, found: seq<string>, queue: seq<string>)
    requires ImportsClosed(chunks)
    requires forall n | n in queue :: n in chunks
    ensures IsPrefix(found, Walk(chunks, found, queue))
    decreases Unvisited(chunks, found), |queue|
  {
    if queue == [] {
    } else if queue[0] in found {
      WalkExtends(chunks, found, queue[1..]);
    } else {
      var next := queue[0];
      assert (set n | n in found + [next]) == (set n | n in found) + {next};
      WalkExtends(chunks, found + [next], queue[1..] + chunks[next].imports);
    }
  }

  lemma {:induction false} WalkDistinct(chunks: ChunkMap, found: seq<string>, queue: seq<string>)
    requires ImportsClosed(chunks)
    requires forall n | n in queue :: n in chunks
    requires Distinct(found)
    ensures Distinct(Walk(chunks, found, queue))
    decreases Unvisited(chunks, found), |queue|
  {
    if queue == [] {
    } else if queue[0] in found {
      WalkDistinct(chunks, found, queue[1..]);
    } else {
      var next := queue[0];
      assert (set n | n in found + [next]) == (set n | n in found) + {next};
      WalkDistinct(chunks, found + [next], queue[1..] + chunks[next].imports);
    }
  }

  lemma {:induction false} WalkClosed(chunks: ChunkMap, found: seq<string>, queue: seq<string>)
    requires ImportsClosed(chunks)
    requires forall n | n in queue :: n in chunks
    requires Closed(chunks, found, queue)
    ensures Closed(chunks, Walk(chunks, found, queue), [])
    decreases Unvisited(chunks, found), |queue|
  {
    if queue == [] {
    } else {
      assert queue == [queue[0]] + queue[1..];
      if queue[0] in found {
        WalkClosed(chunks, found, queue[1..]);
      } else {
        var next := queue[0];
        assert (set n | n in found + [next]) == (set n | n in found) + {next};
        WalkClosed(chunks, found + [next], queue[1..] + chunks[next].imports);
      }
    }
  }

  /** Everything the walk adds is reachable from `root`, given that the queue only holds such names. */
  lemma {:induction false} WalkSound(chunks: ChunkMap, base: seq<string>, root: string, found: seq<string>, queue: seq<string>)
    requires ImportsClosed(chunks)
    requires forall n | n in queue :: n in chunks
    requires forall n | n in found :: n in base || Reachable(chunks, root, n)
    requires forall n | n in queue :: Reachable(chunks, root, n)
    ensures forall n | n in Walk(chunks, found, queue) :: n in base || Reachable(chunks, root, n)
    decreases Unvisited(chunks, found), |queue|
  {
    if queue == [] {
    } else if queue[0] in found {
      WalkSound(chunks, base, root, found, queue[1..]);
    } else {
      var next := queue[0];
      assert (set n | n in found + [next]) == (set n | n in found) + {next};
      forall m | m in chunks[next].imports
        ensures Reachable(chunks, root, m)
      {
        ReachableStep(chunks, root, next, m);
      }
      WalkSound(chunks, base, root, found + [next], queue[1..] + chunks[next].imports);
    }
  }

  lemma {:induction false} InsertAllExtends(order: seq<string>, keys: seq<string>)
    ensures IsPrefix(order, InsertAll(order, keys))
    decreases |keys|
  {
    if keys != [] {
      InsertAllExtends(Insert(order, keys[0]), keys[1..]);
    }
  }

  lemma {:induction false} InsertAllAppend(order: seq<string>, a: seq<string>, b: seq<string>)
    ensures InsertAll(order, a + b) == InsertAll(InsertAll(order, a), b)
    decreases |a|
  {
    if a == [] {
      assert a + b == b;
    } else {
      assert (a + b)[0] == a[0] && (a + b)[1..] == a[1..] + b;
      InsertAllAppend(Insert(order, a[0]), a[1..], b);
    }
  }

  /**
   * First-in, first-out discovery: every name now in the queue that is not found yet is
   * recorded, in queue order, before any name discovered later.
   */
  lemma {:induction false} WalkFifo(chunks: ChunkMap, found: seq<string>, queue: seq<string>)
    requires ImportsClosed(chunks)
    requires forall n | n in queue :: n in chunks
    ensures IsPrefix(InsertAll(found, queue), Walk(chunks, found, queue))
    decreases Unvisited(chunks, found), |queue|
  {
    if queue == [] {
    } else if queue[0] in found {
      WalkFifo(chunks, found, queue[1..]);
    } else {
      var next := queue[0];
      var imports := chunks[next].imports;
      assert (set n | n in found + [next]) == (set n | n in found) + {next};
      WalkFifo(chunks, found + [next], queue[1..] + imports);
      InsertAllAppend(found + [next], queue[1..], imports);
      InsertAllExtends(InsertAll(found + [next], queue[1..]), imports);
    }
  }

  /** One entry's step: the chunks found before, plus exactly what the entry reaches. */
  lemma EntryStep(chunks: ChunkMap, found: seq<string>, entry: string)
    requires ImportsClosed(chunks)
    requires Closed(chunks, found, [])
    requires entry in chunks
    ensures Closed(chunks, Walk(chunks, Insert(found, entry), chunks[entry].imports), [])
    ensures forall n :: n in Walk(chunks, Insert(found, entry), chunks[entry].imports) <==> n in found || Reachable(chunks, entry, n)
  {
    var start, queue := Insert(found, entry), chunks[entry].imports;
    var w := Walk(chunks, start, queue);
    assert Closed(chunks, start, queue);
    WalkClosed(chunks, start, queue);
    WalkExtends(chunks, start, queue);
    ReachableSelf(chunks, entry);
    forall m | m in queue
      ensures Reachable(chunks, entry, m)
    {
      ReachableStep(chunks, entry, entry, m);
    }
    WalkSound(chunks, found, entry, start, queue);
    forall n | n in found || Reachable(chunks, entry, n)
      ensures n in w
    {
      if n in found {
        assert n in start;
      } else {
        assert entry in start;
        ClosedHoldsReachable(chunks, w, entry, n);
      }
    }
  }

  // ---------------------------------------------------------------------------
  // The outer loop.

  lemma {:induction false} ResolveFromExtends(chunks: ChunkMap, found: seq<string>, entries: seq<string>)
    requires ImportsClosed(chunks)
    ensures ResolveFrom(chunks, found, entries).Ok? ==> IsPrefix(found, ResolveFrom(chunks, found, entries).value)
    decreases |entries|
  {
    if entries != [] && IsEntryPoint(chunks, entries[0]) {
      var entry := entries[0];
      var start := Insert(found, entry);
      WalkExtends(chunks, start, chunks[entry].imports);
      ResolveFromExtends(chunks, Walk(chunks, start, chunks[entry].imports), entries[1..]);
    }
  }

  lemma {:induction false} ResolveFromErrors(chunks: ChunkMap, found: seq<string>, entries: seq<string>)
    requires ImportsClosed(chunks)
    ensures ResolveFrom(chunks, found, entries).Ok? <==> forall i | 0 <= i < |entries| :: IsEntryPoint(chunks, entries[i])
    ensures ResolveFrom(chunks, found, entries).Err? ==>
      exists i :: FirstInvalid(chunks, entries, i) && ResolveFrom(chunks, found, entries).error == ErrorFor(chunks, entries[i])
    decreases |entries|
  {
    if entries == [] {
    } else if !IsEntryPoint(chunks, entries[0]) {
      assert FirstInvalid(chunks, entries, 0);
    } else {
      var entry := entries[0];
      var next := Walk(chunks, Insert(found, entry), chunks[entry].imports);
      ResolveFromErrors(chunks, next, entries[1..]);
      assert forall i | 1 <= i < |entries| :: entries[i] == entries[1..][i - 1];
      if ResolveFrom(chunks, next, entries[1..]).Err? {
        var i :| FirstInvalid(chunks, entries[1..], i) && ResolveFrom(chunks, next, entries[1..]).error == ErrorFor(chunks, entries[1..][i]);
        assert FirstInvalid(chunks, entries, i + 1);
      }
    }
  }

  lemma {:induction false} ResolveFromDistinct(chunks: ChunkMap, found: seq<string>, entries: seq<string>)
    requires ImportsClosed(chunks)
    requires Distinct(found)
    ensures ResolveFrom(chunks, found, entries).Ok? ==> Distinct(ResolveFrom(chunks, found, entries).value)
    decreases |entries|
  {
    if entries != [] && IsEntryPoint(chunks, entries[0]) {
      var entry := entries[0];
      var start := Insert(found, entry);
      WalkDistinct(chunks, start, chunks[entry].imports);
      ResolveFromDistinct(chunks, Walk(chunks, start, chunks[entry].imports), entries[1..]);
    }
  }

  lemma CoveredCons(chunks: ChunkMap, entries: seq<string>, name: string)
    requires entries != []
    ensures Covered(chunks, entries, name) <==> Reachable(chunks, entries[0], name) || Covered(chunks, entries[1..], name)
  {
    if Covered(chunks, entries, name) && !Reachable(chunks, entries[0], name) {
      var i :| 0 <= i < |entries| && Reachable(chunks, entries[i], name);
      assert entries[1..][i - 1] == entries[i];
    }
    if Covered(chunks, entries[1..], name) {
      var i :| 0 <= i < |entries[1..]| && Reachable(chunks, entries[1..][i], name);
      assert entries[i + 1] == entries[1..][i];
    }
  }

  lemma {:induction false} ResolveFromCovers(chunks: ChunkMap, found: seq<string>, entries: seq<string>)
    requires ImportsClosed(chunks)
    requires Closed(chunks, found, [])
    ensures ResolveFrom(chunks, found, entries).Ok? ==>
      forall n :: n in ResolveFrom(chunks, found, entries).value <==> n in found || Covered(chunks, entries, n)
    decreases |entries|
  {
    if entries != [] && IsEntryPoint(chunks, entries[0]) {
      var entry := entries[0];
      var next := Walk(chunks, Insert(found, entry), chunks[entry].imports);
      EntryStep(chunks, found, entry);
      ResolveFromCovers(chunks, next, entries[1..]);
      forall n ensures Covered(chunks, entries, n) <==> Reachable(chunks, entry, n) || Covered(chunks, entries[1..], n) {
        CoveredCons(chunks, entries, n);
      }
    }
  }

  // ---------------------------------------------------------------------------
  // Order of the result.

  lemma {:induction false} ResolveFromAppend(chunks: ChunkMap, found: seq<string>, a: seq<string>, b: seq<string>)
    requires ImportsClosed(chunks)
    ensures ResolveFrom(chunks, found, a + b) ==
      match ResolveFrom(chunks, found, a)
      case Ok(r) => ResolveFrom(chunks, r, b)
      case Err(e) => Err(e)
    decreases |a|
  {
    if a == [] {
      assert a + b == b;
    } else {
      assert (a + b)[0] == a[0] && (a + b)[1..] == a[1..] + b;
      if IsEntryPoint(chunks, a[0]) {
        var next := Walk(chunks, Insert(found, a[0]), chunks[a[0]].imports);
        ResolveFromAppend(chunks, next, a[1..], b);
      }
    }
  }

  lemma PrefixTransitive(a: seq<string>, b: seq<string>, c: seq<string>)
    requires IsPrefix(a, b) && IsPrefix(b, c)
    ensures IsPrefix(a, c)
  {
    assert c[..|a|] == c[..|b|][..|a|];
  }

  /**
   * Once entry `entry` is taken after the chunks `before`, whatever the later entries add
   * comes after `before`, the entry and its direct imports.
   */
  lemma EntryTailOrder(chunks: ChunkMap, before: seq<string>, entry: string, rest: seq<string>, result: seq<string>)
    requires ImportsClosed(chunks) && entry in chunks
    requires ResolveFrom(chunks, Walk(chunks, Insert(before, entry), chunks[entry].imports), rest) == Ok(result)
    ensures IsPrefix(before, result)
    ensures IsPrefix(InsertAll(Insert(before, entry), chunks[entry].imports), result)
  {
    var start := Insert(before, entry);
    var next := Walk(chunks, start, chunks[entry].imports);
    ResolveFromExtends(chunks, next, rest);
    WalkFifo(chunks, start, chunks[entry].imports);
    WalkExtends(chunks, start, chunks[entry].imports);
    InsertAllExtends(start, chunks[entry].imports);
    PrefixTransitive(InsertAll(start, chunks[entry].imports), next, result);
    PrefixTransitive(start, InsertAll(start, chunks[entry].imports), result);
    PrefixTransitive(before, start, result);
  }

  /**
   * The order of the result: the chunks of the earlier entries come first and keep their
   * places; then entry `k` itself unless it was already found, then its direct imports not
   * found yet, in the order it declares them; the rest of its closure follows.
   */
  lemma ResolveOrder(chunks: ChunkMap, entries: seq<string>, k: int)
    requires ImportsClosed(chunks)
    requires 0 <= k < |entries|
    requires Resolve(chunks, entries).Ok?
    ensures IsEntryPoint(chunks, entries[k])
    ensures Resolve(chunks, entries[..k]).Ok?
    ensures IsPrefix(Resolve(chunks, entries[..k]).value, Resolve(chunks, entries).value)
    ensures IsPrefix(InsertAll(Insert(Resolve(chunks, entries[..k]).value, entries[k]), chunks[entries[k]].imports),
                     Resolve(chunks, entries).value)
  {
    var entry := entries[k];
    assert entries == entries[..k] + entries[k..];
    ResolveFromAppend(chunks, [], entries[..k], entries[k..]);
    var before := Resolve(chunks, entries[..k]).value;
    assert entries[k..][0] == entry;
    assert entries[k..][1..] == entries[k + 1..];
    EntryTailOrder(chunks, before, entry, entries[k + 1..], Resolve(chunks, entries).value);
  }

  // ---------------------------------------------------------------------------
  // Dynamic imports are never consulted.

  /** Two chunk maps with the same names, entry flags and static imports. */
  predicate SameImportGraph(c1: ChunkMap, c2: ChunkMap) {
    && c1.Keys == c2.Keys
    && forall n | n in c1 :: c1[n].isEntry == c2[n].isEntry && c1[n].imports == c2[n].imports
  }

  lemma {:induction false} WalkSameGraph(c1: ChunkMap, c2: ChunkMap, found: seq<string>, queue: seq<string>)
    requires ImportsClosed(c1) && ImportsClosed(c2) && SameImportGraph(c1, c2)
    requires forall n | n in queue :: n in c1
    ensures Walk(c1, found, queue) == Walk(c2, found, queue)
    decreases Unvisited(c1, found), |queue|
  {
    if queue == [] {
    } else if queue[0] in found {
      WalkSameGraph(c1, c2, found, queue[1..]);
    } else {
      var next := queue[0];
      assert (set n | n in found + [next]) == (set n | n in found) + {next};
      WalkSameGraph(c1, c2, found + [next], queue[1..] + c1[next].imports);
    }
  }

  lemma {:induction false} ResolveFromSameGraph(c1: ChunkMap, c2: ChunkMap, found: seq<string>, entries: seq<string>)
    requires ImportsClosed(c1) && ImportsClosed(c2) && SameImportGraph(c1, c2)
    ensures ResolveFrom(c1, found, entries) == ResolveFrom(c2, found, entries)
    decreases |entries|
  {
    if entries != [] && IsEntryPoint(c1, entries[0]) {
      var entry := entries[0];
      WalkSameGraph(c1, c2, Insert(found, entry), c1[entry].imports);
      ResolveFromSameGraph(c1, c2, Walk(c1, Insert(found, entry), c1[entry].imports), entries[1..]);
    }
  }

  /**
   * Resolution reads only the names, entry flags and static imports of the chunks: changing
   * dynamic imports (or any other field) cannot change the result.
   */
  lemma ResolveIgnoresDynamicImports(c1: ChunkMap, c2: ChunkMap, entries: seq<string>)
    requires ImportsClosed(c1) && SameImportGraph(c1, c2)
    ensures ImportsClosed(c2)
    ensures Resolve(c1, entries) == Resolve(c2, entries)
  {
    ResolveFromSameGraph(c1, c2, [], entries);
  }

  // ---------------------------------------------------------------------------
  // The worklist algorithm as the source writes it.

  /**
   * The inner loop of `findImportedChunks`: drain the first-in first-out queue, recording
   * each import not recorded yet and queueing its own imports at the back.
   */
  method DrainQueue(chunks: ChunkMap, found: seq<string>, queue: seq<string>) returns (r: seq<string>)
    requires ImportsClosed(chunks)
    requires forall n | n in queue :: n in chunks
    ensures r == Walk(chunks, found, queue)
  {
    r := found;
    var imports := queue;
    while imports != []
      invariant forall n | n in imports :: n in chunks
      invariant Walk(chunks, r, imports) == Walk(chunks, found, queue)
      decreases Unvisited(chunks, r), |imports|
    {
      var imported := imports[0];
      imports := imports[1..];
      if imported !in r {
        assert (set n | n in r + [imported]) == (set n | n in r) + {imported};
        r := r + [imported];
        imports := imports + chunks[imported].imports;
      }
    }
  }

  /**
   * `findImportedChunks`: for each requested name, check it, record it, then drain a
   * first-in first-out queue of its static imports, skipping names already recorded.
   */
  method FindImportedChunks(chunks: ChunkMap, entries: seq<string>) returns (r: Result<seq<string>, Error>)
    requires ImportsClosed(chunks)
    ensures r == Resolve(chunks, entries)
  {
    var found: seq<string> := [];
    var i := 0;
    while i < |entries|
      invariant 0 <= i <= |entries|
      invariant ResolveFrom(chunks, found, entries[i..]) == ResolveFrom(chunks, [], entries)
    {
      var entry := entries[i];
      assert entries[i..][0] == entry && entries[i..][1..] == entries[i + 1..];
      if entry !in chunks {
        return Err(EntryNotFound(entry));
      }
      if !chunks[entry].isEntry {
        return Err(NotAnEntryPoint(entry));
      }
      if entry !in found {
        found := found + [entry];
      }
      found := DrainQueue(chunks, found, chunks[entry].imports);
      i := i + 1;
    }
    assert entries[i..] == [];
    return Ok(found);
  }
}
