/**
 The cache of successful tool results in one run (aicoder/agent_runtime.py, successful_tool_cache): a dictionary in
 insertion order, at most 64 entries, the oldest dropped first.
 */
module ResultCache {
  import opened Wrappers
  import opened Tools

  datatype Entry = Entry(op: Operation, result: string)

  type Cache = seq<Entry>

  /** Executing an operation in a world. */
  type Runner = (Operation, World) -> Execution

  const CACHE_LIMIT: nat := 64

  function Position(c: Cache, op: Operation): (r: Option<nat>)
    ensures r.Some? ==> r.value < |c| && c[r.value].op == op
    ensures r.None? ==> forall i | 0 <= i < |c| :: c[i].op != op
  {
    if c == [] then None
    else if c[|c| - 1].op == op then Some(|c| - 1)
    else Position(c[..|c| - 1], op)
  }

  function Lookup(c: Cache, op: Operation): Option<string> {
    var at := Position(c, op);
    if at.Some? then Some(c[at.value].result) else None
  }

  /** Setting a key of a dictionary overwrites in place or appends. */
  function Set(c: Cache, op: Operation, result: string): Cache {
    var at := Position(c, op);
    if at.Some? then c[at.value := Entry(op, result)] else c + [Entry(op, result)]
  }

  /** Store a result; one entry too many drops the oldest. */
  function Put(c: Cache, op: Operation, result: string): Cache {
    var stored := Set(c, op, result);
    if |stored| > CACHE_LIMIT then stored[1..] else stored
  }

  predicate Distinct(c: Cache) {
    forall i, j | 0 <= i < j < |c| :: c[i].op != c[j].op
  }

  predicate Bounded(c: Cache) {
    Distinct(c) && |c| <= CACHE_LIMIT
  }

  /** Every cached result is what executing its operation now would return. */
  predicate Faithful(run: Runner, world: World, c: Cache) {
    forall i | 0 <= i < |c| :: run(c[i].op, world).outcome == Outcome(c[i].result, false)
  }

  /** The world changes only when a state mutation succeeds. */
  ghost predicate StableWorld(p: Policy, run: Runner) {
    forall op, w :: (run(op, w).outcome.isError || !IsStateMutation(p, op)) ==> run(op, w).world == w
  }

  lemma SetKeepsTheCacheSound(run: Runner, world: World, c: Cache, op: Operation, result: string)
    requires Distinct(c)
    ensures Distinct(Set(c, op, result))
    ensures Faithful(run, world, c) && run(op, world).outcome == Outcome(result, false) ==>
      Faithful(run, world, Set(c, op, result))
    ensures Lookup(Set(c, op, result), op) == Some(result)
  {
    var at := Position(c, op);
    var stored := Set(c, op, result);
    var k := if at.Some? then at.value else |c|;
    assert stored[k] == Entry(op, result) && forall i | 0 <= i < |c| && i != k :: stored[i] == c[i];
    LookupOf(stored, k);
  }

  lemma PutKeepsTheCacheSound(run: Runner, world: World, c: Cache, op: Operation, result: string)
    requires Bounded(c)
    ensures Bounded(Put(c, op, result))
    ensures Faithful(run, world, c) && run(op, world).outcome == Outcome(result, false) ==>
      Faithful(run, world, Put(c, op, result))
  {
    SetKeepsTheCacheSound(run, world, c, op, result);
  }

  lemma LookupOf(c: Cache, k: nat)
    requires k < |c| && Distinct(c)
    ensures Lookup(c, c[k].op) == Some(c[k].result)
  {
  }

  lemma SetThenLookup(c: Cache, op: Operation, result: string, other: Operation)
    requires Distinct(c)
    ensures Distinct(Set(c, op, result))
    ensures Lookup(Set(c, op, result), other) == if other == op then Some(result) else Lookup(c, other)
  {
    var at := Position(c, op);
    var stored := Set(c, op, result);
    var k := if at.Some? then at.value else |c|;
    assert stored[k] == Entry(op, result) && forall i | 0 <= i < |c| && i != k :: stored[i] == c[i];
    if other == op {
      LookupOf(stored, k);
    } else if Position(c, other).Some? {
      LookupOf(stored, Position(c, other).value);
    }
  }

  lemma DropThenLookup(c: Cache, other: Operation)
    requires Distinct(c) && c != []
    ensures Lookup(c[1..], other) == if c[0].op == other then None else Lookup(c, other)
  {
  }

  /** A stored result is found again, and no other entry is lost, except the oldest one of a full cache. */
  lemma PutThenLookup(c: Cache, op: Operation, result: string, other: Operation)
    requires Bounded(c)
    ensures Lookup(Put(c, op, result), other) ==
            if other == op then Some(result)
            else if |c| == 64 && Position(c, op).None? && c[0].op == other then None
            else Lookup(c, other)
  {
    SetThenLookup(c, op, result, other);
    hide Lookup, Distinct;
    DropThenLookup(Set(c, op, result), other);
  }
}
