/**
 * The types the scheduler's evaluation context consumes from the job and plan
 * model: jobs with their task groups, tasks and constraints; allocations; the
 * in-progress plan; Go slices (where nil differs from empty); Go maps used as
 * scratch caches; and the two allocation-list helpers ProposedAllocs is built
 * from. Only the parts the context relies on are modelled.
 */
module Structs {

  /** Either a value or the error that prevented it (Go's `(T, error)` pair). */
  datatype Result<+T, +E> = Success(value: T) | Failure(error: E)

  /**
   * A Go slice. `Nil` is the nil slice; `Made(s)` is a non-nil slice holding
   * `s`, which may be empty. Both have the same elements when empty, but the
   * caller can tell them apart.
   */
  datatype Slice<+T> = Nil | Made(elems: seq<T>) {
    /** The elements, with nil read as the empty sequence (Go's `range`/`len`). */
    function Elems(): seq<T> {
      if Nil? then [] else elems
    }
  }

  /**
   * Go's `append(s, xs...)`: appending no elements hands back `s` itself (so
   * nil stays nil); appending any element gives a non-nil slice.
   */
  function Append<T>(s: Slice<T>, xs: seq<T>): (r: Slice<T>)
    ensures r.Elems() == s.Elems() + xs
    ensures r.Nil? <==> s.Nil? && xs == []
  {
    if xs == [] then s else Made(s.Elems() + xs)
  }

  /** A placement constraint; its meaning belongs to the feasibility checkers. */
  datatype Constraint = Constraint(lTarget: string, rTarget: string, operand: string)

  datatype Task = Task(name: string, constraints: seq<Constraint>)

  datatype TaskGroup = TaskGroup(name: string, constraints: seq<Constraint>, tasks: seq<Task>)

  datatype Job = Job(constraints: seq<Constraint>, taskGroups: seq<TaskGroup>)

  /**
   * An allocation, identified by `id`. `terminal` says whether the allocation
   * is in a terminal status; the rule deciding that is not part of this model.
   */
  datatype Allocation = Allocation(id: string, terminal: bool)

  /** The error the cluster-state accessor reports when a listing fails. */
  datatype StateError = StateError(message: string)

  /**
   * The in-progress plan: per node, the allocations it evicts (`NodeUpdate`)
   * and the allocations it places (`NodeAllocation`).
   */
  datatype Plan = Plan(nodeUpdate: map<string, seq<Allocation>>,
                       nodeAllocation: map<string, seq<Allocation>>)
  {
    /** The planned evictions for a node; a node with no entry has none. */
    function Evictions(nodeID: string): seq<Allocation> {
      if nodeID in nodeUpdate then nodeUpdate[nodeID] else []
    }

    /** The planned placements for a node; a node with no entry has none. */
    function Placements(nodeID: string): seq<Allocation> {
      if nodeID in nodeAllocation then nodeAllocation[nodeID] else []
    }
  }

  /**
   * The allocations of `s` that are not terminal. This body keeps their
   * order; only the multiplicities in its contract are claimed.
   */
  function NonTerminal(s: seq<Allocation>): (r: seq<Allocation>)
    ensures forall a :: multiset(r)[a] == if a.terminal then 0 else multiset(s)[a]
    ensures |r| <= |s|
  {
    if s == [] then []
    else
      assert s == [s[0]] + s[1..];
      if s[0].terminal then NonTerminal(s[1..]) else [s[0]] + NonTerminal(s[1..])
  }

  /** The identifiers of a list of allocations. */
  function Ids(allocs: seq<Allocation>): set<string> {
    set a | a in allocs :: a.id
  }

  /**
   * The allocations of `s` whose identifier is not in `ids`. This body keeps
   * their order; only the multiplicities in its contract are claimed.
   */
  function WithoutIds(s: seq<Allocation>, ids: set<string>): (r: seq<Allocation>)
    ensures forall a :: multiset(r)[a] == if a.id in ids then 0 else multiset(s)[a]
    ensures |r| <= |s|
  {
    if s == [] then []
    else
      assert s == [s[0]] + s[1..];
      if s[0].id in ids then WithoutIds(s[1..], ids) else [s[0]] + WithoutIds(s[1..], ids)
  }

  /**
   * `FilterTerminalAllocs`, which lives in Nomad's `structs` package outside
   * this model, so its behaviour here is an assumption: keeps the
   * non-terminal allocations. It works on the slice it is
   * given, so a nil slice comes back nil.
   */
  function FilterTerminalAllocs(allocs: Slice<Allocation>): (r: Slice<Allocation>)
    ensures r.Nil? <==> allocs.Nil?
    ensures forall a :: a in r.Elems() <==> a in allocs.Elems() && !a.terminal
    ensures forall a :: multiset(r.Elems())[a] == if a.terminal then 0 else multiset(allocs.Elems())[a]
  {
    if allocs.Nil? then Nil else Made(NonTerminal(allocs.elems))
  }

  /**
   * `RemoveAllocs`, which lives in Nomad's `structs` package outside this
   * model, so its behaviour here is an assumption: drops every allocation
   * whose identifier is that of some
   * allocation in `remove`. It works on the slice it is given, so a nil slice
   * comes back nil; identifiers in `remove` that match nothing are ignored.
   */
  function RemoveAllocs(allocs: Slice<Allocation>, remove: seq<Allocation>): (r: Slice<Allocation>)
    ensures r.Nil? <==> allocs.Nil?
    ensures forall a :: a in r.Elems() <==> a in allocs.Elems() && a.id !in Ids(remove)
    ensures forall a :: multiset(r.Elems())[a] == if a.id in Ids(remove) then 0 else multiset(allocs.Elems())[a]
  {
    if allocs.Nil? then Nil else Made(WithoutIds(allocs.elems, Ids(remove)))
  }

  /**
   * Removing against an empty eviction list changes nothing, so skipping the
   * call when there are no evictions gives the same slice.
   */
  lemma {:induction false} RemoveNothing(allocs: Slice<Allocation>)
    ensures RemoveAllocs(allocs, []) == allocs
  {
    if allocs.Made? {
      assert Ids([]) == {};
      WithoutNoIds(allocs.elems);
    }
  }

  lemma {:induction false} WithoutNoIds(s: seq<Allocation>)
    ensures WithoutIds(s, {}) == s
  {
    if s != [] {
      WithoutNoIds(s[1..]);
    }
  }

  /** A Go map from strings, a reference type: every holder sees the same entries. */
  class Table<V> {
    var entries: map<string, V>

    /** `make(map[string]V)`: a fresh, empty map. */
    constructor ()
      ensures entries == map[]
    {
      entries := map[];
    }
  }

  /** A compiled regular expression, known here only by its source pattern. */
  datatype Regexp = Regexp(pattern: string)

  /** Parsed version constraints, known here only by their source text. */
  datatype VersionConstraints = VersionConstraints(source: string)

  /** Placement metrics; their contents are not part of this model. */
  class AllocMetric {
    constructor () {}
  }
}
