/**
 * Exception classes as identifiers with an explicit parent relation, and the
 * process-wide memo cache behind `reportable(base)`: a cache hit returns the
 * class made before, a miss makes a fresh class whose parents are `base` and
 * `ReportableErrorMixin`.
 */
module Classes {

  /** A class object, named by a number; a generated class has a larger number than its parents. */
  type ClassId = nat

  // The built-in classes the test suite touches, with the parents Python 3 gives them.
  const OBJECT: ClassId := 0
  const BASE_EXCEPTION: ClassId := 1
  const EXCEPTION: ClassId := 2
  const VALUE_ERROR: ClassId := 3
  const ATTRIBUTE_ERROR: ClassId := 4
  /** `ReportableErrorMixin`; only its being a class is modelled, so its one parent is `object`. */
  const MIXIN: ClassId := 5
  const MIXIN_NAME: string := "ReportableErrorMixin"

  /**
   * The class universe and the factory's cache: `parents` maps every known
   * class to its direct bases, `cache` maps a base class to the class
   * `reportable` made for it, and `next` is the next unused class id.
   */
  datatype Registry = Registry(
    cache: map<ClassId, ClassId>,
    parents: map<ClassId, set<ClassId>>,
    next: ClassId)
  {
    /** The invariant every reachable registry keeps. */
    predicate Valid() {
      && MIXIN in parents
      && (forall c :: c in parents ==> c < next)
      && (forall c, p :: c in parents && p in parents[c] ==> p < c)
      && (forall b :: b in cache ==>
            && b in parents && cache[b] in parents
            && b < cache[b] && MIXIN < cache[b]
            && parents[cache[b]] == {b, MIXIN})
    }

    /** `issubclass(c, d)`: `d` is `c` itself or an ancestor of `c`. */
    predicate IsSubclass(c: ClassId, d: ClassId): (r: bool)
      ensures c == d ==> r
      ensures r && c != d ==> c in parents && d < c
      decreases c
    {
      c == d || (c in parents && exists p | p in parents[c] :: p < c && IsSubclass(p, d))
    }

    /** One call `reportable(base)`: the registry afterwards and the class returned. */
    function Reportable(base: ClassId): (res: (Registry, ClassId))
      ensures base in res.0.cache && res.0.cache[base] == res.1
      ensures CacheKept(this, res.0)
    {
      if base in cache then (this, cache[base])
      else
        var c := next;
        (Registry(cache[base := c], parents[c := {base, MIXIN}], next + 1), c)
    }

    /**
     * A `class` statement with the given bases, as `ValueError` or a user's
     * own error class comes to exist: a fresh class id, recorded with those
     * parents, or with `object` alone when no base is named.
     */
    function Declare(bases: set<ClassId>): (res: (Registry, ClassId))
      ensures res.1 == next && res.0.next == next + 1 && res.0.cache == cache
      ensures res.0.parents == parents[next := DeclaredBases(bases)]
    {
      (Registry(cache, parents[next := DeclaredBases(bases)], next + 1), next)
    }
  }

  /** The parents a `class` statement records: the named bases, or `object` when there are none. */
  function DeclaredBases(bases: set<ClassId>): (ps: set<ClassId>)
    ensures ps != {}
    ensures bases != {} ==> ps == bases
    ensures bases == {} ==> ps == {OBJECT}
  {
    if bases == {} then {OBJECT} else bases
  }

  /** `later` keeps every cache entry of `earlier`. */
  ghost predicate CacheKept(earlier: Registry, later: Registry) {
    forall b :: b in earlier.cache ==> b in later.cache && later.cache[b] == earlier.cache[b]
  }

  /** `later` keeps every class of `earlier`, with the same parents. */
  ghost predicate ParentsKept(earlier: Registry, later: Registry) {
    forall c :: c in earlier.parents ==> c in later.parents && later.parents[c] == earlier.parents[c]
  }

  /** The registry at process start: the built-in classes and an empty cache. */
  function Initial(): (r: Registry)
    ensures r.Valid() && r.cache == map[]
    ensures r.IsSubclass(VALUE_ERROR, EXCEPTION) && r.IsSubclass(ATTRIBUTE_ERROR, EXCEPTION)
  {
    var r := Registry(
      map[],
      map[OBJECT := {}, BASE_EXCEPTION := {OBJECT}, EXCEPTION := {BASE_EXCEPTION},
          VALUE_ERROR := {EXCEPTION}, ATTRIBUTE_ERROR := {EXCEPTION}, MIXIN := {OBJECT}],
      MIXIN + 1);
    assert EXCEPTION in r.parents[VALUE_ERROR] && r.IsSubclass(EXCEPTION, EXCEPTION);
    assert EXCEPTION in r.parents[ATTRIBUTE_ERROR];
    r
  }

  /** Several calls `reportable(bases[0])`, `reportable(bases[1])`, ... in order. */
  function ReportableAll(r: Registry, bases: seq<ClassId>): (res: (Registry, seq<ClassId>))
    ensures |res.1| == |bases| && CacheKept(r, res.0)
    decreases |bases|
  {
    if bases == [] then (r, [])
    else
      var step := r.Reportable(bases[0]);
      var rest := ReportableAll(step.0, bases[1..]);
      (rest.0, [step.1] + rest.1)
  }

  /** Two distinct bases never share a generated class. */
  lemma CacheInjective(r: Registry, b1: ClassId, b2: ClassId)
    requires r.Valid() && b1 in r.cache && b2 in r.cache
    ensures r.cache[b1] == r.cache[b2] <==> b1 == b2
  {
  }

  /** `reportable(base)` on a class keeps the registry invariant. */
  lemma ReportableKeepsValid(r: Registry, base: ClassId)
    requires r.Valid() && base in r.parents
    ensures r.Reportable(base).0.Valid()
    ensures ParentsKept(r, r.Reportable(base).0)
  {
  }

  /**
   * Declaring a class whose bases are all known keeps the invariant, every
   * existing class and every cache entry, and uses an id no class had.
   */
  lemma DeclareKeepsValid(r: Registry, bases: set<ClassId>)
    requires r.Valid() && bases <= r.parents.Keys
    ensures var (r1, c) := r.Declare(bases);
      r1.Valid() && ParentsKept(r, r1) && CacheKept(r, r1) && c !in r.parents
  {
  }

  /** A declared class is a subclass of each of its bases, or of `object` when none is named. */
  lemma DeclaredIsSubclass(r: Registry, bases: set<ClassId>)
    requires r.Valid() && bases <= r.parents.Keys
    ensures var (r1, c) := r.Declare(bases);
      && (forall b :: b in bases ==> r1.IsSubclass(c, b))
      && (bases == {} ==> r1.IsSubclass(c, OBJECT))
  {
    var (r1, c) := r.Declare(bases);
    forall b | b in DeclaredBases(bases)
      ensures r1.IsSubclass(c, b)
    {
      assert b in r1.parents[c] && b < c && r1.IsSubclass(b, b);
    }
  }

  /** A run of calls on classes keeps the registry invariant. */
  lemma {:induction false} ReportableAllKeepsValid(r: Registry, bases: seq<ClassId>)
    requires r.Valid()
    requires forall b :: b in bases ==> b in r.parents
    ensures ReportableAll(r, bases).0.Valid()
    decreases |bases|
  {
    if bases != [] {
      var step := r.Reportable(bases[0]);
      ReportableKeepsValid(r, bases[0]);
      assert forall b :: b in bases[1..] ==> b in bases;
      ReportableAllKeepsValid(step.0, bases[1..]);
    }
  }

  /** The class the first call of a run returns stays in the cache under its base. */
  lemma FirstCached(r: Registry, bases: seq<ClassId>)
    requires bases != []
    ensures var res := ReportableAll(r, bases);
      bases[0] in res.0.cache && res.0.cache[bases[0]] == res.1[0]
  {
  }

  /** Every class returned along a run of calls stays in the cache under its base. */
  lemma {:induction false} ReportableAllCached(r: Registry, bases: seq<ClassId>, k: nat)
    requires k < |bases|
    ensures var res := ReportableAll(r, bases);
      bases[k] in res.0.cache && res.0.cache[bases[k]] == res.1[k]
    decreases |bases|
  {
    if k == 0 {
      FirstCached(r, bases);
    } else {
      var step := r.Reportable(bases[0]);
      var rest := ReportableAll(step.0, bases[1..]);
      var all := ReportableAll(r, bases);
      ReportableAllCached(step.0, bases[1..], k - 1);
      assert bases[1..][k - 1] == bases[k] && all.1[k] == rest.1[k - 1];
    }
  }

  /**
   * Memoization over any run of calls: two calls return the identical class
   * exactly when they were given the same base.
   */
  lemma Memoized(r: Registry, bases: seq<ClassId>, i: nat, j: nat)
    requires r.Valid()
    requires forall b :: b in bases ==> b in r.parents
    requires i < |bases| && j < |bases|
    ensures var res := ReportableAll(r, bases);
      res.1[i] == res.1[j] <==> bases[i] == bases[j]
  {
    ReportableAllCached(r, bases, i);
    ReportableAllCached(r, bases, j);
    ReportableAllKeepsValid(r, bases);
    var res := ReportableAll(r, bases);
    CacheInjective(res.0, bases[i], bases[j]);
  }

  /** A cache hit returns the stored class and changes nothing; a miss makes a class never seen before. */
  lemma ReportableHitOrMiss(r: Registry, base: ClassId)
    requires r.Valid() && base in r.parents
    ensures var res := r.Reportable(base);
      && (base in r.cache ==> res == (r, r.cache[base]))
      && (base !in r.cache ==>
            && res.1 == r.next && res.1 !in r.parents
            && res.0.parents == r.parents[res.1 := {base, MIXIN}]
            && res.0.cache == r.cache[base := res.1])
  {
  }

  /** Calling `reportable(base)` a second time changes nothing and returns the same class. */
  lemma ReportableIdempotent(r: Registry, base: ClassId)
    ensures var (r1, c1) := r.Reportable(base);
      r1.Reportable(base) == (r1, c1)
  {
  }

  /** Subclassing is transitive. */
  lemma {:induction false} SubclassTransitive(r: Registry, a: ClassId, b: ClassId, c: ClassId)
    requires r.IsSubclass(a, b) && r.IsSubclass(b, c)
    ensures r.IsSubclass(a, c)
    decreases a
  {
    if a != b {
      var p :| p in r.parents[a] && p < a && r.IsSubclass(p, b);
      SubclassTransitive(r, p, b, c);
    }
  }

  /** Making new classes never breaks an existing subclass relation. */
  lemma {:induction false} SubclassKept(r: Registry, r': Registry, c: ClassId, d: ClassId)
    requires ParentsKept(r, r') && r.IsSubclass(c, d)
    ensures r'.IsSubclass(c, d)
    decreases c
  {
    if c != d {
      var p :| p in r.parents[c] && p < c && r.IsSubclass(p, d);
      SubclassKept(r, r', p, d);
      assert p in r'.parents[c];
    }
  }

  /** A cached class is a subclass of its base and of the mixin. */
  lemma CachedIsSubclass(r: Registry, b: ClassId)
    requires r.Valid() && b in r.cache
    ensures r.IsSubclass(r.cache[b], b) && r.IsSubclass(r.cache[b], MIXIN)
  {
  }

  /**
   * `reportable(base)` is a subclass of `ReportableErrorMixin`, of `base`, and
   * of every class `base` itself descends from.
   */
  lemma ReportableIsSubclass(r: Registry, base: ClassId, ancestor: ClassId)
    requires r.Valid() && base in r.parents && r.IsSubclass(base, ancestor)
    ensures var (r1, c) := r.Reportable(base);
      r1.IsSubclass(c, base) && r1.IsSubclass(c, ancestor) && r1.IsSubclass(c, MIXIN)
  {
    var (r1, c) := r.Reportable(base);
    ReportableKeepsValid(r, base);
    CachedIsSubclass(r1, base);
    SubclassKept(r, r1, base, ancestor);
    SubclassTransitive(r1, c, base, ancestor);
  }

  /** The process-wide state of `reportable`: the class universe and the memo cache. */
  class ClassRegistry {
    var cache: map<ClassId, ClassId>
    var parents: map<ClassId, set<ClassId>>
    var next: ClassId

    /** The registry these fields hold. */
    function State(): Registry
      reads this
    {
      Registry(cache, parents, next)
    }

    ghost predicate Valid()
      reads this
    {
      State().Valid()
    }

    constructor ()
      ensures State() == Initial() && Valid()
    {
      var r := Initial();
      cache, parents, next := r.cache, r.parents, r.next;
    }

    /** Declare a new exception class with the given known bases, as a `class` statement does. */
    method DeclareClass(bases: set<ClassId>) returns (c: ClassId)
      requires Valid() && bases <= parents.Keys
      modifies this
      ensures Valid()
      ensures (State(), c) == old(State()).Declare(bases)
      ensures c == old(next) && c !in old(parents)
      ensures parents == old(parents)[c := DeclaredBases(bases)] && cache == old(cache)
    {
      ghost var res := State().Declare(bases);
      DeclareKeepsValid(State(), bases);
      var ps := if bases == {} then {OBJECT} else bases;
      c := next;
      parents := parents[c := ps];
      next := next + 1;
      assert State() == res.0;
    }

    /** `reportable(base)`: look the class up in the cache, or make and store a new one. */
    method Reportable(base: ClassId) returns (c: ClassId)
      requires Valid() && base in parents
      modifies this
      ensures Valid()
      ensures (State(), c) == old(State()).Reportable(base)
      ensures base in old(cache) ==> c == old(cache)[base] && State() == old(State())
      ensures base !in old(cache) ==>
        c == old(next) && c !in old(parents)
        && cache == old(cache)[base := c] && parents == old(parents)[c := {base, MIXIN}]
    {
      ghost var res := State().Reportable(base);
      ReportableHitOrMiss(State(), base);
      ReportableKeepsValid(State(), base);
      if base in cache {
        c := cache[base];
      } else {
        c := next;
        cache := cache[base := c];
        parents := parents[c := {base, MIXIN}];
        next := next + 1;
        assert State() == res.0;
      }
    }
  }
}
