/** Replacement resolution: following a chain of id substitutions through the
    session's `replace` map, with a bounded number of lookups, and flattening
    that map so that every key points straight at its chain end. */
module Replacement {
  import opened Types

  /** The hop bound indirect_lookup uses by default. */
  const MaxIterations: nat := 10

  /** The id reached from `a` after `n` lookups in `d`; None when some id
      before the n-th lookup is not a key of `d`. */
  function Follow(d: map<Id, Id>, a: Id, n: nat): Option<Id>
    decreases n
  {
    if n == 0 then Some(a)
    else if a in d then Follow(d, d[a], n - 1)
    else None
  }

  /** What indirect_lookup(d, a, fuel) returns or raises: at most `fuel`
      lookups, each continuing while the value found is again a key. */
  function Resolve(d: map<Id, Id>, a: Id, fuel: nat): (r: Result<Id, Error>)
    ensures r.Ok? ==> a in d && r.value !in d
    ensures r == Err(MissingKey) <==> fuel > 0 && a !in d
    ensures r.Err? ==> r.error in {MissingKey, CircularReplacements}
    decreases fuel
  {
    if fuel == 0 then Err(CircularReplacements)
    else if a !in d then Err(MissingKey)
    else if d[a] in d then Resolve(d, d[a], fuel - 1)
    else Ok(d[a])
  }

  /** indirect_lookup: reassigns the current id once per hop, for at most
      `maxIterations` hops. */
  method IndirectLookup(d: map<Id, Id>, key: Id, maxIterations: nat) returns (r: Result<Id, Error>)
    ensures r == Resolve(d, key, maxIterations)
  {
    var a := key;
    for i := 0 to maxIterations
      invariant Resolve(d, a, maxIterations - i) == Resolve(d, key, maxIterations)
    {
      if a !in d {
        return Err(MissingKey);
      }
      var b := d[a];
      if b in d {
        a := b;
      } else {
        return Ok(b);
      }
    }
    return Err(CircularReplacements);
  }

  /** Two walks compose: n + m lookups are m lookups from where n ended. */
  lemma {:induction false} FollowAdd(d: map<Id, Id>, a: Id, n: nat, m: nat)
    requires Follow(d, a, n).Some?
    ensures Follow(d, a, n + m) == Follow(d, Follow(d, a, n).value, m)
    decreases n
  {
    if n > 0 {
      FollowAdd(d, d[a], n - 1, m);
    }
  }

  /** A walk that gets n lookups far passed through keys of `d` at every
      earlier step. */
  lemma {:induction false} FollowPrefix(d: map<Id, Id>, a: Id, n: nat, m: nat)
    requires Follow(d, a, n).Some? && m < n
    ensures Follow(d, a, m).Some? && Follow(d, a, m).value in d
    decreases n
  {
    if m > 0 {
      FollowPrefix(d, d[a], n - 1, m - 1);
    }
  }

  /** The circular-replacements error is raised exactly when the chain is
      still inside the key set after `fuel` lookups (or no lookup is allowed). */
  lemma {:induction false} ResolveCircular(d: map<Id, Id>, a: Id, fuel: nat)
    ensures Resolve(d, a, fuel) == Err(CircularReplacements) <==> (fuel == 0 || Follow(d, a, fuel + 1).Some?)
    decreases fuel
  {
    if fuel > 0 && a in d {
      assert Follow(d, a, fuel + 1) == Follow(d, d[a], fuel);
      if d[a] in d {
        ResolveCircular(d, d[a], fuel - 1);
        assert Follow(d, d[a], fuel) == Follow(d, d[d[a]], fuel - 1);
      } else {
        assert Follow(d, d[a], fuel) == None;
      }
    }
  }

  /** A successful lookup returns the end of the chain: an id reached from
      `a` within `fuel` lookups that is not itself a key. */
  lemma {:induction false} ResolveFollowsChain(d: map<Id, Id>, a: Id, fuel: nat)
    requires Resolve(d, a, fuel).Ok?
    ensures exists j :: 1 <= j <= fuel && Follow(d, a, j) == Some(Resolve(d, a, fuel).value)
    decreases fuel
  {
    if d[a] in d {
      ResolveFollowsChain(d, d[a], fuel - 1);
      var j :| 1 <= j <= fuel - 1 && Follow(d, d[a], j) == Some(Resolve(d, a, fuel).value);
      assert Follow(d, a, j + 1) == Follow(d, d[a], j);
    } else {
      assert Follow(d, a, 1) == Some(d[a]);
    }
  }

  /** A chain that leaves the key set within `fuel` lookups resolves to the
      id it leaves at. */
  lemma {:induction false} ResolveChainEnd(d: map<Id, Id>, a: Id, fuel: nat, j: nat, b: Id)
    requires 1 <= j <= fuel && Follow(d, a, j) == Some(b) && b !in d
    ensures Resolve(d, a, fuel) == Ok(b)
    decreases fuel
  {
    if j > 1 {
      ResolveChainEnd(d, d[a], fuel - 1, j - 1, b);
    }
  }

  /** A chain that returns to its start never leaves the key set. */
  lemma {:induction false} CycleStaysInKeys(d: map<Id, Id>, a: Id, p: nat, n: nat)
    requires p >= 1 && Follow(d, a, p) == Some(a)
    ensures Follow(d, a, n).Some?
    decreases n
  {
    if n <= p {
      if n < p {
        FollowPrefix(d, a, p, n);
      }
    } else {
      CycleStaysInKeys(d, a, p, n - p);
      FollowAdd(d, a, p, n - p);
    }
  }

  /** A cyclic chain raises the circular-replacements error for every bound:
      the lookup never loops unboundedly and never returns. */
  lemma ResolveCycle(d: map<Id, Id>, a: Id, p: nat, fuel: nat)
    requires p >= 1 && Follow(d, a, p) == Some(a)
    ensures Resolve(d, a, fuel) == Err(CircularReplacements)
  {
    CycleStaysInKeys(d, a, p, fuel + 1);
    ResolveCircular(d, a, fuel);
  }

  /** {a: b, b: c} looked up from a gives c. */
  lemma ChainExample()
    ensures Resolve(map["a" := "b", "b" := "c"], "a", MaxIterations) == Ok("c")
  {
    ResolveChainEnd(map["a" := "b", "b" := "c"], "a", MaxIterations, 2, "c");
  }

  /** {a: b, b: a} looked up from a raises the circular-replacements error. */
  lemma CycleExample()
    ensures Resolve(map["a" := "b", "b" := "a"], "a", MaxIterations) == Err(CircularReplacements)
  {
    var d := map["a" := "b", "b" := "a"];
    assert Follow(d, "a", 2) == Some("a");
    ResolveCycle(d, "a", 2, MaxIterations);
  }

  /** No value is itself a key: every entry points straight at a chain end. */
  predicate Flat(d: map<Id, Id>)
  {
    forall k :: k in d ==> d[k] !in d
  }

  /** The `replacements` dictionary comprehension: every key of `d` mapped to
      indirect_lookup(d, key); the first lookup that raises aborts it. */
  function Flatten(d: map<Id, Id>): (r: Result<map<Id, Id>, Error>)
    ensures r.Ok? ==> r.value.Keys == d.Keys && Flat(r.value)
    ensures r.Ok? ==> forall k :: k in d ==> Resolve(d, k, MaxIterations) == Ok(r.value[k])
    ensures r.Err? ==> r.error == CircularReplacements
    ensures r.Err? ==> exists k :: k in d && Resolve(d, k, MaxIterations) == Err(CircularReplacements)
  {
    if forall k :: k in d ==> Resolve(d, k, MaxIterations).Ok? then
      Ok(map k | k in d :: Resolve(d, k, MaxIterations).value)
    else
      Err(CircularReplacements)
  }

  /** In a flat map one lookup already reaches the chain end. */
  lemma FlatResolve(d: map<Id, Id>, k: Id, fuel: nat)
    requires Flat(d) && k in d && fuel >= 1
    ensures Resolve(d, k, fuel) == Ok(d[k])
  {
  }

  /** Flattening a flattened map gives it back unchanged. */
  lemma FlattenIdempotent(d: map<Id, Id>)
    requires Flatten(d).Ok?
    ensures Flatten(Flatten(d).value) == Flatten(d)
  {
    var f := Flatten(d).value;
    forall k | k in f
      ensures Resolve(f, k, MaxIterations) == Ok(f[k])
    {
      FlatResolve(f, k, MaxIterations);
    }
    assert (map k | k in f :: Resolve(f, k, MaxIterations).value) == f;
  }
}
