/** Role expansion of pkg/auth/scope/roles.go: a depth-first search with a stack
    set and a memo table. */
module Roles {
  import opened Wrappers

  type Config = map<string, seq<string>>

  type Scopes = set<string>

  datatype Error = Circular(role: string) | Undefined(role: string)

  predicate IsRoleReference(entry: string) {
    ':' !in entry
  }

  // ----- The role graph -----

  /** Entry `e` of role `r` names another role; "*" never does. */
  predicate RefersTo(config: Config, r: string, e: string) {
    r in config && e in config[r] && e != "*" && e in config
  }

  predicate IsLeaf(config: Config, e: string) {
    e == "*" || (e !in config && ':' in e)
  }

  ghost predicate HasDangling(config: Config) {
    exists r, e :: r in config && e in config[r] && e !in config && e != "*" && ':' !in e
  }

  ghost predicate IsPath(config: Config, p: seq<string>) {
    && p != [] && p[0] in config
    && forall i, j | 0 <= i < j < |p| && j == i + 1 :: RefersTo(config, p[i], p[j])
  }

  ghost predicate Cyclic(config: Config) {
    exists p :: IsPath(config, p) && |p| > 1 && p[0] == p[|p| - 1]
  }

  /** Some chain of references leads from r to a role that grants scope s. */
  ghost predicate Grants(config: Config, r: string, s: string) {
    exists p :: IsPath(config, p) && p[0] == r && GrantsHere(config, p[|p| - 1], s)
  }

  ghost predicate GrantsHere(config: Config, r: string, s: string) {
    r in config && s in config[r] && IsLeaf(config, s)
  }

  // ----- The memo table -----

  /** What one entry adds to the scopes of its role. */
  ghost predicate Adds(config: Config, cache: map<string, Scopes>, e: string, s: string) {
    || (IsLeaf(config, e) && s == e)
    || (e != "*" && e in config && e in cache && s in cache[e])
  }

  /** Entry e of a memoised role is a leaf or a role memoised earlier. */
  predicate Settled(config: Config, cache: map<string, Scopes>, rank: map<string, nat>, before: nat, e: string) {
    IsLeaf(config, e) || (e in config && e in cache && e in rank && rank[e] < before)
  }

  ghost predicate Solved(config: Config, cache: map<string, Scopes>, rank: map<string, nat>, r: string)
    requires r in config && r in cache && r in rank
  {
    && (forall e | e in config[r] :: Settled(config, cache, rank, rank[r], e))
    && (forall s :: s in cache[r] <==> exists e :: e in config[r] && Adds(config, cache, e, s))
  }

  /** Each memoised role is solved by roles memoised before it. */
  ghost predicate Sound(config: Config, cache: map<string, Scopes>, rank: map<string, nat>) {
    && cache.Keys <= config.Keys && cache.Keys == rank.Keys
    && forall r | r in cache :: rank[r] < |cache| && Solved(config, cache, rank, r)
  }

  lemma PathTail(config: Config, p: seq<string>)
    requires IsPath(config, p) && |p| > 1
    ensures RefersTo(config, p[0], p[1]) && IsPath(config, p[1..])
  {
  }

  lemma PathCons(config: Config, r: string, p: seq<string>)
    requires IsPath(config, p) && RefersTo(config, r, p[0])
    ensures IsPath(config, [r] + p)
  {
  }

  /** A sound table holds exactly what is granted along the references. */
  lemma {:induction false} TableIsClosure(config: Config, cache: map<string, Scopes>, rank: map<string, nat>, r: string, s: string)
    requires Sound(config, cache, rank) && r in cache
    ensures s in cache[r] <==> Grants(config, r, s)
    decreases rank[r]
  {
    assert Solved(config, cache, rank, r);
    if s in cache[r] {
      var e :| e in config[r] && Adds(config, cache, e, s);
      if IsLeaf(config, e) {
        assert IsPath(config, [r]) && GrantsHere(config, [r][0], s);
      } else {
        assert Settled(config, cache, rank, rank[r], e);
        TableIsClosure(config, cache, rank, e, s);
        var p :| IsPath(config, p) && p[0] == e && GrantsHere(config, p[|p| - 1], s);
        PathCons(config, r, p);
        assert ([r] + p)[|[r] + p| - 1] == p[|p| - 1];
      }
    }
    if Grants(config, r, s) {
      var p :| IsPath(config, p) && p[0] == r && GrantsHere(config, p[|p| - 1], s);
      if |p| == 1 {
        assert Adds(config, cache, s, s);
      } else {
        PathTail(config, p);
        assert Settled(config, cache, rank, rank[r], p[1]);
        assert p[1..][|p[1..]| - 1] == p[|p| - 1];
        TableIsClosure(config, cache, rank, p[1], s);
        assert Adds(config, cache, p[1], s);
      }
    }
  }

  lemma {:induction false} RankFalls(config: Config, cache: map<string, Scopes>, rank: map<string, nat>, p: seq<string>)
    requires Sound(config, cache, rank) && IsPath(config, p) && p[0] in cache
    ensures p[|p| - 1] in cache && rank[p[|p| - 1]] + |p| - 1 <= rank[p[0]]
  {
    if |p| > 1 {
      PathTail(config, p);
      assert Solved(config, cache, rank, p[0]);
      assert Settled(config, cache, rank, rank[p[0]], p[1]);
      RankFalls(config, cache, rank, p[1..]);
    }
  }

  lemma FullTableMeansAcyclic(config: Config, cache: map<string, Scopes>, rank: map<string, nat>)
    requires Sound(config, cache, rank) && cache.Keys == config.Keys
    ensures !Cyclic(config) && !HasDangling(config)
  {
    forall p | IsPath(config, p) && |p| > 1
      ensures p[0] != p[|p| - 1]
    {
      RankFalls(config, cache, rank, p);
    }
    forall r, e | r in config && e in config[r]
      ensures e in config || e == "*" || !IsRoleReference(e)
    {
      assert Solved(config, cache, rank, r);
      assert Settled(config, cache, rank, rank[r], e);
    }
  }

  /** The search stack: a path of roles under way, none of them memoised. */
  ghost predicate OnStack(config: Config, stack: seq<string>, visited: set<string>, name: string) {
    && visited == (set r | r in stack)
    && (stack != [] ==> IsPath(config, stack) && RefersTo(config, stack[|stack| - 1], name))
  }

  lemma StackClosesCycle(config: Config, stack: seq<string>, visited: set<string>, name: string)
    requires OnStack(config, stack, visited, name) && name in visited
    ensures Cyclic(config)
  {
    var i :| 0 <= i < |stack| && stack[i] == name;
    var p := stack[i..] + [name];
    assert IsPath(config, p) by {
      assert p[0] == stack[i];
      assert i > 0 ==> RefersTo(config, stack[i - 1], stack[i]);
      forall a, b | 0 <= a < b < |p| && b == a + 1
        ensures RefersTo(config, p[a], p[b])
      {
        assert p[a] == stack[i + a];
        assert p[b] == if i + b < |stack| then stack[i + b] else name;
      }
    }
    assert p[|p| - 1] == p[0];
  }

  /** A later table keeps every entry of an earlier one. */
  ghost predicate Extends(cache: map<string, Scopes>, rank: map<string, nat>, cache': map<string, Scopes>, rank': map<string, nat>) {
    && |cache| <= |cache'|
    && (forall r | r in cache :: r in cache' && cache'[r] == cache[r])
    && (forall r | r in rank :: r in rank' && rank'[r] == rank[r])
  }

  /** The entries read so far are settled, and `scopes` is what they add. */
  ghost predicate Gathered(config: Config, cache: map<string, Scopes>, rank: map<string, nat>, entries: seq<string>, scopes: Scopes) {
    && (forall e | e in entries :: Settled(config, cache, rank, |cache|, e))
    && (forall s :: s in scopes <==> exists e :: e in entries && Adds(config, cache, e, s))
  }

  lemma GatheredStays(config: Config, cache: map<string, Scopes>, rank: map<string, nat>,
                      cache': map<string, Scopes>, rank': map<string, nat>, entries: seq<string>, scopes: Scopes)
    requires Gathered(config, cache, rank, entries, scopes) && Extends(cache, rank, cache', rank')
    ensures Gathered(config, cache', rank', entries, scopes)
  {
    forall e | e in entries
      ensures Settled(config, cache', rank', |cache'|, e)
      ensures forall s :: Adds(config, cache', e, s) <==> Adds(config, cache, e, s)
    {
      assert Settled(config, cache, rank, |cache|, e);
    }
  }

  lemma GatherOne(config: Config, cache: map<string, Scopes>, rank: map<string, nat>,
                  entries: seq<string>, scopes: Scopes, e: string, more: Scopes)
    requires Gathered(config, cache, rank, entries, scopes) && Settled(config, cache, rank, |cache|, e)
    requires forall s :: s in more <==> Adds(config, cache, e, s)
    ensures Gathered(config, cache, rank, entries + [e], scopes + more)
  {
    forall s
      ensures s in scopes + more <==> exists e' :: e' in entries + [e] && Adds(config, cache, e', s)
    {
      if s in scopes {
        var e' :| e' in entries && Adds(config, cache, e', s);
        assert e' in entries + [e];
      }
      if s in more {
        assert e in entries + [e];
      }
    }
  }

  /** Memoising a role whose entries are all gathered keeps the table sound. */
  lemma MemoiseSound(config: Config, cache: map<string, Scopes>, rank: map<string, nat>, name: string, scopes: Scopes)
    requires Sound(config, cache, rank) && name in config && name !in cache
    requires Gathered(config, cache, rank, config[name], scopes)
    ensures Sound(config, cache[name := scopes], rank[name := |cache|])
    ensures Extends(cache, rank, cache[name := scopes], rank[name := |cache|])
  {
    var cache', rank' := cache[name := scopes], rank[name := |cache|];
    assert |cache'| == |cache| + 1;
    assert Extends(cache, rank, cache', rank');
    forall r | r in cache'
      ensures Solved(config, cache', rank', r)
    {
      forall e | e in config[r]
        ensures Settled(config, cache', rank', rank'[r], e)
        ensures forall s :: Adds(config, cache', e, s) <==> Adds(config, cache, e, s)
      {
        assert r != name ==> Settled(config, cache, rank, rank[r], e);
        assert r == name ==> Settled(config, cache, rank, |cache|, e);
      }
    }
  }

  class Resolver {
    const config: Config
    var visited: set<string>
    var cache: map<string, Scopes>
    ghost var rank: map<string, nat>

    constructor (config: Config)
      ensures this.config == config && cache == map[] && visited == {}
      ensures Sound(config, cache, rank)
    {
      this.config := config;
      visited, cache, rank := {}, map[], map[];
    }

    method Resolve(name: string, ghost stack: seq<string>) returns (r: Result<Scopes, Error>)
      requires Sound(config, cache, rank) && OnStack(config, stack, visited, name)
      requires cache.Keys !! visited && visited <= config.Keys
      modifies this
      ensures Sound(config, cache, rank) && Extends(old(cache), old(rank), cache, rank)
      ensures match r
              case Ok(scopes) => name in cache && cache[name] == scopes && visited == old(visited) && cache.Keys !! visited
              case Err(Circular(_)) => Cyclic(config)
              case Err(Undefined(_)) => HasDangling(config) || name !in config
      decreases config.Keys - visited, 2
    {
      if name in cache {
        return Ok(cache[name]);
      }
      if name in visited {
        StackClosesCycle(config, stack, visited, name);
        return Err(Circular(name));
      }
      r := Enter(name, stack);
    }

    /** Resolve a role that is neither memoised nor under way. */
    method Enter(name: string, ghost stack: seq<string>) returns (r: Result<Scopes, Error>)
      requires Sound(config, cache, rank) && OnStack(config, stack, visited, name)
      requires cache.Keys !! visited && visited <= config.Keys && name !in cache && name !in visited
      modifies this
      ensures Sound(config, cache, rank) && Extends(old(cache), old(rank), cache, rank)
      ensures r.Ok? ==> name in cache && cache[name] == r.value && visited == old(visited) && cache.Keys !! visited
      ensures r.Err? && r.error.Circular? ==> Cyclic(config)
      ensures r.Err? && r.error.Undefined? ==> HasDangling(config) || name !in config
      decreases config.Keys - visited, 1
    {
      visited := visited + {name};
      if name !in config {
        return Err(Undefined(name));
      }
      assert config.Keys - visited < config.Keys - old(visited);
      r := ResolveEntries(name, stack + [name]);
      if r.Ok? {
        Memoise(name, r.value, old(cache), old(rank));
        visited := visited - {name};
      }
    }

    method Memoise(name: string, scopes: Scopes, ghost cache0: map<string, Scopes>, ghost rank0: map<string, nat>)
      requires Sound(config, cache, rank) && name in config && name !in cache
      requires Gathered(config, cache, rank, config[name], scopes)
      requires Extends(cache0, rank0, cache, rank)
      modifies `cache, `rank
      ensures Sound(config, cache, rank) && Extends(cache0, rank0, cache, rank)
      ensures cache == old(cache)[name := scopes]
    {
      MemoiseSound(config, cache, rank, name, scopes);
      rank := rank[name := |cache|];
      cache := cache[name := scopes];
    }

    /** The loop over the entries of a role that has just been put on the stack. */
    method ResolveEntries(name: string, ghost stack: seq<string>) returns (r: Result<Scopes, Error>)
      requires Sound(config, cache, rank) && name in config
      requires IsPath(config, stack) && stack[|stack| - 1] == name && visited == set r | r in stack
      requires cache.Keys !! visited && visited <= config.Keys
      modifies this
      ensures Sound(config, cache, rank) && Extends(old(cache), old(rank), cache, rank)
      ensures match r
              case Ok(scopes) => visited == old(visited) && cache.Keys !! visited && Gathered(config, cache, rank, config[name], scopes)
              case Err(Circular(_)) => Cyclic(config)
              case Err(Undefined(_)) => HasDangling(config)
      decreases config.Keys - visited, 3
    {
      var entries := config[name];
      var scopes: Scopes := {};
      for i := 0 to |entries|
        invariant Sound(config, cache, rank) && Extends(old(cache), old(rank), cache, rank)
        invariant visited == old(visited) && cache.Keys !! visited
        invariant Gathered(config, cache, rank, entries[..i], scopes)
      {
        var entry := entries[i];
        assert entries[..i + 1] == entries[..i] + [entry];
        if entry == "*" {
          GatherOne(config, cache, rank, entries[..i], scopes, entry, {"*"});
          scopes := scopes + {"*"};
        } else if entry in config {
          ghost var cache0, rank0 := cache, rank;
          var expanded := Resolve(entry, stack);
          if expanded.Err? {
            return expanded;
          }
          GatheredStays(config, cache0, rank0, cache, rank, entries[..i], scopes);
          GatherOne(config, cache, rank, entries[..i], scopes, entry, expanded.value);
          scopes := scopes + expanded.value;
        } else if IsRoleReference(entry) {
          return Err(Undefined(entry));
        } else {
          GatherOne(config, cache, rank, entries[..i], scopes, entry, {entry});
          scopes := scopes + {entry};
        }
      }
      assert entries[..|entries|] == entries;
      return Ok(scopes);
    }
  }

  /** The outer loop, over the roles in any order. */
  method ExpandRoles(config: Config) returns (r: Result<map<string, Scopes>, Error>)
    ensures r.Ok? <==> !Cyclic(config) && !HasDangling(config)
    ensures r.Ok? ==> r.value.Keys == config.Keys
                      && forall role, s | role in config :: s in r.value[role] <==> Grants(config, role, s)
    ensures r.Err? ==> match r.error
                       case Circular(_) => Cyclic(config)
                       case Undefined(_) => HasDangling(config)
  {
    var resolver := new Resolver(config);
    var pending := config.Keys;
    while pending != {}
      invariant pending <= config.Keys && config.Keys - pending <= resolver.cache.Keys
      invariant Sound(config, resolver.cache, resolver.rank) && resolver.config == config
    {
      var roleName :| roleName in pending;
      pending := pending - {roleName};
      if roleName in resolver.cache {
        continue;
      }
      resolver.visited := {};
      var scopes := resolver.Resolve(roleName, []);
      if scopes.Err? {
        return Err(scopes.error);
      }
    }
    FullTableMeansAcyclic(config, resolver.cache, resolver.rank);
    forall role, s | role in config
      ensures s in resolver.cache[role] <==> Grants(config, role, s)
    {
      TableIsClosure(config, resolver.cache, resolver.rank, role, s);
    }
    return Ok(resolver.cache);
  }
}
