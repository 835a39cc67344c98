/**
 The dependency-injection container: recursive resolution with three lifetimes and a set of tokens
 in progress.  Factories are modelled by the tokens they resolve; the graph they span is judged by
 paths, independently of the resolver.
 */
module Container {
  import opened Wrappers
  import opened DependencyGraph

  datatype Lifetime = Singleton | Scoped | Transient

  /** A built object: its identity and what its factory was given. */
  datatype Instance = Instance(token: Token, id: nat, deps: seq<Instance>)

  datatype Registration = Registration(deps: seq<Token>, lifetime: Lifetime, instance: Option<Instance>)

  datatype ResolveError = NotRegistered(token: Token) | Circular(path: seq<Token>)

  function Count(log: seq<Token>, t: Token): nat {
    if log == [] then 0 else Count(log[..|log| - 1], t) + (if log[|log| - 1] == t then 1 else 0)
  }

  lemma CountAppend(log: seq<Token>, t: Token)
    ensures forall u :: Count(log + [t], u) == Count(log, u) + (if u == t then 1 else 0)
  {
    assert (log + [t])[..|log|] == log;
  }

  /** Every factory was given one object per dependency, in order. */
  predicate WellBuilt(g: Graph, x: Instance)
    decreases x
  {
    && x.token in g && |x.deps| == |g[x.token]|
    && forall i :: 0 <= i < |x.deps| ==> x.deps[i].token == g[x.token][i] && WellBuilt(g, x.deps[i])
  }

  function Without(s: seq<Token>, t: Token): seq<Token> {
    if s == [] then [] else (if s[0] == t then [] else [s[0]]) + Without(s[1..], t)
  }

  lemma {:induction false} WithoutLast(s: seq<Token>, t: Token)
    requires t !in s
    ensures Without(s + [t], t) == s
  {
    if s != [] {
      WithoutLast(s[1..], t);
      assert (s + [t])[1..] == s[1..] + [t];
    }
  }

  /** The error names a token that is missing, or a path that comes back to where it was. */
  ghost predicate Explains(g: Graph, root: Token, e: ResolveError) {
    match e
    case NotRegistered(u) => u !in g && Reaches(g, root, u)
    case Circular(path) =>
      && IsPath(g, path) && |path| > 1 && path[|path| - 1] in path[..|path| - 1] && ReachesStrictly(g, path[|path| - 1], path[|path| - 1])
      && Reaches(g, root, path[|path| - 1])
  }

  lemma ExplainsUp(g: Graph, t: Token, d: Token, e: ResolveError)
    requires Edge(g, t, d) && Explains(g, d, e)
    ensures Explains(g, t, e)
  {
    match e
    case NotRegistered(u) => EdgeThenReach(g, t, d, u);
    case Circular(path) => EdgeThenReach(g, t, d, path[|path| - 1]);
  }

  class Container {
    var registrations: map<Token, Registration>
    var scopedInstances: map<Token, Instance>
    var resolvingTokens: seq<Token>
    var nextId: nat
    /** Every object a factory has completed, by token, and the one that is not stored yet. */
    ghost var built: seq<Token>
    ghost var inHand: Option<Token>

    constructor()
      ensures Valid() && registrations == map[] && resolvingTokens == [] && built == [] && inHand == None
    {
      registrations, scopedInstances, resolvingTokens, nextId, built, inHand := map[], map[], [], 0, [], None;
    }

    ghost function Deps(): Graph
      reads this`registrations
    {
      map t | t in registrations :: registrations[t].deps
    }

    predicate Cached(t: Token)
      reads this`registrations, this`scopedInstances
    {
      t in registrations
      && ((registrations[t].lifetime.Singleton? && registrations[t].instance.Some?)
          || (registrations[t].lifetime.Scoped? && t in scopedInstances))
    }

    function CachedInstance(t: Token): Instance
      requires Cached(t)
      reads this`registrations, this`scopedInstances
    {
      if registrations[t].lifetime.Singleton? then registrations[t].instance.value else scopedInstances[t]
    }

    /** The object was given the cached objects of those of its dependencies that are not transient. */
    predicate Shares(x: Instance)
      reads this`registrations, this`scopedInstances
    {
      forall i :: 0 <= i < |x.deps| && x.deps[i].token in registrations && !registrations[x.deps[i].token].lifetime.Transient? ==>
        Cached(x.deps[i].token) && CachedInstance(x.deps[i].token) == x.deps[i]
    }

    /** A cached object is well built, its token is buildable, and it was built exactly once; one in hand is on its way there. */
    ghost predicate TokenOk(t: Token)
      reads this`registrations, this`scopedInstances, this`built, this`inHand, this`nextId
    {
      && (Cached(t) ==> (
            && Buildable(Deps(), t) && WellBuilt(Deps(), CachedInstance(t))
            && CachedInstance(t).token == t && CachedInstance(t).id < nextId && Shares(CachedInstance(t))))
      && (t in registrations && !registrations[t].lifetime.Transient? ==> 
            Count(built, t) == (if Cached(t) then 1 else 0) + (if inHand == Some(t) then 1 else 0))
      && (t !in registrations ==> Count(built, t) == 0)
    }

    ghost predicate Valid()
      reads this
    {
      && (resolvingTokens != [] ==> IsPath(Deps(), resolvingTokens)) && Distinct(resolvingTokens)
      && (forall s :: s in resolvingTokens ==> s in registrations && !Cached(s))
      && (forall t :: TokenOk(t))
      && nextId == |built| && (inHand.Some? ==> inHand.value in registrations && !Cached(inHand.value))
    }

    /** Tokens that could still be put in progress: what the recursion consumes. */
    ghost function Idle(): set<Token>
      reads this
    {
      set t | t in registrations && t !in resolvingTokens
    }

    /** A later registration of the same token replaces the earlier one. */
    method Register(token: Token, deps: seq<Token>, lifetime: Lifetime)
      modifies this
      ensures registrations == old(registrations)[token := Registration(deps, lifetime, None)]
      ensures scopedInstances == old(scopedInstances) - {token}
      ensures resolvingTokens == old(resolvingTokens) && built == old(built) && nextId == old(nextId) && inHand == old(inHand)
      ensures old(Valid()) && token !in old(registrations) && old(resolvingTokens) == [] ==> Valid()
    {
      ghost var g := Deps();
      ghost var wasValid := Valid() && token !in registrations && resolvingTokens == [];
      scopedInstances := scopedInstances - {token};
      registrations := registrations[token := Registration(deps, lifetime, None)];
      if wasValid {
        forall t ensures TokenOk(t) {
          assert old(TokenOk(t));
          if old(Cached(t)) {
            NewTokenKeepsBuildable(g, Deps(), token, t);
            StillWellBuilt(g, Deps(), old(CachedInstance(t)));
            assert old(Shares(CachedInstance(t)));
          }
        }
      }
    }

    /** The graph and the stack are as before, and every cached object is still the same object. */
    twostate predicate Kept()
      reads this
    {
      && registrations.Keys == old(registrations).Keys && nextId >= old(nextId)
      && (forall t :: t in registrations ==>
            registrations[t].deps == old(registrations)[t].deps && registrations[t].lifetime == old(registrations)[t].lifetime)
      && resolvingTokens == old(resolvingTokens)
      && CacheKept()
    }

    twostate predicate CacheKept()
      reads this
    {
      forall t :: old(Cached(t)) ==> Cached(t) && CachedInstance(t) == old(CachedInstance(t))
    }

    ghost predicate Promised(token: Token, r: Result<Instance, ResolveError>)
      reads this
    {
      && (r.Success? <==> Buildable(Deps(), token))
      && (r.Success? ==> r.value.token == token && r.value.id < nextId && WellBuilt(Deps(), r.value) && Shares(r.value))
      && (r.Failure? ==> Explains(Deps(), token, r.error))
    }

    /**
     The history logs each object as its factory completes and its identity is spent.  Valid states
     are all that resolutions lead to,
     so this holds over any sequence of them.
     */
    lemma SingletonsAreBuiltOnce(t: Token)
      requires Valid() && t in registrations && registrations[t].lifetime.Singleton?
      ensures Count(built, t) <= 1 && |built| == nextId
      ensures inHand == None ==> (Count(built, t) == 1 <==> registrations[t].instance.Some?)
    {
      assert TokenOk(t);
    }

    /** A nested resolution is asked for by the token on top of the stack. */
    ghost predicate Asked(token: Token)
      reads this
    {
      resolvingTokens != [] ==> Edge(Deps(), resolvingTokens[|resolvingTokens| - 1], token)
    }

    /**
     Resolution succeeds exactly when every reachable token is registered and none of them lies on
     a cycle; either way the stack is restored.  Singletons (and scoped tokens of the one scope) are
     shared, transients are new.
     */
    method Resolve(token: Token) returns (r: Result<Instance, ResolveError>)
      requires Valid() && Asked(token) && inHand == None
      modifies this
      ensures Valid() && Kept() && Promised(token, r) && inHand == None
      ensures r.Success? && !registrations[token].lifetime.Transient? ==> Cached(token) && r.value == CachedInstance(token)
      ensures r.Success? && registrations[token].lifetime.Transient? ==> r.value.id >= old(nextId)
      decreases |Idle()|, 3
    {
      BuildableStep(Deps(), token);
      if token !in registrations {
        ReachesItself(Deps(), token);
        return Failure(NotRegistered(token));
      }
      var registration := registrations[token];
      match registration.lifetime
      case Transient =>
        r := CreateInstance(token, registration.deps);
        if r.Success? { HandOver(token); }
      case Scoped =>
        assert TokenOk(token);
        if token in scopedInstances { return Success(scopedInstances[token]); }
        r := CreateAndStore(token, registration.deps);
      case Singleton =>
        assert TokenOk(token);
        if registration.instance.Some? { return Success(registration.instance.value); }
        r := CreateAndStore(token, registration.deps);
    }

    method CreateAndStore(token: Token, deps: seq<Token>) returns (r: Result<Instance, ResolveError>)
      requires Valid() && Asked(token) && !Cached(token) && inHand == None
      requires token in registrations && deps == registrations[token].deps && !registrations[token].lifetime.Transient?
      modifies this
      ensures Valid() && Kept() && Promised(token, r) && inHand == None
      ensures r.Success? ==> Cached(token) && r.value == CachedInstance(token)
      decreases |Idle()|, 2
    {
      r := CreateInstance(token, deps);
      if r.Success? { Store(token, r.value); }
    }

    /** A transient object goes to the caller and nowhere else. */
    ghost method HandOver(token: Token)
      requires Valid() && token in registrations && registrations[token].lifetime.Transient? && inHand == Some(token)
      modifies this`inHand
      ensures Valid() && inHand == None
    {
      forall t ensures old(TokenOk(t)) { assert old(Valid()); }
      inHand := None;
      forall t ensures TokenOk(t) { assert old(TokenOk(t)); }
    }

    method Store(token: Token, instance: Instance)
      requires Valid() && token in registrations && !registrations[token].lifetime.Transient? && !Cached(token)
      requires token !in resolvingTokens && inHand == Some(token)
      requires Promised(token, Success(instance))
      modifies this
      ensures Valid() && Kept() && Deps() == old(Deps()) && nextId == old(nextId)
      ensures Cached(token) && CachedInstance(token) == instance && inHand == None
    {
      ghost var g := Deps();
      forall t ensures old(TokenOk(t)) { assert old(Valid()); }
      if registrations[token].lifetime.Singleton? {
        registrations := registrations[token := registrations[token].(instance := Some(instance))];
      } else {
        scopedInstances := scopedInstances[token := instance];
      }
      inHand := None;
      assert Deps() == g;
      forall t ensures TokenOk(t) { assert old(TokenOk(t)); }
    }

    method CreateInstance(token: Token, deps: seq<Token>) returns (r: Result<Instance, ResolveError>)
      requires Valid() && Asked(token) && !Cached(token) && inHand == None
      requires token in registrations && deps == registrations[token].deps
      modifies this
      ensures Valid() && Kept() && Promised(token, r) && inHand == if r.Success? then Some(token) else None
      ensures r.Success? ==> !Cached(token) && token !in resolvingTokens && r.value.id >= old(nextId)
      decreases |Idle()|, 1
    {
      if token in resolvingTokens {
        var path := resolvingTokens + [token];
        StackReaches(Deps(), resolvingTokens, token, token);
        ReachesItself(Deps(), token);
        return Failure(Circular(path));
      }
      ghost var idle := Idle();
      Begin(token);
      assert Idle() == idle - {token} && token in idle;
      label begun:
      r := RunFactory(token, deps);
      label built:
      End(token, old(resolvingTokens));
      forall t | old(Cached(t)) ensures Cached(t) && CachedInstance(t) == old(CachedInstance(t)) {
        assert old@begun(Cached(t)) && old@built(Cached(t));
      }
    }

    method Begin(token: Token)
      requires Valid() && Asked(token) && !Cached(token) && token in registrations && token !in resolvingTokens
      modifies this`resolvingTokens
      ensures Valid() && Deps() == old(Deps()) && resolvingTokens == old(resolvingTokens) + [token] && CacheKept()
    {
      if resolvingTokens != [] {
        PathExtends(Deps(), resolvingTokens, resolvingTokens[0], resolvingTokens[|resolvingTokens| - 1], token);
      }
      resolvingTokens := resolvingTokens + [token];
    }

    /** The `finally`: success or failure, the token leaves the set. */
    method End(token: Token, ghost before: seq<Token>)
      requires Valid() && resolvingTokens == before + [token]
      modifies this`resolvingTokens
      ensures Valid() && Deps() == old(Deps()) && resolvingTokens == before && token !in resolvingTokens && CacheKept()
    {
      assert token !in before by {
        assert forall i :: 0 <= i < |before| ==> resolvingTokens[i] == before[i] && before[i] != resolvingTokens[|before|];
      }
      WithoutLast(before, token);
      ghost var g, path := Deps(), resolvingTokens;
      resolvingTokens := Without(resolvingTokens, token);
      if before != [] { PathPrefix(g, path); }
      forall t ensures TokenOk(t) { assert old(TokenOk(t)); }
    }

    /** The factory resolves its dependencies in order and stops at the first failure. */
    method RunFactory(token: Token, deps: seq<Token>) returns (r: Result<Instance, ResolveError>)
      requires Valid() && resolvingTokens != [] && resolvingTokens[|resolvingTokens| - 1] == token
      requires token in registrations && deps == registrations[token].deps && inHand == None
      modifies this
      ensures Valid() && Kept() && Promised(token, r) && inHand == if r.Success? then Some(token) else None
      ensures r.Success? ==> r.value.id >= old(nextId)
      decreases |Idle()|, 4
    {
      ghost var g := Deps();
      var parts: seq<Instance> := [];
      while |parts| < |deps|
        invariant |parts| <= |deps| && Valid() && Kept() && Deps() == g && Idle() == old(Idle()) && inHand == None
        invariant forall i :: 0 <= i < |parts| ==> Buildable(g, deps[i]) && parts[i].token == deps[i] && WellBuilt(g, parts[i])
        invariant forall i :: 0 <= i < |parts| && !registrations[deps[i]].lifetime.Transient? ==> Cached(deps[i]) && CachedInstance(deps[i]) == parts[i]
      {
        var k := |parts|;
        assert Edge(g, token, deps[k]);
        var part := Resolve(deps[k]);
        assert Deps() == g;
        if part.Failure? {
          ExplainsUp(g, token, deps[k], part.error);
          BuildableStep(g, token);
          return Failure(part.error);
        }
        parts := parts + [part.value];
      }
      BuildableStep(g, token);
      r := Finish(token, parts);
    }

    method Finish(token: Token, parts: seq<Instance>) returns (r: Result<Instance, ResolveError>)
      requires Valid() && inHand == None && token in resolvingTokens && Buildable(Deps(), token) && |parts| == |Deps()[token]|
      requires forall i :: 0 <= i < |parts| ==> parts[i].token == Deps()[token][i] && WellBuilt(Deps(), parts[i])
      requires Shares(Instance(token, nextId, parts))
      modifies this`nextId, this`built, this`inHand
      ensures Valid() && Kept() && Promised(token, r) && r.Success? && r.value.id >= old(nextId)
      ensures inHand == Some(token) && built == old(built) + [token]
    {
      forall t ensures old(TokenOk(t)) { assert old(Valid()); }
      r := Success(Instance(token, nextId, parts));
      CountAppend(built, token);
      nextId, built, inHand := nextId + 1, built + [token], Some(token);
      forall t ensures TokenOk(t) { assert old(TokenOk(t)); }
    }
  }

  lemma {:induction false} StillWellBuilt(g: Graph, g': Graph, x: Instance)
    requires WellBuilt(g, x) && g.Keys <= g'.Keys && forall t :: t in g ==> g'[t] == g[t]
    ensures WellBuilt(g', x) && forall i :: 0 <= i < |x.deps| ==> x.deps[i].token in g
    decreases x
  {
    forall i | 0 <= i < |x.deps| ensures WellBuilt(g', x.deps[i]) { StillWellBuilt(g, g', x.deps[i]); }
  }
}
