/** The jar as the mutable object the renewer and the refresh cycle share. */
module Jars {
  import opened Wrappers
  import opened CookieJar

  class Jar {
    var cookies: seq<Cookie>

    /** NewJar: Set each cookie in turn. */
    constructor (cookies: seq<Cookie>)
      ensures this.cookies == PutAll([], cookies)
    {
      this.cookies := [];
      new;
      for i := 0 to |cookies|
        invariant this.cookies == PutAll([], cookies[..i])
      {
        assert cookies[..i + 1][..i] == cookies[..i];
        Set(cookies[i]);
      }
      assert cookies[..|cookies|] == cookies;
    }

    method Set(c: Cookie)
      modifies this
      ensures cookies == Put(old(cookies), c)
    {
      ghost var was := cookies;
      for index := 0 to |cookies|
        invariant cookies == was && Put(was, c) == was[..index] + Put(was[index..], c)
      {
        if SameIdentity(cookies[index], c) {
          cookies := cookies[index := c];
          assert was[index..][1..] == was[index + 1..];
          return;
        }
        assert was[index..][1..] == was[index + 1..];
      }
      cookies := cookies + [c];
    }

    method LatestTokens(r: Reader) returns (latest: Index)
      ensures latest == Latest(r, cookies)
    {
      latest := map[];
      for i := 0 to |cookies|
        invariant latest == Latest(r, cookies[..i])
      {
        assert cookies[..i + 1][..i] == cookies[..i];
        var c := cookies[i];
        if IsTokenCookie(c.name) {
          var exp := r.exp(c.value);
          if exp.Some? && (c.name !in latest || exp.value > latest[c.name].expiration) {
            latest := latest[c.name := TokenInfo(c.name, exp.value, r.fingerprint(c.value), r.status(c.value), c)];
          }
        }
      }
      assert cookies[..|cookies|] == cookies;
    }

    method AllTouched(r: Reader) returns (touched: bool)
      ensures touched == Touched(Latest(r, cookies))
    {
      var latest := LatestTokens(r);
      if latest == map[] { return false; }
      var names := latest.Keys;
      while names != {}
        invariant names <= latest.Keys
        invariant forall n | n in latest.Keys - names :: latest[n].status == TOUCHED
        decreases names
      {
        var n :| n in names;
        if latest[n].status != TOUCHED { return false; }
        names := names - {n};
      }
      return true;
    }

    method TokenTTL(r: Reader, now: int) returns (ttl: Option<int>)
      ensures ttl == TTL(r, cookies, now)
    {
      var latest := LatestTokens(r);
      assert LatestExp(r, cookies).Keys == latest.Keys;
      if latest == map[] { return None; }
      var names := latest.Keys;
      var shortest: Option<int> := None;
      while names != {}
        invariant names <= latest.Keys
        invariant shortest == None ==> names == latest.Keys
        invariant shortest.Some? ==> exists n :: n in latest && latest[n].expiration - now == shortest.value
        invariant forall n | n in latest.Keys - names :: shortest.Some? && shortest.value <= latest[n].expiration - now
        decreases names
      {
        var n :| n in names;
        var remaining := latest[n].expiration - now;
        if shortest == None || remaining < shortest.value {
          shortest := Some(remaining);
        }
        names := names - {n};
      }
      assert latest.Keys == {} ==> latest == map[];
      ttl := shortest;
    }

    method RemoveOldTokenDuplicates(r: Reader) returns (removed: seq<Cookie>)
      modifies this
      ensures cookies == Pruned(r, old(cookies))
      ensures removed == Sieve(Latest(r, old(cookies)), old(cookies), true)
    {
      var latest := LatestTokens(r);
      var kept := [];
      removed := [];
      for i := 0 to |cookies|
        invariant cookies == old(cookies)
        invariant kept == Sieve(latest, cookies[..i], false) && removed == Sieve(latest, cookies[..i], true)
      {
        assert cookies[..i + 1][..i] == cookies[..i];
        if Stale(latest, cookies[i]) {
          removed := removed + [cookies[i]];
        } else {
          kept := kept + [cookies[i]];
        }
      }
      assert cookies[..|cookies|] == cookies;
      cookies := kept;
    }
  }

  /** ChangedTokens over the token cookie names. */
  method ChangedTokens(before: Index, after: Index) returns (changed: set<string>)
    ensures changed == Changed(before, after)
  {
    changed := {};
    var names := TOKEN_COOKIES;
    while names != {}
      invariant names <= TOKEN_COOKIES
      invariant changed == set n | n in TOKEN_COOKIES - names && n in Changed(before, after)
      decreases names
    {
      var n :| n in names;
      if n in after && (n !in before || before[n].fingerprint != after[n].fingerprint
                        || before[n].expiration != after[n].expiration) {
        changed := changed + {n};
      }
      names := names - {n};
    }
  }

  // ----- Any sequence of jar operations -----

  datatype Op = SetOp(cookie: Cookie) | PruneOp

  function RunOps(r: Reader, ops: seq<Op>): seq<Cookie> {
    if ops == [] then []
    else
      var cs := RunOps(r, ops[..|ops| - 1]);
      match ops[|ops| - 1]
      case SetOp(c) => Put(cs, c)
      case PruneOp => Pruned(r, cs)
  }

  function LastWrite(ops: seq<Op>, id: Ident): Option<Cookie> {
    if ops == [] then None
    else if ops[|ops| - 1].SetOp? && IdentOf(ops[|ops| - 1].cookie) == id then Some(ops[|ops| - 1].cookie)
    else LastWrite(ops[..|ops| - 1], id)
  }

  /** When the identity was last inserted anew: at a write that found no cookie of it. */
  function Born(r: Reader, ops: seq<Op>, id: Ident): int {
    if ops == [] then -1
    else
      var n := |ops| - 1;
      if ops[n].SetOp? && IdentOf(ops[n].cookie) == id && Slot(RunOps(r, ops[..n]), id) == None then n
      else Born(r, ops[..n], id)
  }

  predicate Increasing(cs: seq<Cookie>, f: Ident -> int) {
    forall i, j | 0 <= i < j < |cs| :: f(IdentOf(cs[i])) < f(IdentOf(cs[j]))
  }

  lemma {:induction false} SieveIncreasing(latest: Index, cs: seq<Cookie>, f: Ident -> int)
    requires Increasing(cs, f)
    ensures Increasing(Sieve(latest, cs, false), f)
  {
    if cs != [] {
      var n := |cs| - 1;
      SieveIncreasing(latest, cs[..n], f);
      var rest := Sieve(latest, cs[..n], false);
      forall i | 0 <= i < |rest| ensures f(IdentOf(rest[i])) < f(IdentOf(cs[n])) {
        assert rest[i] in cs[..n];
      }
    }
  }

  /**
   After any sequence of Set (so of NewJar and of response merging) and pruning: identities are
   pairwise distinct, each holds its last written cookie, and the jar is in the order in which
   the identities were inserted since they were last removed.
   */
  lemma {:induction false} JarRefinesMap(r: Reader, ops: seq<Op>)
    ensures var cs := RunOps(r, ops);
            && Distinct(cs)
            && (forall c | c in cs :: LastWrite(ops, IdentOf(c)) == Some(c))
            && Increasing(cs, id => Born(r, ops, id))
            && (forall c | c in cs :: Born(r, ops, IdentOf(c)) < |ops|)
  {
    if ops != [] {
      var n := |ops| - 1;
      var before, cs := RunOps(r, ops[..n]), RunOps(r, ops);
      JarRefinesMap(r, ops[..n]);
      match ops[n]
      case PruneOp =>
        PrunedMembers(r, before);
        SieveDistinct(Latest(r, before), before, false);
        SieveIncreasing(Latest(r, before), before, id => Born(r, ops[..n], id));
      case SetOp(c) =>
        PutIsMapUpdate(before, c, IdentOf(c));
        forall d | d in cs ensures LastWrite(ops, IdentOf(d)) == Some(d) && Born(r, ops, IdentOf(d)) < |ops| {
          PutIsMapUpdate(before, c, IdentOf(d));
          SlotOfMember(cs, d);
          SlotIn(before, IdentOf(d));
        }
        SlotIn(before, IdentOf(c));
        PutBorn(r, ops);
    }
  }

  /** The map a jar stands for: Set updates it, pruning removes the stale copies of tokens from it. */
  function RunMap(r: Reader, ops: seq<Op>): map<Ident, Cookie> {
    if ops == [] then map[]
    else
      var m := RunMap(r, ops[..|ops| - 1]);
      match ops[|ops| - 1]
      case SetOp(c) => m[IdentOf(c) := c]
      case PruneOp =>
        var latest := Latest(r, RunOps(r, ops[..|ops| - 1]));
        map id | id in m && !Stale(latest, m[id]) :: m[id]
  }

  lemma SlotOfSieve(latest: Index, cs: seq<Cookie>, id: Ident)
    requires Distinct(cs)
    ensures var found := Slot(cs, id);
            Slot(Sieve(latest, cs, false), id)
            == if found.Some? && !Stale(latest, found.value) then found else None
  {
    hide Stale, Slot;
    var kept := Sieve(latest, cs, false);
    SieveDistinct(latest, cs, false);
    SlotIn(cs, id);
    SlotIn(kept, id);
    if Slot(kept, id).Some? {
      SlotOfMember(cs, Slot(kept, id).value);
    } else if Slot(cs, id).Some? && !Stale(latest, Slot(cs, id).value) {
      SlotOfMember(kept, Slot(cs, id).value);
    }
  }

  /** At every identity the jar holds what the map holds, and nothing else. */
  lemma {:induction false} JarIsTheMap(r: Reader, ops: seq<Op>, id: Ident)
    ensures Slot(RunOps(r, ops), id) == if id in RunMap(r, ops) then Some(RunMap(r, ops)[id]) else None
  {
    if ops != [] {
      var n := |ops| - 1;
      var before := RunOps(r, ops[..n]);
      JarIsTheMap(r, ops[..n], id);
      JarRefinesMap(r, ops[..n]);
      match ops[n]
      case SetOp(c) => PutIsMapUpdate(before, c, id);
      case PruneOp => SlotOfSieve(Latest(r, before), before, id);
    }
  }

  /** Put keeps the order of the identities it finds, and appends the one it does not. */
  lemma PutIncreasing(cs: seq<Cookie>, c: Cookie, f: Ident -> int, g: Ident -> int)
    requires Increasing(cs, f)
    requires forall d | d in cs :: g(IdentOf(d)) == f(IdentOf(d))
    requires IdentOf(c) !in Order(cs) ==> forall d | d in cs :: f(IdentOf(d)) < g(IdentOf(c))
    ensures Increasing(Put(cs, c), g)
  {
    hide Put;
    var cs' := Put(cs, c);
    PutOrder(cs, c);
    forall i, j | 0 <= i < j < |cs'| ensures g(IdentOf(cs'[i])) < g(IdentOf(cs'[j])) {
      assert Order(cs')[i] == IdentOf(cs'[i]) && Order(cs')[j] == IdentOf(cs'[j]);
      assert Order(cs)[i] == IdentOf(cs[i]) && cs[i] in cs;
      if j < |cs| {
        assert Order(cs)[j] == IdentOf(cs[j]) && cs[j] in cs;
      }
    }
  }

  lemma PutBorn(r: Reader, ops: seq<Op>)
    requires ops != [] && ops[|ops| - 1].SetOp?
    requires Increasing(RunOps(r, ops[..|ops| - 1]), id => Born(r, ops[..|ops| - 1], id))
    requires forall c | c in RunOps(r, ops[..|ops| - 1]) :: Born(r, ops[..|ops| - 1], IdentOf(c)) < |ops| - 1
    ensures Increasing(RunOps(r, ops), id => Born(r, ops, id))
  {
    hide Increasing, Put, Slot;
    var n := |ops| - 1;
    var before, c := RunOps(r, ops[..n]), ops[n].cookie;
    SlotIn(before, IdentOf(c));
    forall d | d in before ensures Born(r, ops, IdentOf(d)) == Born(r, ops[..n], IdentOf(d)) {
      SlotIn(before, IdentOf(d));
      var i :| 0 <= i < |before| && before[i] == d;
      assert Order(before)[i] == IdentOf(d);
    }
    PutIncreasing(before, c, id => Born(r, ops[..n], id), id => Born(r, ops, id));
  }
}
