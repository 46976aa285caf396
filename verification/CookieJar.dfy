/** The auth-worker's cookie jar: an ordered slice that behaves like a map, and its token index. */
module CookieJar {
  import opened Wrappers

  datatype Cookie = Cookie(
    name: string, value: string, domain: string, path: string,
    secure: bool, httpOnly: bool, hostOnly: bool, session: bool,
    sameSite: string, expiresAt: int)

  /** The storage identity of section 5.3 of RFC 6265. */
  datatype Ident = Ident(name: string, domain: string, path: string)

  function IdentOf(c: Cookie): Ident { Ident(c.name, c.domain, c.path) }

  predicate SameIdentity(a: Cookie, b: Cookie) {
    a.name == b.name && a.domain == b.domain && a.path == b.path
  }

  predicate SameValue(a: Cookie, b: Cookie) { SameIdentity(a, b) && a.value == b.value }

  predicate Distinct(cs: seq<Cookie>) {
    forall i, j | 0 <= i < j < |cs| :: IdentOf(cs[i]) != IdentOf(cs[j])
  }

  // ----- Setting -----

  function Put(cs: seq<Cookie>, c: Cookie): seq<Cookie> {
    if cs == [] then [c]
    else if SameIdentity(cs[0], c) then [c] + cs[1..]
    else [cs[0]] + Put(cs[1..], c)
  }

  function PutAll(cs: seq<Cookie>, more: seq<Cookie>): seq<Cookie> {
    if more == [] then cs else Put(PutAll(cs, more[..|more| - 1]), more[|more| - 1])
  }

  /** Where the jar holds a cookie of this identity, the first if there were several. */
  function Slot(cs: seq<Cookie>, id: Ident): Option<Cookie> {
    if cs == [] then None else if IdentOf(cs[0]) == id then Some(cs[0]) else Slot(cs[1..], id)
  }

  function Order(cs: seq<Cookie>): seq<Ident> {
    seq(|cs|, i requires 0 <= i < |cs| => IdentOf(cs[i]))
  }

  lemma {:induction false} SlotIn(cs: seq<Cookie>, id: Ident)
    ensures Slot(cs, id).Some? <==> id in Order(cs)
    ensures Slot(cs, id).Some? ==> Slot(cs, id).value in cs && IdentOf(Slot(cs, id).value) == id
    ensures Distinct(cs) ==> forall c | c in cs :: Slot(cs, IdentOf(c)) == Some(c)
  {
    if cs != [] {
      SlotIn(cs[1..], id);
      assert Order(cs) == [IdentOf(cs[0])] + Order(cs[1..]);
      forall c | Distinct(cs) && c in cs ensures Slot(cs, IdentOf(c)) == Some(c) {
        SlotOfMember(cs, c);
      }
    }
  }

  lemma {:induction false} SlotOfMember(cs: seq<Cookie>, c: Cookie)
    requires Distinct(cs) && c in cs
    ensures Slot(cs, IdentOf(c)) == Some(c)
  {
    if c != cs[0] {
      SlotOfMember(cs[1..], c);
    }
  }

  lemma {:induction false} PutOrder(cs: seq<Cookie>, c: Cookie)
    ensures Order(Put(cs, c)) == if IdentOf(c) in Order(cs) then Order(cs) else Order(cs) + [IdentOf(c)]
  {
    if cs != [] {
      hide Order;
      assert cs == [cs[0]] + cs[1..];
      OrderFrom(cs[0], cs[1..]);
      if SameIdentity(cs[0], c) {
        OrderFrom(c, cs[1..]);
      } else {
        PutOrder(cs[1..], c);
        OrderFrom(cs[0], Put(cs[1..], c));
        var id, rest := IdentOf(cs[0]), Order(cs[1..]);
        assert [id] + (rest + [IdentOf(c)]) == [id] + rest + [IdentOf(c)];
      }
    }
  }

  lemma OrderFrom(c: Cookie, rest: seq<Cookie>)
    ensures Order([c] + rest) == [IdentOf(c)] + Order(rest)
  {
  }

  lemma {:induction false} PutSlot(cs: seq<Cookie>, c: Cookie, id: Ident)
    ensures Slot(Put(cs, c), id) == if id == IdentOf(c) then Some(c) else Slot(cs, id)
  {
    if cs != [] && !SameIdentity(cs[0], c) {
      PutSlot(cs[1..], c, id);
    }
  }

  /** On identities, Set is a map update; a new identity goes to the end, a known one keeps its place. */
  lemma PutIsMapUpdate(cs: seq<Cookie>, c: Cookie, id: Ident)
    requires Distinct(cs)
    ensures Distinct(Put(cs, c))
    ensures Slot(Put(cs, c), id) == if id == IdentOf(c) then Some(c) else Slot(cs, id)
    ensures Order(Put(cs, c)) == if IdentOf(c) in Order(cs) then Order(cs) else Order(cs) + [IdentOf(c)]
  {
    PutSlot(cs, c, id);
    PutOrder(cs, c);
    var cs' := Put(cs, c);
    forall i, j | 0 <= i < j < |cs'| ensures IdentOf(cs'[i]) != IdentOf(cs'[j]) {
      assert Order(cs')[i] != Order(cs')[j];
    }
  }

  lemma {:induction false} PutAllDistinct(cs: seq<Cookie>, more: seq<Cookie>)
    requires Distinct(cs)
    ensures Distinct(PutAll(cs, more))
  {
    if more != [] {
      PutAllDistinct(cs, more[..|more| - 1]);
      PutIsMapUpdate(PutAll(cs, more[..|more| - 1]), more[|more| - 1], IdentOf(more[|more| - 1]));
    }
  }

  /** Cookies with pairwise different identities are stored as they come. */
  lemma {:induction false} PutAllOfDistinct(more: seq<Cookie>)
    requires Distinct(more)
    ensures PutAll([], more) == more
  {
    if more != [] {
      var rest := more[..|more| - 1];
      PutAllOfDistinct(rest);
      PutNew(rest, more[|more| - 1]);
    }
  }

  lemma {:induction false} PutNew(cs: seq<Cookie>, c: Cookie)
    requires forall i | 0 <= i < |cs| :: IdentOf(cs[i]) != IdentOf(c)
    ensures Put(cs, c) == cs + [c]
  {
    if cs != [] {
      PutNew(cs[1..], c);
      assert cs + [c] == [cs[0]] + (cs[1..] + [c]);
    }
  }

  // ----- Tokens -----

  const TOKEN_COOKIES: set<string> := {"prfr_bo_tkn"}
  const TOUCHED := "touched"

  predicate IsTokenCookie(name: string) { name in TOKEN_COOKIES }

  /** What is read from a token's text; nothing is assumed of these functions. */
  datatype Reader = Reader(exp: string -> Option<int>, status: string -> string, fingerprint: string -> string)

  datatype TokenInfo = TokenInfo(name: string, expiration: int, fingerprint: string, status: string, cookie: Cookie)

  predicate Readable(r: Reader, c: Cookie) { IsTokenCookie(c.name) && r.exp(c.value).Some? }

  function Exp(r: Reader, c: Cookie): int
    requires Readable(r, c)
  {
    r.exp(c.value).value
  }

  function InfoOf(r: Reader, c: Cookie): TokenInfo
    requires Readable(r, c)
  {
    TokenInfo(c.name, Exp(r, c), r.fingerprint(c.value), r.status(c.value), c)
  }

  type Index = map<string, TokenInfo>

  function Latest(r: Reader, cs: seq<Cookie>): Index {
    if cs == [] then map[]
    else
      var latest := Latest(r, cs[..|cs| - 1]);
      var c := cs[|cs| - 1];
      if Readable(r, c) && (c.name in latest ==> Exp(r, c) > latest[c.name].expiration)
      then latest[c.name := InfoOf(r, c)] else latest
  }

  /** Cookie `i` is the first of its name with the greatest readable expiry. */
  predicate Freshest(r: Reader, cs: seq<Cookie>, i: nat) {
    && i < |cs| && Readable(r, cs[i])
    && forall j | 0 <= j < |cs| && Readable(r, cs[j]) && cs[j].name == cs[i].name ::
         Exp(r, cs[j]) <= Exp(r, cs[i]) && (j < i ==> Exp(r, cs[j]) < Exp(r, cs[i]))
  }

  ghost predicate Indexes(r: Reader, cs: seq<Cookie>, latest: Index, name: string) {
    name in latest && exists i: nat :: Freshest(r, cs, i) && cs[i].name == name && latest[name] == InfoOf(r, cs[i])
  }

  lemma IndexedAt(r: Reader, cs: seq<Cookie>, latest: Index, name: string) returns (i: nat)
    requires Indexes(r, cs, latest, name)
    ensures i < |cs| && Freshest(r, cs, i) && Readable(r, cs[i]) && cs[i] in cs
    ensures cs[i].name == name && latest[name] == InfoOf(r, cs[i])
  {
    i :| Freshest(r, cs, i) && cs[i].name == name && latest[name] == InfoOf(r, cs[i]);
  }

  /** The freshest of a prefix stays so when what follows is no fresher. */
  lemma FreshestExtends(r: Reader, cs: seq<Cookie>, i: nat)
    requires cs != [] && i < |cs| - 1 && Freshest(r, cs[..|cs| - 1], i)
    requires var c := cs[|cs| - 1]; Readable(r, c) && c.name == cs[i].name ==> Exp(r, c) <= Exp(r, cs[i])
    ensures Freshest(r, cs, i)
  {
    forall j | 0 <= j < |cs| && Readable(r, cs[j]) && cs[j].name == cs[i].name
      ensures Exp(r, cs[j]) <= Exp(r, cs[i]) && (j < i ==> Exp(r, cs[j]) < Exp(r, cs[i]))
    {
      if j < |cs| - 1 { assert cs[..|cs| - 1][j] == cs[j]; }
    }
  }

  lemma FreshestLast(r: Reader, cs: seq<Cookie>)
    requires cs != [] && Readable(r, cs[|cs| - 1])
    requires forall c | c in cs[..|cs| - 1] && Readable(r, c) && c.name == cs[|cs| - 1].name ::
               Exp(r, c) < Exp(r, cs[|cs| - 1])
    ensures Freshest(r, cs, |cs| - 1)
  {
    forall j | 0 <= j < |cs| - 1 && Readable(r, cs[j]) && cs[j].name == cs[|cs| - 1].name
      ensures Exp(r, cs[j]) < Exp(r, cs[|cs| - 1])
    {
      assert cs[..|cs| - 1][j] in cs[..|cs| - 1];
    }
  }

  /** No readable copy is fresher than the indexed one. */
  lemma {:induction false} LatestCovers(r: Reader, cs: seq<Cookie>)
    ensures forall c | c in cs && Readable(r, c) ::
              c.name in Latest(r, cs) && Exp(r, c) <= Latest(r, cs)[c.name].expiration
  {
    if cs != [] {
      LatestCovers(r, cs[..|cs| - 1]);
      forall c | c in cs && Readable(r, c)
        ensures c.name in Latest(r, cs) && Exp(r, c) <= Latest(r, cs)[c.name].expiration
      {
        assert c in cs[..|cs| - 1] || c == cs[|cs| - 1];
      }
    }
  }

  lemma {:induction false} LatestIndexes(r: Reader, cs: seq<Cookie>, name: string)
    requires name in Latest(r, cs)
    ensures Indexes(r, cs, Latest(r, cs), name)
  {
    hide Freshest;
    var n := |cs| - 1;
    var before := Latest(r, cs[..n]);
    LatestCovers(r, cs[..n]);
    LatestCovers(r, cs);
    if name in before {
      LatestIndexes(r, cs[..n], name);
    }
    if name in before && Latest(r, cs)[name] == before[name] {
      var i := IndexedAt(r, cs[..n], before, name);
      FreshestExtends(r, cs, i);
    } else {
      FreshestLast(r, cs);
    }
  }

  /** The index holds exactly the names with a readable copy, each with its freshest copy. */
  lemma LatestIsFreshest(r: Reader, cs: seq<Cookie>)
    ensures forall name | name in Latest(r, cs) :: Indexes(r, cs, Latest(r, cs), name)
    ensures forall c | c in cs && Readable(r, c) ::
              c.name in Latest(r, cs) && Exp(r, c) <= Latest(r, cs)[c.name].expiration
  {
    LatestCovers(r, cs);
    forall name | name in Latest(r, cs) ensures Indexes(r, cs, Latest(r, cs), name) {
      LatestIndexes(r, cs, name);
    }
  }

  function LatestExp(r: Reader, cs: seq<Cookie>): map<string, int> {
    map name | name in Latest(r, cs) :: Latest(r, cs)[name].expiration
  }

  lemma {:induction false} ShortestExists(names: set<string>, exps: map<string, int>)
    requires names != {} && names <= exps.Keys
    ensures exists n :: n in names && forall m | m in names :: exps[n] <= exps[m]
    decreases |names|
  {
    var n :| n in names;
    if names != {n} {
      assert |names - {n}| < |names|;
      ShortestExists(names - {n}, exps);
      var m :| m in names - {n} && forall k | k in names - {n} :: exps[m] <= exps[k];
      var least := if exps[n] < exps[m] then n else m;
      assert least in names && forall k | k in names :: k == n || k in names - {n};
    }
  }

  ghost function Shortest(exps: map<string, int>): (m: int)
    requires exps != map[]
    ensures exists n :: n in exps && exps[n] == m
    ensures forall n | n in exps :: m <= exps[n]
  {
    assert exps.Keys == {} ==> exps == map[];
    ShortestExists(exps.Keys, exps);
    var n :| n in exps && forall m | m in exps :: exps[n] <= exps[m];
    exps[n]
  }

  /** The smallest remaining lifetime over the freshest tokens. */
  ghost function TTL(r: Reader, cs: seq<Cookie>, now: int): Option<int> {
    if LatestExp(r, cs) == map[] then None else Some(Shortest(LatestExp(r, cs)) - now)
  }

  /**
   The lifetime of a jar: there is none when no `prfr_bo_tkn` cookie has a readable expiry; else it is
   what is left of the latest of these expiries, however many copies there are and whatever their order.
   */
  lemma TTLReads(r: Reader, cs: seq<Cookie>, now: int)
    ensures TTL(r, cs, now) == None <==> forall c | c in cs && c.name == "prfr_bo_tkn" :: r.exp(c.value) == None
    ensures TTL(r, cs, now).Some? ==>
              exists c :: c in cs && c.name == "prfr_bo_tkn" && r.exp(c.value) == Some(TTL(r, cs, now).value + now)
    ensures TTL(r, cs, now).Some? ==>
              forall c | c in cs && c.name == "prfr_bo_tkn" && r.exp(c.value).Some? ::
                r.exp(c.value).value - now <= TTL(r, cs, now).value
  {
    hide Latest, Freshest;
    LatestIsFreshest(r, cs);
    assert TOKEN_COOKIES == {"prfr_bo_tkn"};
    var exps := LatestExp(r, cs);
    forall name | name in exps
      ensures name == "prfr_bo_tkn"
      ensures exists c :: c in cs && c.name == "prfr_bo_tkn" && r.exp(c.value) == Some(exps[name])
    {
      assert Indexes(r, cs, Latest(r, cs), name);
      var i := IndexedAt(r, cs, Latest(r, cs), name);
      assert cs[i] in cs && r.exp(cs[i].value) == Some(exps[name]);
    }
    forall c | c in cs && c.name == "prfr_bo_tkn" && r.exp(c.value).Some?
      ensures c.name in exps && r.exp(c.value).value <= exps[c.name]
    {
      assert Readable(r, c);
    }
  }

  /** Some readable token of the jar has not run out. */
  ghost predicate Alive(r: Reader, jar: seq<Cookie>, now: int) {
    exists c :: c in jar && c.name == "prfr_bo_tkn" && r.exp(c.value).Some? && r.exp(c.value).value > now
  }

  lemma AliveIff(r: Reader, jar: seq<Cookie>, now: int)
    ensures Alive(r, jar, now) <==> TTL(r, jar, now).Some? && TTL(r, jar, now).value > 0
  {
    hide TTL;
    TTLReads(r, jar, now);
  }

  predicate Touched(latest: Index) {
    latest != map[] && forall name | name in latest :: latest[name].status == TOUCHED
  }

  /** AllTouched: some token is readable, and the first readable copy of greatest expiry has the status "touched". */
  lemma TouchedIff(r: Reader, cs: seq<Cookie>)
    ensures Touched(Latest(r, cs)) <==>
              exists i :: 0 <= i < |cs| && cs[i].name == "prfr_bo_tkn" && r.exp(cs[i].value).Some?
                && r.status(cs[i].value) == "touched"
                && forall j | 0 <= j < |cs| && cs[j].name == "prfr_bo_tkn" && r.exp(cs[j].value).Some? ::
                     r.exp(cs[j].value).value <= r.exp(cs[i].value).value
                     && (j < i ==> r.exp(cs[j].value).value < r.exp(cs[i].value).value)
  {
    hide Latest;
    LatestIsFreshest(r, cs);
    assert TOKEN_COOKIES == {"prfr_bo_tkn"};
    forall name | name in Latest(r, cs) ensures name == "prfr_bo_tkn" {
      assert Indexes(r, cs, Latest(r, cs), name);
      var i := IndexedAt(r, cs, Latest(r, cs), name);
    }
    if "prfr_bo_tkn" in Latest(r, cs) {
      assert Indexes(r, cs, Latest(r, cs), "prfr_bo_tkn");
      var i := IndexedAt(r, cs, Latest(r, cs), "prfr_bo_tkn");
    }
    forall i | 0 <= i < |cs| && cs[i].name == "prfr_bo_tkn" && r.exp(cs[i].value).Some?
      ensures "prfr_bo_tkn" in Latest(r, cs)
    {
      assert Readable(r, cs[i]) && cs[i] in cs;
    }
  }

  /** Token names whose freshest copy is new, by fingerprint or expiry. */
  function Changed(before: Index, after: Index): set<string> {
    set name | name in TOKEN_COOKIES && name in after
               && (name !in before || before[name].fingerprint != after[name].fingerprint
                   || before[name].expiration != after[name].expiration)
  }

  /**
   The freshest copy of a changed name differs in text from the freshest one before, whatever the
   fingerprint function is.  Another copy of the name may have had that text all along.
   */
  lemma ChangedMeansOtherText(r: Reader, before: seq<Cookie>, after: seq<Cookie>, name: string)
    requires name in Changed(Latest(r, before), Latest(r, after))
    ensures name in Latest(r, after)
    ensures name in Latest(r, before) ==> Latest(r, after)[name].cookie.value != Latest(r, before)[name].cookie.value
  {
    LatestIsFreshest(r, before);
    LatestIsFreshest(r, after);
    assert Indexes(r, after, Latest(r, after), name);
    assert name in Latest(r, before) ==> Indexes(r, before, Latest(r, before), name);
  }

  // ----- Pruning -----

  predicate Stale(latest: Index, c: Cookie) {
    IsTokenCookie(c.name) && c.name in latest && !SameValue(latest[c.name].cookie, c)
  }

  /** The cookies that are stale (or that are not), in their old order. */
  function Sieve(latest: Index, cs: seq<Cookie>, stale: bool): (s: seq<Cookie>)
    ensures forall c :: c in s <==> c in cs && Stale(latest, c) == stale
  {
    if cs == [] then []
    else
      var rest := Sieve(latest, cs[..|cs| - 1], stale);
      if Stale(latest, cs[|cs| - 1]) == stale then rest + [cs[|cs| - 1]] else rest
  }

  function Pruned(r: Reader, cs: seq<Cookie>): seq<Cookie> {
    Sieve(Latest(r, cs), cs, false)
  }

  lemma {:induction false} SieveDistinct(latest: Index, cs: seq<Cookie>, stale: bool)
    requires Distinct(cs)
    ensures Distinct(Sieve(latest, cs, stale))
  {
    if cs != [] {
      var n := |cs| - 1;
      SieveDistinct(latest, cs[..n], stale);
      var rest := Sieve(latest, cs[..n], stale);
      forall i | 0 <= i < |rest| ensures IdentOf(rest[i]) != IdentOf(cs[n]) {
        assert rest[i] in cs[..n];
      }
    }
  }

  lemma {:induction false} SieveSplits(latest: Index, cs: seq<Cookie>)
    ensures multiset(cs) == multiset(Sieve(latest, cs, false)) + multiset(Sieve(latest, cs, true))
  {
    if cs != [] {
      SieveSplits(latest, cs[..|cs| - 1]);
      assert cs == cs[..|cs| - 1] + [cs[|cs| - 1]];
    }
  }

  lemma {:induction false} SieveAll(latest: Index, cs: seq<Cookie>)
    requires forall i | 0 <= i < |cs| :: !Stale(latest, cs[i])
    ensures Sieve(latest, cs, false) == cs && Sieve(latest, cs, true) == []
  {
    hide Stale;
    if cs != [] {
      var n := |cs| - 1;
      SieveAll(latest, cs[..n]);
      assert cs == cs[..n] + [cs[n]];
    }
  }

  /** Of a token name with a readable copy, only the freshest copy survives. */
  lemma SurvivorIsFreshest(r: Reader, cs: seq<Cookie>, c: Cookie)
    requires Distinct(cs)
    ensures c in Pruned(r, cs) && IsTokenCookie(c.name) && c.name in Latest(r, cs)
            ==> c == Latest(r, cs)[c.name].cookie
    ensures c.name in Latest(r, cs) ==> Latest(r, cs)[c.name].cookie in Pruned(r, cs)
    ensures c.name in Latest(r, cs) ==>
              && Readable(r, Latest(r, cs)[c.name].cookie) && Latest(r, cs)[c.name].cookie.name == c.name
              && Latest(r, cs)[c.name] == InfoOf(r, Latest(r, cs)[c.name].cookie)
  {
    LatestIsFreshest(r, cs);
    if c.name in Latest(r, cs) {
      assert Indexes(r, cs, Latest(r, cs), c.name);
    }
  }

  /** After pruning, the index reads the same. */
  lemma PrunedIndex(r: Reader, cs: seq<Cookie>, name: string)
    requires Distinct(cs)
    ensures var latest := Latest(r, cs);
            var after := Latest(r, Pruned(r, cs));
            (name in after <==> name in latest) && (name in latest ==> after[name] == latest[name])
  {
    hide Pruned, Freshest;
    var latest, kept := Latest(r, cs), Pruned(r, cs);
    LatestIsFreshest(r, cs);
    LatestIsFreshest(r, kept);
    PrunedMembers(r, cs);
    if name in latest {
      var c := latest[name].cookie;
      assert Indexes(r, cs, latest, name);
      SurvivorIsFreshest(r, cs, c);
      assert c in kept && Readable(r, c) && c.name == name;
    }
    if name in Latest(r, kept) {
      assert Indexes(r, kept, Latest(r, kept), name);
      var i := IndexedAt(r, kept, Latest(r, kept), name);
      SurvivorIsFreshest(r, cs, kept[i]);
    }
  }

  lemma PrunedMembers(r: Reader, cs: seq<Cookie>)
    ensures forall c | c in Pruned(r, cs) :: c in cs
    ensures forall c | c in cs && c.name !in Latest(r, cs) :: c in Pruned(r, cs)
  {
  }

  /**
   RemoveOldTokenDuplicates: kept and removed together are the old jar; a name with a readable
   copy keeps one cookie, the first with the greatest expiry; nothing else is touched; the token
   index (and so TokenTTL and AllTouched) is unchanged; and a second call removes nothing.
   */
  lemma PruningKeepsTheIndex(r: Reader, cs: seq<Cookie>)
    requires Distinct(cs)
    ensures var latest := Latest(r, cs);
            var kept := Pruned(r, cs);
            && multiset(cs) == multiset(kept) + multiset(Sieve(latest, cs, true))
            && Distinct(kept)
            && (forall name | name in latest :: latest[name].cookie in kept
                  && forall c | c in kept && c.name == name :: c == latest[name].cookie)
            && (forall c | c in cs && c.name !in latest :: c in kept)
            && Latest(r, kept) == latest
            && Sieve(Latest(r, kept), kept, true) == []
  {
    hide Freshest;
    var latest, kept := Latest(r, cs), Pruned(r, cs);
    SieveSplits(latest, cs);
    SieveDistinct(latest, cs, false);
    forall name | name in latest
      ensures latest[name].cookie in kept && forall c | c in kept && c.name == name :: c == latest[name].cookie
    {
      LatestIndexes(r, cs, name);
      SurvivorIsFreshest(r, cs, latest[name].cookie);
      forall c | c in kept && c.name == name ensures c == latest[name].cookie {
        SurvivorIsFreshest(r, cs, c);
      }
    }
    forall name ensures (name in Latest(r, kept) <==> name in latest)
        && (name in latest ==> Latest(r, kept)[name] == latest[name])
    {
      PrunedIndex(r, cs, name);
    }
    assert Latest(r, kept) == latest;
    SieveAll(latest, kept);
  }

  lemma PrunedKeepsTTL(r: Reader, cs: seq<Cookie>, now: int)
    requires Distinct(cs)
    ensures TTL(r, Pruned(r, cs), now) == TTL(r, cs, now)
  {
    hide Pruned, Latest, TTL;
    PruningKeepsTheIndex(r, cs);
    SameIndexSameTTL(r, Pruned(r, cs), cs, now);
  }

  lemma SameIndexSameTTL(r: Reader, a: seq<Cookie>, b: seq<Cookie>, now: int)
    requires Latest(r, a) == Latest(r, b)
    ensures TTL(r, a, now) == TTL(r, b, now)
  {
    hide Latest;
    assert LatestExp(r, a) == LatestExp(r, b);
  }
}
