/** The renewer's dealings with the jar: the Cookie header it sends, the Set-Cookie headers it merges. */
module HttpRenew {
  import opened Wrappers
  import opened CookieJar
  import opened Jars
  import opened CookieFile
  import opened Locations

  datatype HttpSameSite = DefaultMode | LaxMode | StrictMode | NoneMode

  datatype HttpCookie = HttpCookie(
    name: string, value: string, domain: string, path: string, secure: bool, httpOnly: bool,
    sameSite: HttpSameSite, maxAge: int, expires: Option<int>)

  function SameSiteFromHttp(mode: HttpSameSite): string {
    match mode
    case LaxMode => "Lax"
    case StrictMode => "Strict"
    case NoneMode => "None"
    case DefaultMode => "unspecified"
  }

  function DomainCookie(h: HttpCookie, now: int): Cookie {
    Cookie(h.name, h.value, OrDefault(h.domain, DEFAULT_DOMAIN), OrDefault(h.path, DEFAULT_PATH),
           h.secure, h.httpOnly, false, h.maxAge <= 0 && h.expires == None, SameSiteFromHttp(h.sameSite),
           if h.maxAge > 0 then now + h.maxAge else if h.expires.Some? then h.expires.value else 0)
  }

  /**
   Max-Age, when positive, decides the lifetime whatever Expires says; zero and negative ones count
   as absent, so they do not delete the cookie; with neither the cookie lasts for the session.
   */
  lemma MaxAgeFirst(h: HttpCookie, now: int, expires: Option<int>)
    ensures h.maxAge > 0 ==> DomainCookie(h.(expires := expires), now) == DomainCookie(h, now)
                             && DomainCookie(h, now).expiresAt == now + h.maxAge
    ensures h.maxAge <= 0 ==> DomainCookie(h, now) == DomainCookie(h.(maxAge := 0), now + 1)
    ensures h.maxAge <= 0 && h.expires.Some? ==> DomainCookie(h, now).expiresAt == h.expires.value
    ensures DomainCookie(h, now).session <==> h.maxAge <= 0 && h.expires == None
  {
  }

  /** The word in the file for each SameSite mode of a response. */
  function ModeWord(mode: HttpSameSite): string {
    match mode
    case DefaultMode => "unspecified"
    case LaxMode => "lax"
    case StrictMode => "strict"
    case NoneMode => "no_restriction"
  }

  /**
   What is written to the file for a response cookie, and what a named one is when the file is loaded:
   its own name, value and flags, SameSite, and lifetime, which is Max-Age from now on or else Expires.
   */
  lemma ResponseCookieSurvives(h: HttpCookie, now: int)
    ensures var until := if h.maxAge > 0 then Some(now + h.maxAge) else h.expires;
            var lasts := until.Some? && until.value != 0;
            var domain := if h.domain == "" then ".profi.ru" else h.domain;
            var path := if h.path == "" then "/" else h.path;
            var c := DomainCookie(h, now);
            var item := FromCookie(c);
            && IdentOf(c) == Ident(h.name, domain, path) && c.value == h.value
            && item == BrowserCookie(domain, false, h.httpOnly, h.name, path, ModeWord(h.sameSite), h.secure, !lasts,
                                     "0", h.value, if lasts then until else None)
            && (h.name != "" ==>
                  ToDomain(item) == Some(Cookie(h.name, h.value, domain, path, h.secure, h.httpOnly, false, !lasts,
                                                c.sameSite, if lasts then until.value else 0)))
  {
    hide SameSiteFromBrowser;
    CookieRoundTrip(DomainCookie(h, now));
    SameSiteRoundTrip(DomainCookie(h, now).sameSite);
  }

  /** The cookies of a response, each converted at its own reading of the clock. */
  function Received(cookies: seq<HttpCookie>, clock: nat -> int): seq<Cookie> {
    seq(|cookies|, i requires 0 <= i < |cookies| => DomainCookie(cookies[i], clock(i)))
  }

  /** Sets every response cookie in turn and returns their names, sorted and without repetition. */
  method MergeResponseCookies(jar: Jar, cookies: seq<HttpCookie>, clock: nat -> int) returns (names: seq<string>)
    modifies jar
    ensures jar.cookies == PutAll(old(jar.cookies), Received(cookies, clock))
    ensures forall i, j | 0 <= i < j < |names| :: LexLess(names[i], names[j])
    ensures forall name :: name in names <==> exists h :: h in cookies && h.name == name
  {
    ghost var received := Received(cookies, clock);
    names := [];
    for i := 0 to |cookies|
      invariant jar.cookies == PutAll(old(jar.cookies), received[..i])
      invariant AscendingNames(names)
      invariant forall name :: name in names <==> exists k :: 0 <= k < i && cookies[k].name == name
    {
      assert received[..i + 1][..i] == received[..i];
      jar.Set(DomainCookie(cookies[i], clock(i)));
      names := InsertName(names, cookies[i].name);
    }
    assert received[..|cookies|] == received;
  }

  predicate AscendingNames(names: seq<string>) {
    forall i, j | 0 <= i < j < |names| :: LexLess(names[i], names[j])
  }

  method InsertName(names: seq<string>, name: string) returns (grown: seq<string>)
    requires AscendingNames(names)
    ensures AscendingNames(grown)
    ensures forall n :: n in grown <==> n in names || n == name
  {
    hide LexLess;
    var k := |names|;
    while k > 0 && LexLess(name, names[k - 1])
      invariant 0 <= k <= |names|
      invariant forall j | k <= j < |names| :: LexLess(name, names[j])
    {
      k := k - 1;
    }
    if k > 0 && names[k - 1] == name { return names; }
    grown := names[..k] + [name] + names[k..];
    NameInserted(names, name, k);
  }

  lemma NameInserted(names: seq<string>, name: string, k: nat)
    requires AscendingNames(names) && k <= |names|
    requires k > 0 ==> !LexLess(name, names[k - 1]) && names[k - 1] != name
    requires forall j | k <= j < |names| :: LexLess(name, names[j])
    ensures AscendingNames(names[..k] + [name] + names[k..])
    ensures forall n :: n in names[..k] + [name] + names[k..] <==> n in names || n == name
  {
    hide LexLess;
    assert names == names[..k] + names[k..];
    if k > 0 {
      LexTotal(name, names[k - 1]);
      forall i | 0 <= i < k ensures LexLess(names[i], name) {
        if i < k - 1 { LexTransitive(names[i], names[k - 1], name); }
      }
    }
  }

  /** No response cookie deletes: whatever its Max-Age, its identity is in the jar after merging. */
  lemma {:induction false} MergedIsPresent(cs: seq<Cookie>, cookies: seq<HttpCookie>, clock: nat -> int, i: nat)
    requires Distinct(cs) && i < |cookies|
    ensures Slot(PutAll(cs, Received(cookies, clock)), IdentOf(DomainCookie(cookies[i], clock(i)))).Some?
  {
    var received := Received(cookies, clock);
    var id := IdentOf(DomainCookie(cookies[i], clock(i)));
    MergeIsLastWins(cs, received, id);
    assert IdentOf(received[i]) == id;
    LastOfSome(received, i, id);
  }

  lemma {:induction false} LastOfSome(cs: seq<Cookie>, i: nat, id: Ident)
    requires i < |cs| && IdentOf(cs[i]) == id
    ensures LastOf(cs, id).Some?
  {
    if i < |cs| - 1 {
      LastOfSome(cs[..|cs| - 1], i, id);
    }
  }

  function LastOf(cs: seq<Cookie>, id: Ident): Option<Cookie> {
    if cs == [] then None
    else if IdentOf(cs[|cs| - 1]) == id then Some(cs[|cs| - 1])
    else LastOf(cs[..|cs| - 1], id)
  }

  /** Merging: an identity holds its last response cookie, or what it held; the jar stays a map. */
  lemma {:induction false} MergeIsLastWins(cs: seq<Cookie>, more: seq<Cookie>, id: Ident)
    requires Distinct(cs)
    ensures Distinct(PutAll(cs, more))
    ensures Slot(PutAll(cs, more), id) == if LastOf(more, id).Some? then LastOf(more, id) else Slot(cs, id)
  {
    if more != [] {
      var n := |more| - 1;
      MergeIsLastWins(cs, more[..n], id);
      PutIsMapUpdate(PutAll(cs, more[..n]), more[n], id);
    }
  }

  lemma {:induction false} LastOfMembers(cs: seq<Cookie>, id: Ident)
    ensures LastOf(cs, id).Some? ==> LastOf(cs, id).value in cs && IdentOf(LastOf(cs, id).value) == id
  {
    if cs != [] && IdentOf(cs[|cs| - 1]) != id {
      LastOfMembers(cs[..|cs| - 1], id);
    }
  }

  lemma {:induction false} LastOfIs(cs: seq<Cookie>, i: nat)
    requires i < |cs| && forall j | i < j < |cs| :: IdentOf(cs[j]) != IdentOf(cs[i])
    ensures LastOf(cs, IdentOf(cs[i])) == Some(cs[i])
  {
    if i < |cs| - 1 {
      LastOfIs(cs[..|cs| - 1], i);
    }
  }

  /** Where a response cookie is stored: its name with its domain and path, or their defaults. */
  function PlaceOfResponse(h: HttpCookie): Ident {
    Ident(h.name, if h.domain == "" then ".profi.ru" else h.domain, if h.path == "" then "/" else h.path)
  }

  /**
   After merging, a place of the jar holds the last response cookie that is stored there, converted at its
   own reading of the clock; a place that no response cookie has is as it was.
   */
  lemma MergedReads(cs: seq<Cookie>, cookies: seq<HttpCookie>, clock: nat -> int, id: Ident)
    requires Distinct(cs)
    ensures var merged := PutAll(cs, Received(cookies, clock));
            && (forall i | 0 <= i < |cookies| && PlaceOfResponse(cookies[i]) == id
                   && (forall j | i < j < |cookies| :: PlaceOfResponse(cookies[j]) != id) ::
                  Slot(merged, id) == Some(DomainCookie(cookies[i], clock(i))))
            && ((forall h | h in cookies :: PlaceOfResponse(h) != id) ==> Slot(merged, id) == Slot(cs, id))
  {
    hide Slot, PutAll;
    var received := Received(cookies, clock);
    MergeIsLastWins(cs, received, id);
    forall i | 0 <= i < |cookies| ensures IdentOf(received[i]) == PlaceOfResponse(cookies[i]) {
      assert received[i] == DomainCookie(cookies[i], clock(i));
      assert DEFAULT_DOMAIN == ".profi.ru" && DEFAULT_PATH == "/";
    }
    forall i | 0 <= i < |cookies| && PlaceOfResponse(cookies[i]) == id
        && (forall j | i < j < |cookies| :: PlaceOfResponse(cookies[j]) != id)
      ensures LastOf(received, id) == Some(DomainCookie(cookies[i], clock(i)))
    {
      LastOfIs(received, i);
    }
    LastOfMembers(received, id);
    if LastOf(received, id).Some? {
      var i :| 0 <= i < |received| && received[i] == LastOf(received, id).value;
      assert cookies[i] in cookies && PlaceOfResponse(cookies[i]) == id;
    }
  }

  /** A jar that could be saved still can be, when every response cookie has a name. */
  lemma {:induction false} MergeKeepsStorable(cs: seq<Cookie>, cookies: seq<HttpCookie>, clock: nat -> int)
    requires forall c | c in cs :: Storable(c)
    requires forall h | h in cookies :: h.name != ""
    ensures forall c | c in PutAll(cs, Received(cookies, clock)) :: Storable(c)
  {
    if cookies != [] {
      var n := |cookies| - 1;
      var received := Received(cookies, clock);
      MergeKeepsStorable(cs, cookies[..n], clock);
      assert received[..n] == Received(cookies[..n], clock);
      assert cookies[n] in cookies;
      assert received[n] == DomainCookie(cookies[n], clock(n));
      assert |DEFAULT_DOMAIN| > 0 && |DEFAULT_PATH| > 0;
      PutMembers(PutAll(cs, received[..n]), received[n]);
    }
  }

  // ----- The Cookie header -----

  function LastValue(cs: seq<Cookie>, name: string): Option<string> {
    if cs == [] then None
    else if cs[|cs| - 1].name == name then Some(cs[|cs| - 1].value)
    else LastValue(cs[..|cs| - 1], name)
  }

  /** The first place of a name, or the length if it has none. */
  function FirstPlace(cs: seq<Cookie>, name: string): (k: nat)
    ensures k <= |cs| && (k < |cs| ==> cs[k].name == name)
    ensures forall i | 0 <= i < k :: cs[i].name != name
  {
    if cs == [] then 0
    else if cs[0].name == name then 0
    else 1 + FirstPlace(cs[1..], name)
  }

  lemma {:induction false} FirstPlaceExtends(cs: seq<Cookie>, c: Cookie, name: string)
    ensures FirstPlace(cs + [c], name) == if FirstPlace(cs, name) == |cs| && c.name != name
                                          then |cs| + 1 else FirstPlace(cs, name)
  {
    if cs != [] {
      FirstPlaceExtends(cs[1..], c, name);
      assert (cs + [c])[1..] == cs[1..] + [c];
    }
  }

  /** The names to send: each name of the jar once. */
  function Names(cs: seq<Cookie>): seq<string> {
    if cs == [] then []
    else
      var names := Names(cs[..|cs| - 1]);
      var name := cs[|cs| - 1].name;
      if name in names then names else names + [name]
  }

  function PairOf(cs: seq<Cookie>, name: string): string {
    match LastValue(cs, name)
    case None => name
    case Some(value) => name + "=" + value
  }

  function Pairs(cs: seq<Cookie>): seq<string> {
    seq(|Names(cs)|, i requires 0 <= i < |Names(cs)| => PairOf(cs, Names(cs)[i]))
  }

  /** Exactly one pair for each name in the jar, names by first appearance, each with its last value. */
  lemma {:induction false} OnePairPerName(cs: seq<Cookie>)
    ensures forall i, j | 0 <= i < j < |Names(cs)| :: FirstPlace(cs, Names(cs)[i]) < FirstPlace(cs, Names(cs)[j])
    ensures forall name :: name in Names(cs) <==> FirstPlace(cs, name) < |cs|
    ensures forall name :: name in Names(cs) <==> LastValue(cs, name).Some?
  {
    if cs != [] {
      var n := |cs| - 1;
      OnePairPerName(cs[..n]);
      assert cs == cs[..n] + [cs[n]];
      hide FirstPlace;
      forall name
        ensures FirstPlace(cs[..n], name) <= n
        ensures FirstPlace(cs, name) == if FirstPlace(cs[..n], name) == n && cs[n].name != name
                                        then n + 1 else FirstPlace(cs[..n], name)
      {
        FirstPlaceExtends(cs[..n], cs[n], name);
      }
    }
  }

  function Joined(pairs: seq<string>): string {
    if pairs == [] then "" else if |pairs| == 1 then pairs[0] else pairs[0] + "; " + Joined(pairs[1..])
  }

  // ----- Reading the header -----

  /** The first place of a character, or the length. */
  function Upto(s: string, c: char): (k: nat)
    ensures k <= |s| && (k < |s| ==> s[k] == c) && forall i | 0 <= i < k :: s[i] != c
  {
    if s == "" || s[0] == c then 0 else 1 + Upto(s[1..], c)
  }

  /** A server's view of the header: cut at each semicolon and the blank after it. */
  function CutPairs(header: string): seq<string> {
    var k := Upto(header, ';');
    if k + 2 > |header| then [header] else [header[..k]] + CutPairs(header[k + 2..])
  }

  /** A pair cut at its first equals sign. */
  function ReadPair(pair: string): (string, string) {
    var k := Upto(pair, '=');
    if k == |pair| then (pair, "") else (pair[..k], pair[k + 1..])
  }

  lemma {:induction false} UptoIs(s: string, c: char, k: nat)
    requires k <= |s| && c !in s[..k] && (k < |s| ==> s[k] == c)
    ensures Upto(s, c) == k
  {
    if k > 0 {
      assert s[0] == s[..k][0] && s[1..][..k - 1] == s[..k][1..];
      UptoIs(s[1..], c, k - 1);
    }
  }

  lemma PairReadsBack(name: string, value: string)
    requires '=' !in name
    ensures ReadPair(name + "=" + value) == (name, value)
  {
    var pair := name + "=" + value;
    assert pair[..|name|] == name && pair[|name| + 1..] == value;
    UptoIs(pair, '=', |name|);
  }

  lemma {:induction false} JoinedReadsBack(pairs: seq<string>)
    requires pairs != [] && forall p | p in pairs :: ';' !in p
    ensures CutPairs(Joined(pairs)) == pairs
  {
    hide CutPairs;
    CutLast(pairs[0]);
    if |pairs| > 1 {
      JoinedReadsBack(pairs[1..]);
      CutFirst(pairs[0], Joined(pairs[1..]));
      assert pairs == [pairs[0]] + pairs[1..];
    }
  }

  lemma CutLast(pair: string)
    requires ';' !in pair
    ensures CutPairs(pair) == [pair]
  {
    assert pair[..|pair|] == pair;
    UptoIs(pair, ';', |pair|);
  }

  lemma CutFirst(pair: string, rest: string)
    requires ';' !in pair
    ensures CutPairs(pair + "; " + rest) == [pair] + CutPairs(rest)
  {
    hide Upto;
    var header := pair + "; " + rest;
    assert header[..|pair|] == pair && header[|pair| + 2..] == rest;
    UptoIs(header, ';', |pair|);
  }

  /** Names and values as cookies have them: no separator inside. */
  predicate Plain(c: Cookie) { '=' !in c.name && ';' !in c.name && ';' !in c.value }

  /** Cookie `j` is the last of its name. */
  predicate LastOfName(cs: seq<Cookie>, j: nat) {
    j < |cs| && forall m | j < m < |cs| :: cs[m].name != cs[j].name
  }

  lemma {:induction false} LastValueReads(cs: seq<Cookie>, name: string) returns (j: nat)
    requires LastValue(cs, name).Some?
    ensures LastOfName(cs, j) && cs[j].name == name && LastValue(cs, name) == Some(cs[j].value)
  {
    j := |cs| - 1;
    if cs[j].name != name {
      j := LastValueReads(cs[..|cs| - 1], name);
    }
  }

  /** What a server reads in the header: each name once, with the value of the last cookie of that name. */
  lemma HeaderReadsBack(cs: seq<Cookie>)
    requires cs != [] && forall c | c in cs :: Plain(c)
    ensures var read := CutPairs(Joined(Pairs(cs)));
            && |read| == |Names(cs)|
            && forall i | 0 <= i < |read| :: IsLastPair(cs, Names(cs)[i], read[i])
  {
    hide Plain, Names, CutPairs, Joined, PairOf, IsLastPair;
    var names, pairs := Names(cs), Pairs(cs);
    forall i | 0 <= i < |pairs| ensures ';' !in pairs[i] && IsLastPair(cs, names[i], pairs[i]) {
      assert names[i] in names;
      PairReads(cs, names[i]);
    }
    NamesOfSome(cs);
    JoinedReadsBack(pairs);
  }

  /** The pair reads as this name and the value of the last cookie of it. */
  ghost predicate IsLastPair(cs: seq<Cookie>, name: string, pair: string) {
    exists j: nat :: LastOfName(cs, j) && cs[j].name == name && ReadPair(pair) == (name, cs[j].value)
  }

  lemma NamesOfSome(cs: seq<Cookie>)
    requires cs != []
    ensures Names(cs) != []
  {
  }

  lemma PairReads(cs: seq<Cookie>, name: string)
    requires (forall c | c in cs :: Plain(c)) && name in Names(cs)
    ensures ';' !in PairOf(cs, name) && IsLastPair(cs, name, PairOf(cs, name))
  {
    hide ReadPair, LastValue, FirstPlace, Names;
    OnePairPerName(cs);
    var j := LastValueReads(cs, name);
    assert cs[j] in cs;
    PairReadsBack(name, cs[j].value);
  }

  method CookieHeader(cs: seq<Cookie>) returns (header: string)
    ensures header == Joined(Pairs(cs))
  {
    var order: seq<string>, values: map<string, string> := [], map[];
    for k := 0 to |cs|
      invariant order == Names(cs[..k])
      invariant forall name :: name in order <==> name in values
      invariant forall name :: LastValue(cs[..k], name) == if name in values then Some(values[name]) else None
    {
      assert cs[..k + 1][..k] == cs[..k];
      if cs[k].name !in values {
        order := order + [cs[k].name];
      }
      values := values[cs[k].name := cs[k].value];
    }
    assert cs[..|cs|] == cs;
    var pairs := [];
    for i := 0 to |order|
      invariant pairs == Pairs(cs)[..i]
    {
      assert order[i] in values;
      pairs := pairs + [order[i] + "=" + values[order[i]]];
    }
    assert Pairs(cs)[..|order|] == Pairs(cs);
    header := Joined(pairs);
  }
}
