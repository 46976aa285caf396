/** The cookie file: conversion to and from the browser export, its order, and the round trip. */
module CookieFile {
  import opened Wrappers
  import opened CookieJar
  import opened Jars
  import opened Locations

  const DEFAULT_URL := "https://profi.ru"
  const DEFAULT_DOMAIN := ".profi.ru"
  const DEFAULT_PATH := "/"
  const DEFAULT_STORE := "0"

  datatype BrowserCookie = BrowserCookie(
    domain: string, hostOnly: bool, httpOnly: bool, name: string, path: string, sameSite: string,
    secure: bool, session: bool, storeId: string, value: string, expirationDate: Option<int>)

  // ----- One cookie -----

  function OrDefault(value: string, fallback: string): string {
    if value == "" then fallback else value
  }

  /** Go's lower case, as far as ASCII letters come out of it: U+0130 gives `i` and U+212A gives `k`. */
  function ToLower(s: string): string {
    seq(|s|, i requires 0 <= i < |s| =>
      if 'A' <= s[i] <= 'Z' then s[i] + ' '
      else if s[i] == '\U{130}' then 'i'
      else if s[i] == '\U{212A}' then 'k'
      else s[i])
  }

  function SameSiteFromBrowser(value: string): string {
    var v := ToLower(value);
    if v == "no_restriction" || v == "none" then "None"
    else if v == "lax" then "Lax"
    else if v == "strict" then "Strict"
    else "unspecified"
  }

  function SameSiteToBrowser(value: string): string {
    if value == "None" then "no_restriction"
    else if value == "Lax" then "lax"
    else if value == "Strict" then "strict"
    else "unspecified"
  }

  function ToDomain(b: BrowserCookie): Option<Cookie> {
    if b.name == "" then None
    else
      Some(Cookie(b.name, b.value, OrDefault(b.domain, DEFAULT_DOMAIN), OrDefault(b.path, DEFAULT_PATH),
                  b.secure, b.httpOnly, b.hostOnly, b.session, SameSiteFromBrowser(b.sameSite),
                  if !b.session && b.expirationDate.Some? then b.expirationDate.value else 0))
  }

  predicate IsSession(c: Cookie) { c.session || c.expiresAt == 0 }

  function FromCookie(c: Cookie): BrowserCookie {
    BrowserCookie(c.domain, c.hostOnly, c.httpOnly, c.name, OrDefault(c.path, DEFAULT_PATH),
                  SameSiteToBrowser(c.sameSite), c.secure, IsSession(c), DEFAULT_STORE, c.value,
                  if IsSession(c) then None else Some(c.expiresAt))
  }

  /** A cookie whose identity the file can hold. */
  predicate Storable(c: Cookie) { c.name != "" && c.domain != "" && c.path != "" }

  function NormalSameSite(s: string): string {
    if s in {"None", "Lax", "Strict"} then s else "unspecified"
  }

  /** What becomes of a storable cookie on its way through the file. */
  function Normal(c: Cookie): Cookie {
    c.(session := IsSession(c), expiresAt := if IsSession(c) then 0 else c.expiresAt,
       sameSite := NormalSameSite(c.sameSite))
  }

  /** The identity a cookie has once it was in the file. */
  function NormalIdent(c: Cookie): Ident {
    Ident(c.name, OrDefault(c.domain, DEFAULT_DOMAIN), OrDefault(c.path, DEFAULT_PATH))
  }

  lemma SameSiteRoundTrip(s: string)
    ensures SameSiteFromBrowser(SameSiteToBrowser(s)) == NormalSameSite(s)
  {
    var b := SameSiteToBrowser(s);
    assert ToLower(b) == b;
  }

  /** The text is this word with any of its letters in upper case. */
  predicate AnyCase(s: string, word: string) {
    && |s| == |word|
    && forall i | 0 <= i < |s| ::
         || s[i] == word[i]
         || ('a' <= word[i] <= 'z' && s[i] as int == word[i] as int - 32)
         || (word[i] == 'i' && s[i] == '\U{130}')
  }

  /** Four words are understood, in any case; all other texts are unspecified. */
  lemma SameSiteReads(s: string)
    ensures SameSiteFromBrowser(s) == "None" <==> AnyCase(s, "none") || AnyCase(s, "no_restriction")
    ensures SameSiteFromBrowser(s) == "Lax" <==> AnyCase(s, "lax")
    ensures SameSiteFromBrowser(s) == "Strict" <==> AnyCase(s, "strict")
    ensures SameSiteFromBrowser(s) in {"None", "Lax", "Strict", "unspecified"}
  {
    WordInAnyCase(s, "none");
    WordInAnyCase(s, "no_restriction");
    WordInAnyCase(s, "lax");
    WordInAnyCase(s, "strict");
  }

  lemma WordInAnyCase(s: string, word: string)
    requires forall i | 0 <= i < |word| :: ('a' <= word[i] <= 'z' && word[i] != 'k') || word[i] == '_'
    ensures ToLower(s) == word <==> AnyCase(s, word)
  {
    if ToLower(s) == word {
      forall i | 0 <= i < |s|
        ensures s[i] == word[i] || ('a' <= word[i] <= 'z' && s[i] as int == word[i] as int - 32)
                || (word[i] == 'i' && s[i] == '\U{130}')
      {
        assert ToLower(s)[i] == word[i];
      }
    }
  }

  /** The word for a SameSite text that the file is written with. */
  function SameSiteWord(s: string): string {
    if AnyCase(s, "none") || AnyCase(s, "no_restriction") then "no_restriction"
    else if AnyCase(s, "lax") then "lax"
    else if AnyCase(s, "strict") then "strict"
    else "unspecified"
  }

  /**
   One item of the file, loaded and saved: the name, the value and the flags stay; an empty domain or path
   gets its default, SameSite its lower-case word, and an expiry stays unless it is zero or the item is
   a session cookie.  Only an item without a name gives no cookie.
   */
  lemma ItemRoundTrip(b: BrowserCookie)
    ensures ToDomain(b) == None <==> b.name == ""
    ensures b.name != "" ==>
              var c := ToDomain(b).value;
              var lasts := !b.session && b.expirationDate.Some? && b.expirationDate.value != 0;
              && FromCookie(c) == BrowserCookie(
                   if b.domain == "" then ".profi.ru" else b.domain, b.hostOnly, b.httpOnly, b.name,
                   if b.path == "" then "/" else b.path, SameSiteWord(b.sameSite), b.secure, !lasts, "0", b.value,
                   if lasts then b.expirationDate else None)
              && c.name == b.name && c.value == b.value
              && c.domain == FromCookie(c).domain && c.path == FromCookie(c).path
              && (c.secure <==> b.secure) && (c.httpOnly <==> b.httpOnly) && (c.hostOnly <==> b.hostOnly)
              && (IsSession(c) <==> !lasts) && (lasts ==> c.expiresAt == b.expirationDate.value)
  {
    hide SameSiteFromBrowser, AnyCase;
    SameSiteReads(b.sameSite);
  }

  /** One cookie through the file: it normalises, and what is normal stays as it is, also in the file. */
  lemma CookieRoundTrip(c: Cookie)
    ensures ToDomain(FromCookie(c)).Some? <==> c.name != ""
    ensures c.name != "" ==>
              var d := ToDomain(FromCookie(c)).value;
              && d.name == c.name && d.value == c.value && IdentOf(d) == NormalIdent(c) && Storable(d)
              && IsSession(d) == IsSession(c)
    ensures Storable(c) ==> ToDomain(FromCookie(c)) == Some(Normal(c)) && IdentOf(c) == NormalIdent(c)
    ensures Storable(c) ==> LocationOf(FromCookie(c)) == IdentOf(c)
    ensures Storable(c) ==> FromCookie(Normal(c)) == FromCookie(c)
    ensures Normal(Normal(c)) == Normal(c)
  {
    SameSiteRoundTrip(c.sameSite);
  }

  // ----- The export -----

  function LocationOf(b: BrowserCookie): Ident { Ident(b.name, b.domain, b.path) }

  function Places(items: seq<BrowserCookie>): seq<Ident> {
    seq(|items|, i requires 0 <= i < |items| => LocationOf(items[i]))
  }

  function Written(cs: seq<Cookie>): seq<BrowserCookie> {
    seq(|cs|, i requires 0 <= i < |cs| => FromCookie(cs[i]))
  }

  /** Any order by location of the jar's cookies; nothing else is promised of the sort. */
  ghost predicate IsExport(items: seq<BrowserCookie>, cs: seq<Cookie>) {
    Sorted(Places(items)) && multiset(items) == multiset(Written(cs))
  }

  function Mapped(items: seq<BrowserCookie>): seq<Cookie> {
    if items == [] then []
    else
      var init := Mapped(items[..|items| - 1]);
      match ToDomain(items[|items| - 1])
      case None => init
      case Some(c) => init + [c]
  }

  /** The jar the file gives. */
  function Import(items: seq<BrowserCookie>): seq<Cookie> { PutAll([], Mapped(items)) }

  method InsertByLocation(sorted: seq<BrowserCookie>, item: BrowserCookie) returns (grown: seq<BrowserCookie>)
    requires Sorted(Places(sorted))
    ensures Sorted(Places(grown))
    ensures multiset(grown) == multiset(sorted) + multiset{item}
  {
    hide Before, Sorted;
    var k := |sorted|;
    while k > 0 && Before(LocationOf(item), LocationOf(sorted[k - 1]))
      invariant 0 <= k <= |sorted|
      invariant forall j | k <= j < |sorted| :: Before(LocationOf(item), LocationOf(sorted[j]))
    {
      k := k - 1;
    }
    grown := sorted[..k] + [item] + sorted[k..];
    InsertionSorts(Places(sorted), LocationOf(item), k);
    Inserted(sorted, item, k);
  }

  lemma Inserted(items: seq<BrowserCookie>, item: BrowserCookie, k: nat)
    requires k <= |items|
    ensures var grown := items[..k] + [item] + items[k..];
            && Places(grown) == Places(items)[..k] + [LocationOf(item)] + Places(items)[k..]
            && multiset(grown) == multiset(items) + multiset{item}
  {
    hide LocationOf;
    assert items == items[..k] + items[k..];
  }

  lemma InsertionSorts(ids: seq<Ident>, id: Ident, k: nat)
    requires Sorted(ids) && k <= |ids|
    requires k > 0 ==> !Before(id, ids[k - 1])
    requires forall m | k <= m < |ids| :: Before(id, ids[m])
    ensures Sorted(ids[..k] + [id] + ids[k..])
  {
    hide Before;
    var grown := ids[..k] + [id] + ids[k..];
    forall i, j | 0 <= i < j < |grown| ensures !Before(grown[j], grown[i]) {
      if j == k && i < k - 1 {
        NotBeforeTransitive(id, ids[k - 1], ids[i]);
      } else if i == k {
        BeforeTotal(id, id);
        if Before(ids[j - 1], id) { BeforeTransitive(id, ids[j - 1], id); }
      }
    }
  }

  lemma NotBeforeTransitive(a: Ident, b: Ident, c: Ident)
    requires !Before(a, b) && !Before(b, c)
    ensures !Before(a, c)
  {
    hide Before;
    BeforeTotal(a, b);
    BeforeTotal(b, c);
    if Before(a, c) && b != a && b != c {
      BeforeTransitive(c, b, a);
      BeforeTransitive(a, c, a);
      BeforeTotal(a, a);
    }
  }

  /** Every jar has an export. */
  lemma {:induction false} ExportExists(cs: seq<Cookie>) returns (items: seq<BrowserCookie>)
    ensures IsExport(items, cs)
  {
    hide Before, FromCookie;
    if cs == [] {
      items := [];
    } else {
      var n := |cs| - 1;
      var rest := ExportExists(cs[..n]);
      var k := PlaceFor(Places(rest), LocationOf(FromCookie(cs[n])));
      InsertionSorts(Places(rest), LocationOf(FromCookie(cs[n])), k);
      Inserted(rest, FromCookie(cs[n]), k);
      items := rest[..k] + [FromCookie(cs[n])] + rest[k..];
      assert Written(cs) == Written(cs[..n]) + [FromCookie(cs[n])];
    }
  }

  lemma {:induction false} PlaceFor(ids: seq<Ident>, id: Ident) returns (k: nat)
    requires Sorted(ids)
    ensures k <= |ids| && (k > 0 ==> !Before(id, ids[k - 1]))
    ensures forall m | k <= m < |ids| :: Before(id, ids[m])
  {
    hide Before;
    k := |ids|;
    while k > 0 && Before(id, ids[k - 1])
      invariant 0 <= k <= |ids| && forall m | k <= m < |ids| :: Before(id, ids[m])
    {
      k := k - 1;
    }
  }

  method ExportFrom(jar: Jar) returns (items: seq<BrowserCookie>)
    ensures IsExport(items, jar.cookies)
  {
    var cookies := [];
    for i := 0 to |jar.cookies|
      invariant cookies == Written(jar.cookies[..i])
    {
      cookies := cookies + [FromCookie(jar.cookies[i])];
    }
    assert cookies == Written(jar.cookies);
    items := [];
    for i := 0 to |cookies|
      invariant Sorted(Places(items)) && multiset(items) == multiset(cookies[..i])
    {
      assert cookies[..i + 1] == cookies[..i] + [cookies[i]];
      items := InsertByLocation(items, cookies[i]);
    }
    assert cookies[..|cookies|] == cookies;
  }

  method JarFromExport(items: seq<BrowserCookie>) returns (jar: Jar)
    ensures fresh(jar) && jar.cookies == Import(items)
  {
    var cookies := [];
    for i := 0 to |items|
      invariant cookies == Mapped(items[..i])
    {
      assert items[..i + 1][..i] == items[..i];
      var cookie := ToDomain(items[i]);
      if cookie.Some? {
        cookies := cookies + [cookie.value];
      }
    }
    assert items[..|items|] == items;
    jar := new Jar(cookies);
  }

  // ----- What the file holds -----

  lemma ExportMembers(items: seq<BrowserCookie>, cs: seq<Cookie>)
    requires multiset(items) == multiset(Written(cs))
    ensures |items| == |cs|
    ensures forall c | c in cs :: FromCookie(c) in items
    ensures forall b | b in items :: exists c :: c in cs && b == FromCookie(c)
  {
    var written := Written(cs);
    assert |multiset(items)| == |items| && |multiset(written)| == |written|;
    forall c | c in cs ensures FromCookie(c) in items {
      var i :| 0 <= i < |cs| && cs[i] == c;
      assert written[i] in multiset(written);
    }
    forall b | b in items ensures exists c :: c in cs && b == FromCookie(c) {
      assert b in multiset(items);
      var i :| 0 <= i < |written| && written[i] == b;
      assert cs[i] in cs;
    }
  }

  lemma {:induction false} MappedMembers(items: seq<BrowserCookie>)
    ensures forall d :: d in Mapped(items) <==> exists b :: b in items && ToDomain(b) == Some(d)
  {
    if items != [] {
      var n := |items| - 1;
      MappedMembers(items[..n]);
      forall d ensures d in Mapped(items) <==> exists b :: b in items && ToDomain(b) == Some(d) {
        if b :| b in items && ToDomain(b) == Some(d) {
          assert b in items[..n] || b == items[n];
        }
        assert items[n] in items;
      }
    }
  }

  lemma {:induction false} PutAllMembers(more: seq<Cookie>)
    ensures forall c | c in PutAll([], more) :: c in more
  {
    if more != [] {
      var n := |more| - 1;
      PutAllMembers(more[..n]);
      PutMembers(PutAll([], more[..n]), more[n]);
    }
  }

  lemma {:induction false} PutMembers(cs: seq<Cookie>, c: Cookie)
    ensures c in Put(cs, c)
    ensures forall d | d in Put(cs, c) :: d in cs || d == c
    ensures forall d | d in cs && IdentOf(d) != IdentOf(c) :: d in Put(cs, c)
  {
    if cs != [] && !SameIdentity(cs[0], c) {
      PutMembers(cs[1..], c);
      assert cs == [cs[0]] + cs[1..];
    } else if cs != [] {
      assert cs == [cs[0]] + cs[1..];
    }
  }

  /** A cookie that no other one overwrites is in the jar. */
  lemma {:induction false} PutAllKeeps(more: seq<Cookie>, d: Cookie)
    requires d in more && forall x | x in more && IdentOf(x) == IdentOf(d) :: x == d
    ensures d in PutAll([], more)
  {
    var n := |more| - 1;
    PutMembers(PutAll([], more[..n]), more[n]);
    if more[n] != d {
      assert d in more[..n];
      PutAllKeeps(more[..n], d);
    }
  }

  /** Whatever the file holds, the loaded jar has distinct identities, none with an empty part. */
  lemma LoadedIsLegal(items: seq<BrowserCookie>)
    ensures Distinct(Import(items))
    ensures forall c | c in Import(items) :: Storable(c)
    ensures Import(items) == [] <==> forall b | b in items :: b.name == ""
  {
    PutAllDistinct([], Mapped(items));
    PutAllMembers(Mapped(items));
    MappedMembers(items);
    if Mapped(items) != [] {
      PutMembers(PutAll([], Mapped(items)[..|Mapped(items)| - 1]), Mapped(items)[|Mapped(items)| - 1]);
    }
    forall b | b in items && b.name != "" ensures Mapped(items) != [] {
      assert ToDomain(b).value in Mapped(items);
    }
    if Mapped(items) != [] {
      assert Mapped(items)[0] in Mapped(items);
    }
  }

  /** Where an item's cookie is stored: its name with its domain and path, or their defaults. */
  function PlaceOf(b: BrowserCookie): Ident {
    Ident(b.name, if b.domain == "" then ".profi.ru" else b.domain, if b.path == "" then "/" else b.path)
  }

  /** Item `i` has a name, and no later one is stored at the same place. */
  predicate LastAtItsPlace(items: seq<BrowserCookie>, i: nat) {
    && i < |items| && items[i].name != ""
    && forall j | i < j < |items| :: PlaceOf(items[j]) != PlaceOf(items[i])
  }

  lemma PutReplaces(cs: seq<Cookie>, c: Cookie)
    requires Distinct(cs)
    ensures Distinct(Put(cs, c))
    ensures forall d :: d in Put(cs, c) <==> d == c || (d in cs && IdentOf(d) != IdentOf(c))
  {
    PutIsMapUpdate(cs, c, IdentOf(c));
    PutMembers(cs, c);
    forall d | d in Put(cs, c) && IdentOf(d) == IdentOf(c) ensures d == c {
      SlotOfMember(Put(cs, c), d);
    }
  }

  /** The cookie of item `i`, which no later item overwrites. */
  ghost predicate Gives(items: seq<BrowserCookie>, i: nat, d: Cookie) {
    LastAtItsPlace(items, i) && ToDomain(items[i]) == Some(d)
  }

  lemma GivesWithOneMore(items: seq<BrowserCookie>, i: nat, d: Cookie)
    requires i < |items| - 1
    ensures Gives(items, i, d) <==>
              Gives(items[..|items| - 1], i, d) && PlaceOf(items[|items| - 1]) != IdentOf(d)
  {
    var before := items[..|items| - 1];
    assert before[i] == items[i];
    assert forall j | i < j < |before| :: before[j] == items[j];
  }

  lemma OneMoreItem(items: seq<BrowserCookie>, d: Cookie)
    requires items != []
    ensures var n := |items| - 1;
            d in Import(items) <==>
              Gives(items, n, d) || (d in Import(items[..n]) && PlaceOf(items[n]) != IdentOf(d))
  {
    hide Put;
    var n := |items| - 1;
    LoadedIsLegal(items[..n]);
    var c := ToDomain(items[n]);
    if c.Some? {
      assert Import(items) == Put(Import(items[..n]), c.value);
      PutReplaces(Import(items[..n]), c.value);
    }
  }

  lemma {:induction false} ImportedIsGiven(items: seq<BrowserCookie>, d: Cookie) returns (i: nat)
    requires d in Import(items)
    ensures Gives(items, i, d)
  {
    hide Gives, Import, PlaceOf;
    LoadedIsLegal(items);
    if items != [] {
      i := |items| - 1;
      OneMoreItem(items, d);
      if !Gives(items, i, d) {
        i := ImportedIsGiven(items[..|items| - 1], d);
        GivesInRange(items[..|items| - 1], i, d);
        GivesWithOneMore(items, i, d);
      }
    }
  }

  lemma {:induction false} GivenIsImported(items: seq<BrowserCookie>, i: nat, d: Cookie)
    requires Gives(items, i, d)
    ensures d in Import(items)
  {
    hide Gives, Import, PlaceOf;
    GivesInRange(items, i, d);
    OneMoreItem(items, d);
    if i < |items| - 1 {
      GivesWithOneMore(items, i, d);
      GivenIsImported(items[..|items| - 1], i, d);
    }
  }

  /** The loaded jar: the cookies of exactly the named items that no later item overwrites. */
  lemma {:induction false} ImportIsLast(items: seq<BrowserCookie>, d: Cookie)
    ensures d in Import(items) <==> exists i: nat :: Gives(items, i, d)
  {
    hide Gives, Import;
    if d in Import(items) {
      var i := ImportedIsGiven(items, d);
    }
    if i: nat :| Gives(items, i, d) {
      GivenIsImported(items, i, d);
    }
  }

  lemma GivesInRange(items: seq<BrowserCookie>, i: nat, d: Cookie)
    requires Gives(items, i, d)
    ensures i < |items|
  {
  }

  // ----- The round trip -----

  lemma CountsTwice<T>(s: seq<T>, i: nat, j: nat)
    requires i < j < |s| && s[i] == s[j]
    ensures multiset(s)[s[i]] >= 2
  {
    assert s == s[..j] + s[j..];
    assert s[i] in s[..j] && s[j] in s[j..];
  }

  lemma {:induction false} CountsOnce<T>(s: seq<T>, x: T)
    requires forall i, j | 0 <= i < j < |s| :: s[i] != s[j]
    ensures multiset(s)[x] <= 1
  {
    if s != [] {
      CountsOnce(s[1..], x);
      assert s == [s[0]] + s[1..];
    }
  }

  lemma ExportAscends(items: seq<BrowserCookie>, cs: seq<Cookie>)
    requires Distinct(cs) && (forall c | c in cs :: Storable(c)) && IsExport(items, cs)
    ensures Ascending(Places(items))
  {
    hide Before;
    var written := Written(cs);
    ExportMembers(items, cs);
    forall i, j | 0 <= i < j < |items| ensures Places(items)[i] != Places(items)[j] {
      if LocationOf(items[i]) == LocationOf(items[j]) {
        SamePlaceSameItem(items, cs, i, j);
        CountsTwice(items, i, j);
        forall k, m | 0 <= k < m < |written| ensures written[k] != written[m] {
          assert IdentOf(cs[k]) != IdentOf(cs[m]);
          assert cs[k] in cs && cs[m] in cs;
        }
        CountsOnce(written, items[i]);
      }
    }
    SortedAscends(Places(items));
  }

  lemma SamePlaceSameItem(items: seq<BrowserCookie>, cs: seq<Cookie>, i: nat, j: nat)
    requires Distinct(cs) && (forall c | c in cs :: Storable(c)) && multiset(items) == multiset(Written(cs))
    requires i < |items| && j < |items| && LocationOf(items[i]) == LocationOf(items[j])
    ensures items[i] == items[j]
  {
    ExportMembers(items, cs);
    assert items[i] in items && items[j] in items;
    var c :| c in cs && items[i] == FromCookie(c);
    var d :| d in cs && items[j] == FromCookie(d);
    SlotOfMember(cs, c);
    SlotOfMember(cs, d);
  }

  ghost predicate FromStorable(b: BrowserCookie) { exists c :: Storable(c) && b == FromCookie(c) }

  /** Of a legal jar's export, each item gives one cookie, in place, and gives back the same item. */
  lemma {:induction false} MappedInPlace(items: seq<BrowserCookie>)
    requires forall b | b in items :: FromStorable(b)
    ensures |Mapped(items)| == |items|
    ensures forall i | 0 <= i < |items| ::
              && ToDomain(items[i]) == Some(Mapped(items)[i]) && IdentOf(Mapped(items)[i]) == LocationOf(items[i])
              && FromCookie(Mapped(items)[i]) == items[i]
  {
    hide Storable, FromCookie, ToDomain;
    if items != [] {
      var n := |items| - 1;
      MappedInPlace(items[..n]);
      assert FromStorable(items[n]);
      var c :| Storable(c) && items[n] == FromCookie(c);
      CookieRoundTrip(c);
    }
  }

  lemma AllFromStorable(items: seq<BrowserCookie>, cs: seq<Cookie>)
    requires forall c | c in cs :: Storable(c)
    requires forall b | b in items :: exists c :: c in cs && b == FromCookie(c)
    ensures forall b | b in items :: FromStorable(b)
  {
    hide FromCookie, Storable;
    forall b | b in items ensures FromStorable(b) {
      var c :| c in cs && b == FromCookie(c);
    }
  }

  /** The jar read back from a legal jar's export: as many cookies, ascending, each with its item. */
  lemma ImportedInPlace(items: seq<BrowserCookie>, cs: seq<Cookie>)
    requires Distinct(cs) && (forall c | c in cs :: Storable(c)) && IsExport(items, cs)
    ensures Import(items) == Mapped(items) && |Mapped(items)| == |items| == |cs|
    ensures Order(Import(items)) == Places(items) && Ascending(Places(items))
    ensures Written(Import(items)) == items && Distinct(Import(items))
  {
    hide Before, FromCookie, ToDomain, Sorted, Storable, IdentOf, LocationOf, FromStorable;
    ExportMembers(items, cs);
    ExportAscends(items, cs);
    AllFromStorable(items, cs);
    MappedInPlace(items);
    AscendingDistinct(items, Mapped(items));
    PutAllOfDistinct(Mapped(items));
  }

  lemma AscendingDistinct(items: seq<BrowserCookie>, mapped: seq<Cookie>)
    requires Ascending(Places(items)) && |mapped| == |items|
    requires forall i | 0 <= i < |items| :: IdentOf(mapped[i]) == LocationOf(items[i])
    ensures Distinct(mapped) && Order(mapped) == Places(items)
  {
    hide Before, IdentOf, LocationOf;
    forall i, j | 0 <= i < j < |mapped| ensures IdentOf(mapped[i]) != IdentOf(mapped[j]) {
      assert Before(Places(items)[i], Places(items)[j]);
      BeforeTotal(Places(items)[i], Places(items)[i]);
    }
  }

  /**
   Load after save: the same identities in location order, each with its normalised cookie; and
   saving once more writes the identical export.
   */
  lemma CookieFileRoundTrip(items: seq<BrowserCookie>, cs: seq<Cookie>, again: seq<BrowserCookie>, id: Ident)
    requires Distinct(cs) && (forall c | c in cs :: Storable(c)) && IsExport(items, cs)
    ensures |Import(items)| == |cs| && Distinct(Import(items)) && Ascending(Order(Import(items)))
    ensures Slot(Import(items), id)
            == match Slot(cs, id) { case None => None case Some(c) => Some(Normal(c)) }
    ensures IsExport(again, Import(items)) ==> again == items
  {
    hide *;
    ImportedInPlace(items, cs);
    SlotAfterLoad(items, cs, id);
    if IsExport(again, Import(items)) {
      SecondSave(items, cs, again);
    }
  }

  lemma SlotAfterLoad(items: seq<BrowserCookie>, cs: seq<Cookie>, id: Ident)
    requires Distinct(cs) && (forall c | c in cs :: Storable(c)) && IsExport(items, cs)
    ensures Slot(Import(items), id)
            == match Slot(cs, id) { case None => None case Some(c) => Some(Normal(c)) }
  {
    hide Before, FromCookie, ToDomain, Normal, Import, Slot, Distinct, Storable;
    var loaded := Import(items);
    ImportedInPlace(items, cs);
    SlotIn(cs, id);
    SlotIn(loaded, id);
    if Slot(cs, id).Some? {
      LoadedCookie(items, cs, Slot(cs, id).value);
      SlotOfMember(loaded, Normal(Slot(cs, id).value));
    } else if Slot(loaded, id).Some? {
      ExportMembers(items, cs);
      var i :| 0 <= i < |loaded| && Order(loaded)[i] == id;
      assert items[i] in items;
      var c :| c in cs && items[i] == FromCookie(c);
      LoadedCookie(items, cs, c);
      InOrder(cs, c);
    }
  }

  lemma InOrder(cs: seq<Cookie>, c: Cookie)
    requires c in cs
    ensures IdentOf(c) in Order(cs)
  {
    var i :| 0 <= i < |cs| && cs[i] == c;
    assert Order(cs)[i] == IdentOf(c);
  }

  lemma LoadedCookie(items: seq<BrowserCookie>, cs: seq<Cookie>, c: Cookie)
    requires Distinct(cs) && (forall d | d in cs :: Storable(d)) && IsExport(items, cs) && c in cs
    ensures Normal(c) in Import(items) && IdentOf(Normal(c)) == IdentOf(c) == LocationOf(FromCookie(c))
  {
    hide Before;
    ImportedInPlace(items, cs);
    ExportMembers(items, cs);
    CookieRoundTrip(c);
    MappedMembers(items);
  }

  lemma SecondSave(items: seq<BrowserCookie>, cs: seq<Cookie>, again: seq<BrowserCookie>)
    requires Distinct(cs) && (forall c | c in cs :: Storable(c)) && IsExport(items, cs)
    requires IsExport(again, Import(items))
    ensures again == items
  {
    hide Before, FromCookie, ToDomain, Import;
    ImportedInPlace(items, cs);
    LoadedIsLegal(items);
    ExportAscends(again, Import(items));
    assert multiset(again) == multiset(items);
    SameMembersSamePlaces(again, items);
    SameMembersSamePlaces(items, again);
    AscendingIsUnique(Places(again), Places(items));
    forall i | 0 <= i < |items| ensures again[i] == items[i] {
      assert again[i] in multiset(again);
      var j :| 0 <= j < |items| && items[j] == again[i];
      assert Places(items)[j] == Places(again)[i] == Places(items)[i];
      AscendingOnce(Places(items), i, j);
    }
  }

  lemma SameMembersSamePlaces(a: seq<BrowserCookie>, b: seq<BrowserCookie>)
    requires multiset(a) == multiset(b)
    ensures |a| == |b|
    ensures forall id | id in Places(a) :: id in Places(b)
  {
    assert |multiset(a)| == |a| && |multiset(b)| == |b|;
    forall id | id in Places(a) ensures id in Places(b) {
      var i :| 0 <= i < |a| && Places(a)[i] == id;
      assert a[i] in multiset(b);
      var j :| 0 <= j < |b| && b[j] == a[i];
      assert Places(b)[j] == id;
    }
  }

  lemma AscendingOnce(ids: seq<Ident>, i: nat, j: nat)
    requires Ascending(ids) && i < |ids| && j < |ids| && ids[i] == ids[j]
    ensures i == j
  {
    BeforeTotal(ids[i], ids[i]);
  }

  function Idents(cs: seq<Cookie>): set<Ident> { set c | c in cs :: IdentOf(c) }

  /** A jar gets its identities back from the file exactly when no name, domain or path is empty. */
  lemma IdentitiesSurviveIff(items: seq<BrowserCookie>, cs: seq<Cookie>)
    requires Distinct(cs) && IsExport(items, cs)
    ensures Idents(Import(items)) == Idents(cs) <==> forall c | c in cs :: Storable(c)
  {
    hide Before, Import, FromCookie, ToDomain;
    LoadedIsLegal(items);
    if forall c | c in cs :: Storable(c) {
      forall id ensures id in Idents(Import(items)) <==> id in Idents(cs) {
        CookieFileRoundTrip(items, cs, items, id);
        SlotIn(cs, id);
        SlotIn(Import(items), id);
        IdentsAreOrder(cs, id);
        IdentsAreOrder(Import(items), id);
      }
    } else {
      var c :| c in cs && !Storable(c);
      assert IdentOf(c) in Idents(cs);
      assert IdentOf(c) !in Idents(Import(items));
    }
  }

  lemma IdentsAreOrder(cs: seq<Cookie>, id: Ident)
    ensures id in Idents(cs) <==> id in Order(cs)
  {
    if id in Order(cs) {
      var i :| 0 <= i < |Order(cs)| && Order(cs)[i] == id;
      assert cs[i] in cs;
    }
    forall c | c in cs ensures IdentOf(c) in Order(cs) { InOrder(cs, c); }
  }

  // ----- The tokens -----

  /** No two cookies of a name with a readable token fall together in the file. */
  predicate TokensApart(r: Reader, cs: seq<Cookie>) {
    forall c, d | c in cs && d in cs && c.name in Latest(r, cs) && NormalIdent(c) == NormalIdent(d) :: c == d
  }

  /** Every readable copy in `a` has one in `b` with the same text. */
  ghost predicate Copied(r: Reader, a: seq<Cookie>, b: seq<Cookie>) {
    forall c | c in a && Readable(r, c) :: exists d :: d in b && d.name == c.name && d.value == c.value
  }

  lemma NoFresher(r: Reader, a: seq<Cookie>, b: seq<Cookie>, name: string)
    requires Copied(r, a, b) && name in LatestExp(r, a)
    ensures name in LatestExp(r, b) && LatestExp(r, a)[name] <= LatestExp(r, b)[name]
  {
    hide Freshest;
    LatestIsFreshest(r, a);
    LatestIsFreshest(r, b);
    assert Indexes(r, a, Latest(r, a), name);
    var i := IndexedAt(r, a, Latest(r, a), name);
    var d :| d in b && d.name == name && d.value == a[i].value;
    assert Readable(r, d);
  }

  lemma SameTextsSameExpiries(r: Reader, a: seq<Cookie>, b: seq<Cookie>)
    requires Copied(r, a, b) && Copied(r, b, a)
    ensures LatestExp(r, a) == LatestExp(r, b)
  {
    hide Copied;
    forall name ensures name in LatestExp(r, a) <==> name in LatestExp(r, b)
                ensures name in LatestExp(r, a) ==> LatestExp(r, a)[name] == LatestExp(r, b)[name] {
      if name in LatestExp(r, a) { NoFresher(r, a, b, name); }
      if name in LatestExp(r, b) { NoFresher(r, b, a, name); }
    }
  }

  /** The token expiries, and so TokenTTL at every time, survive the file. */
  lemma ExpiriesSurvive(r: Reader, items: seq<BrowserCookie>, cs: seq<Cookie>)
    requires IsExport(items, cs) && TokensApart(r, cs)
    ensures LatestExp(r, Import(items)) == LatestExp(r, cs)
    ensures forall now :: TTL(r, Import(items), now) == TTL(r, cs, now)
  {
    hide IsExport, TokensApart, Import, LatestExp;
    forall c | c in cs && Readable(r, c)
      ensures exists d :: d in Import(items) && d.name == c.name && d.value == c.value
    {
      TokenSurvives(r, items, cs, c);
    }
    NothingInvented(r, items, cs);
    SameTextsSameExpiries(r, cs, Import(items));
  }

  lemma NothingInvented(r: Reader, items: seq<BrowserCookie>, cs: seq<Cookie>)
    requires IsExport(items, cs)
    ensures Copied(r, Import(items), cs)
  {
    hide Before, Sorted;
    ExportMembers(items, cs);
    MappedMembers(items);
    PutAllMembers(Mapped(items));
    forall d | d in Import(items) && Readable(r, d)
      ensures exists c :: c in cs && c.name == d.name && c.value == d.value
    {
      var b :| b in items && ToDomain(b) == Some(d);
      var c :| c in cs && b == FromCookie(c);
    }
  }

  lemma TokenSurvives(r: Reader, items: seq<BrowserCookie>, cs: seq<Cookie>, c: Cookie)
    requires IsExport(items, cs) && TokensApart(r, cs) && c in cs && Readable(r, c)
    ensures exists d :: d in Import(items) && d.name == c.name && d.value == c.value
  {
    hide Before, FromCookie, ToDomain;
    var mapped := Mapped(items);
    ExportMembers(items, cs);
    MappedMembers(items);
    LatestIsFreshest(r, cs);
    CookieRoundTrip(c);
    var d := ToDomain(FromCookie(c)).value;
    forall x | x in mapped && IdentOf(x) == IdentOf(d) ensures x == d {
      var b :| b in items && ToDomain(b) == Some(x);
      var e :| e in cs && b == FromCookie(e);
      CookieRoundTrip(e);
    }
    PutAllKeeps(mapped, d);
  }

  lemma LegalTokensApart(r: Reader, cs: seq<Cookie>)
    requires Distinct(cs) && forall c | c in cs :: Storable(c)
    ensures TokensApart(r, cs)
  {
    forall c, d | c in cs && d in cs && NormalIdent(c) == NormalIdent(d) ensures c == d {
      SlotOfMember(cs, c);
      SlotOfMember(cs, d);
    }
  }

  /** Pruning leaves one copy of each readable token, so nothing can overwrite it in the file. */
  lemma PrunedTokensApart(r: Reader, cs: seq<Cookie>)
    requires Distinct(cs)
    ensures TokensApart(r, Pruned(r, cs))
  {
    hide Pruned;
    PruningKeepsTheIndex(r, cs);
  }
}
