/**
 What a reported refresh says about the tokens: the freshest one differs from the freshest one before,
 yet it may be an older copy that the jar held all along.  For which jars it is a new one, exactly.
 */
module FreshTokens {
  import opened Wrappers
  import opened CookieJar
  import opened CookieFile
  import opened HttpRenew
  import opened AuthPorts
  import opened RefreshAuth

  /** All readable copies of each token name have the same fingerprint and expiry. */
  predicate CopiesAgree(r: Reader, cs: seq<Cookie>) {
    forall c, d | c in cs && d in cs && Readable(r, c) && Readable(r, d) && c.name == d.name ::
      Exp(r, c) == Exp(r, d) && r.fingerprint(c.value) == r.fingerprint(d.value)
  }

  /** No cookie of this name in `before` has the text of the freshest one in `after`. */
  predicate Unheard(r: Reader, before: seq<Cookie>, after: seq<Cookie>, name: string) {
    && name in Latest(r, after)
    && forall c | c in before && c.name == name :: c.value != Latest(r, after)[name].cookie.value
  }

  /** A cycle that saved a token whose text the loaded jar did not hold under its name. */
  ghost predicate SavesNewToken(r: Reader, before: Content, events: seq<Event>) {
    && LoadJar(before).Ok? && |events| >= 2 && events[|events| - 2].Saved?
    && exists name :: Unheard(r, LoadJar(before).value.jar, SavedJar(events), name)
  }

  // ----- When the copies agree -----

  /** A changed token is a new one when the copies agreed before. */
  lemma ChangedIsUnheard(r: Reader, before: seq<Cookie>, after: seq<Cookie>, name: string)
    requires CopiesAgree(r, before) && name in Changed(Latest(r, before), Latest(r, after))
    ensures Unheard(r, before, after, name)
  {
    hide Freshest, Latest;
    LatestIsFreshest(r, before);
    LatestIsFreshest(r, after);
    assert Indexes(r, after, Latest(r, after), name);
    var i := IndexedAt(r, after, Latest(r, after), name);
    forall c | c in before && c.name == name ensures c.value != after[i].value {
      if c.value == after[i].value {
        assert Readable(r, c);
        assert Indexes(r, before, Latest(r, before), name);
        var j := IndexedAt(r, before, Latest(r, before), name);
      }
    }
  }

  lemma AgreeingIsNew(r: Reader, threshold: int, s: Script, k: nat, before: Content,
                      after: Content, events: seq<Event>, result: Result<RefreshResult, AuthError>)
    requires Cycle(r, threshold, s, k, before, after, events, result) && result.Ok? && result.value.refreshed
    requires LoadJar(before).Ok? && CopiesAgree(r, LoadJar(before).value.jar)
    ensures SavesNewToken(r, before, events)
  {
    hide TTL, LoadJar, PutAll, Cycle, Pruned, Latest, CopiesAgree, Unheard;
    SuccessfulCycle(r, threshold, s, k, before, after, events, result);
    var jar := LoadJar(before).value.jar;
    var renewed := PutAll(jar, s.sets);
    LoadedIsDistinct(before);
    PutAllDistinct(jar, s.sets);
    PruningKeepsTheIndex(r, renewed);
    var name :| name in Changed(Latest(r, jar), Latest(r, renewed));
    assert Changed(Latest(r, jar), Latest(r, Pruned(r, renewed))) == Changed(Latest(r, jar), Latest(r, renewed));
    ChangedIsUnheard(r, jar, Pruned(r, renewed), name);
    assert Unheard(r, jar, SavedJar(events), name);
  }

  // ----- When they do not -----

  /** Any jar writes that leave a verified jar make a successful cycle. */
  lemma RefreshRun(r: Reader, threshold: int, before: Content, sets: seq<Cookie>, now: int)
    returns (s: Script, after: Content, events: seq<Event>, result: Result<RefreshResult, AuthError>)
    requires LoadJar(before).Ok? && NeedsRefresh(TTL(r, LoadJar(before).value.jar, now), threshold)
    requires var jar := LoadJar(before).value.jar; FaultOf(r, jar, PutAll(jar, sets), now) == None
    ensures s.sets == sets && s.clock == (k => now)
    ensures Cycle(r, threshold, s, 0, before, after, events, result) && result.Ok? && result.value.refreshed
    ensures |events| >= 2 && events[|events| - 2].Saved?
    ensures SavedJar(events) == Pruned(r, PutAll(LoadJar(before).value.jar, sets))
  {
    hide TTL, LoadJar, PutAll, Pruned, Latest, Changed;
    var loaded := LoadJar(before).value;
    var renewed := PutAll(loaded.jar, sets);
    s := Script(true, k => now, sets, None, true);
    LoadedIsDistinct(before);
    PutAllDistinct(loaded.jar, sets);
    PrunedKeepsTTL(r, renewed, now);
    var items := ExportExists(Pruned(r, renewed));
    after := Object(loaded.url, items);
    var p := PrepareLoaded(r, threshold, s, 0, loaded);
    result := Ok(RefreshResult(p.outcome.value.ttlBefore, p.outcome.value.ttlAfter, true));
    var inner := p.events + [Saved(Pruned(r, renewed), loaded.url, true)];
    CycleOfJar(r, threshold, s, 0, before, after, loaded, inner, result);
    events := [Locked, Read] + inner + [Released];
  }

  lemma OneTokenTTL(r: Reader, cs: seq<Cookie>, name: string, now: int)
    requires Latest(r, cs).Keys == {name}
    ensures TTL(r, cs, now) == Some(Latest(r, cs)[name].expiration - now)
  {
    hide Latest;
    assert name in LatestExp(r, cs);
  }

  /** Every cookie of one name given the same text. */
  function Rewritten(cs: seq<Cookie>, name: string, text: string): seq<Cookie> {
    seq(|cs|, i requires 0 <= i < |cs| => if cs[i].name == name then cs[i].(value := text) else cs[i])
  }

  lemma {:induction false} RewrittenMembers(cs: seq<Cookie>, name: string, text: string)
    requires Distinct(cs)
    ensures forall d | d in PutAll(cs, Rewritten(cs, name, text)) && d.name == name :: d.value == text
    ensures forall c | c in cs && c.name == name :: c.(value := text) in PutAll(cs, Rewritten(cs, name, text))
  {
    hide Rewritten, PutAll, Distinct;
    var all := PutAll(cs, Rewritten(cs, name, text));
    forall d | d in all && d.name == name ensures d.value == text { AllRewritten(cs, name, text, d); }
    forall c | c in cs && c.name == name ensures c.(value := text) in all { EachRewritten(cs, name, text, c); }
  }

  lemma AllRewritten(cs: seq<Cookie>, name: string, text: string, d: Cookie)
    requires Distinct(cs) && d in PutAll(cs, Rewritten(cs, name, text)) && d.name == name
    ensures d.value == text
  {
    hide PutAll, Slot, Distinct;
    var more := Rewritten(cs, name, text);
    PutAllDistinct(cs, more);
    SlotOfMember(PutAll(cs, more), d);
    MergeIsLastWins(cs, more, IdentOf(d));
    LastOfMembers(more, IdentOf(d));
    if LastOf(more, IdentOf(d)) == None {
      SlotIn(cs, IdentOf(d));
      var i :| 0 <= i < |cs| && Order(cs)[i] == IdentOf(d);
      LastOfSome(more, i, IdentOf(d));
    }
  }

  lemma EachRewritten(cs: seq<Cookie>, name: string, text: string, c: Cookie)
    requires Distinct(cs) && c in cs && c.name == name
    ensures c.(value := text) in PutAll(cs, Rewritten(cs, name, text))
  {
    hide PutAll, Slot, LastOf;
    var more := Rewritten(cs, name, text);
    var i :| 0 <= i < |cs| && cs[i] == c;
    MergeIsLastWins(cs, more, IdentOf(c));
    LastOfIs(more, i);
    SlotIn(PutAll(cs, more), IdentOf(c));
  }

  /** When all cookies of the only token name have one readable text, that text is the index. */
  lemma OneText(r: Reader, cs: seq<Cookie>, name: string, text: string, now: int)
    requires TOKEN_COOKIES == {name} && r.exp(text).Some?
    requires exists c :: c in cs && c.name == name
    requires forall c | c in cs && c.name == name :: c.value == text
    ensures Latest(r, cs).Keys == {name}
    ensures Latest(r, cs)[name].cookie.value == text && Latest(r, cs)[name].expiration == r.exp(text).value
    ensures Latest(r, cs)[name].fingerprint == r.fingerprint(text)
    ensures TTL(r, cs, now) == Some(r.exp(text).value - now)
  {
    hide Freshest, Latest;
    LatestIsFreshest(r, cs);
    var c :| c in cs && c.name == name;
    assert Readable(r, c);
    forall n | n in Latest(r, cs) ensures n == name {
      assert Indexes(r, cs, Latest(r, cs), n);
      var i := IndexedAt(r, cs, Latest(r, cs), n);
    }
    assert Indexes(r, cs, Latest(r, cs), name);
    var i := IndexedAt(r, cs, Latest(r, cs), name);
    OneTokenTTL(r, cs, name, now);
  }

  /** Some readable copy differs from the freshest one of its name. */
  lemma Disagreeing(r: Reader, cs: seq<Cookie>) returns (c: Cookie)
    requires !CopiesAgree(r, cs)
    ensures c in cs && Readable(r, c) && c.name in Latest(r, cs)
    ensures Latest(r, cs)[c.name].expiration != Exp(r, c)
            || Latest(r, cs)[c.name].fingerprint != r.fingerprint(c.value)
  {
    hide Latest;
    LatestCovers(r, cs);
    var a, b :| a in cs && b in cs && Readable(r, a) && Readable(r, b) && a.name == b.name
      && (Exp(r, a) != Exp(r, b) || r.fingerprint(a.value) != r.fingerprint(b.value));
    var latest := Latest(r, cs)[a.name];
    c := if latest.expiration != Exp(r, a) || latest.fingerprint != r.fingerprint(a.value) then a else b;
  }

  /**
   A jar whose copies disagree: a renewer that writes the text of an older copy over every slot of the
   name makes a cycle that is reported as refreshed and saves a token the jar held already.
   */
  lemma OldCopyIsSaved(r: Reader, before: Content)
    returns (threshold: int, s: Script, after: Content, events: seq<Event>, result: Result<RefreshResult, AuthError>)
    requires LoadJar(before).Ok? && !CopiesAgree(r, LoadJar(before).value.jar)
    ensures Cycle(r, threshold, s, 0, before, after, events, result) && result.Ok? && result.value.refreshed
    ensures !SavesNewToken(r, before, events)
  {
    hide LoadJar, PutAll, Pruned, Latest, Cycle, CopiesAgree, TTL;
    var jar := LoadJar(before).value.jar;
    LoadedIsDistinct(before);
    var c := Disagreeing(r, jar);
    var sets := Rewritten(jar, c.name, c.value);
    var now := Exp(r, c) - 1;
    RewrittenMembers(jar, c.name, c.value);
    PutAllDistinct(jar, sets);
    OneText(r, PutAll(jar, sets), c.name, c.value, now);
    var ttl := TTL(r, jar, now);
    threshold := if ttl == None then 0 else ttl.value;
    assert c.name in Changed(Latest(r, jar), Latest(r, PutAll(jar, sets)));
    s, after, events, result := RefreshRun(r, threshold, before, sets, now);
    PruningKeepsTheIndex(r, PutAll(jar, sets));
    forall name ensures !Unheard(r, jar, SavedJar(events), name) {
      assert name in Latest(r, SavedJar(events)) ==> name == c.name;
    }
  }

  /**
   Whatever the renewer writes and the clock says, a reported refresh has saved a token that the loaded
   jar did not hold, exactly when all readable copies of each token name in that jar agree on
   fingerprint and expiry.
   */
  lemma {:induction false} RefreshedIsNewIff(r: Reader, before: Content)
    requires LoadJar(before).Ok?
    ensures (forall threshold, s, k: nat, after, events, result |
               Cycle(r, threshold, s, k, before, after, events, result) && result.Ok? && result.value.refreshed ::
               SavesNewToken(r, before, events))
            <==> CopiesAgree(r, LoadJar(before).value.jar)
  {
    hide LoadJar, Cycle, CopiesAgree, SavesNewToken;
    if CopiesAgree(r, LoadJar(before).value.jar) {
      forall threshold, s, k: nat, after, events, result |
        Cycle(r, threshold, s, k, before, after, events, result) && result.Ok? && result.value.refreshed
        ensures SavesNewToken(r, before, events)
      {
        AgreeingIsNew(r, threshold, s, k, before, after, events, result);
      }
    } else {
      var threshold, s, after, events, result := OldCopyIsSaved(r, before);
    }
  }

  // ----- The input in numbers -----

  const NAME := "prfr_bo_tkn"

  function Token(text: string, path: string): Cookie {
    Cookie(NAME, text, ".profi.ru", path, false, false, false, true, "None", 0)
  }

  /** "A" expires at 100, "B" at 50, and nothing else is a token. */
  const READER := Reader(
    text => if text == "A" then Some(100) else if text == "B" then Some(50) else None,
    text => TOUCHED,
    text => text)

  const LOADED := [Token("A", "/"), Token("B", "/bo")]

  function File(): Content { Object(DEFAULT_URL, Written(LOADED)) }

  lemma FileIsLoaded()
    ensures LoadJar(File()) == Ok(Loaded(LOADED, DEFAULT_URL))
  {
    var items := Written(LOADED);
    CookieRoundTrip(LOADED[0]);
    CookieRoundTrip(LOADED[1]);
    assert items[..1][..0] == [] && items[..2] == items && items[..1][0] == items[0];
    assert Mapped(items[..1]) == [LOADED[0]];
    assert Mapped(items) == LOADED;
    assert Distinct(LOADED);
    PutAllOfDistinct(LOADED);
  }

  lemma LoadedIndex()
    ensures Latest(READER, LOADED) == map[NAME := InfoOf(READER, Token("A", "/"))]
  {
    assert LOADED[..1] == [Token("A", "/")] && LOADED[..1][..0] == [];
    assert Latest(READER, LOADED[..1]) == map[NAME := InfoOf(READER, Token("A", "/"))];
  }

  lemma RenewedIndex()
    ensures var renewed := PutAll(LOADED, [Token("C", "/")]);
            && Latest(READER, renewed) == map[NAME := InfoOf(READER, Token("B", "/bo"))]
            && Pruned(READER, renewed) == [Token("B", "/bo")]
  {
    var renewed := [Token("C", "/"), Token("B", "/bo")];
    assert [Token("C", "/")][..0] == [];
    assert PutAll(LOADED, [Token("C", "/")]) == renewed;
    assert renewed[..1] == [Token("C", "/")] && renewed[..1][..0] == [];
    assert Latest(READER, renewed[..1]) == map[];
    assert Latest(READER, renewed) == map[NAME := InfoOf(READER, Token("B", "/bo"))];
    assert Sieve(Latest(READER, renewed), renewed[..1], false) == [];
  }

  /**
   A jar with a token expiring at 100 and an older copy of it expiring at 50, read at 10 with a
   threshold of 200; the renewer overwrites the newer one with a text that is no token.  The cycle is
   reported as refreshed, and what it saves is the older copy.
   */
  lemma OldCopyExample()
    returns (s: Script, after: Content, events: seq<Event>, result: Result<RefreshResult, AuthError>)
    ensures s.sets == [Token("C", "/")] && s.clock == (k => 10)
    ensures Cycle(READER, 200, s, 0, File(), after, events, result) && result.Ok? && result.value.refreshed
    ensures |events| >= 2 && events[|events| - 2].Saved? && SavedJar(events) == [LOADED[1]]
  {
    hide TTL, Latest, LoadJar, File, Cycle, PutAll, Pruned;
    FileIsLoaded();
    LoadedIndex();
    RenewedIndex();
    OneTokenTTL(READER, LOADED, NAME, 10);
    OneTokenTTL(READER, PutAll(LOADED, [Token("C", "/")]), NAME, 10);
    assert NAME in Changed(Latest(READER, LOADED), Latest(READER, PutAll(LOADED, [Token("C", "/")])));
    s, after, events, result := RefreshRun(READER, 200, File(), [Token("C", "/")], 10);
  }
}
