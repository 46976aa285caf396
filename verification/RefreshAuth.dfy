/** The refresh cycle: lock, load, renew when close to expiry, verify, prune, save, release. */
module RefreshAuth {
  import opened Wrappers
  import opened CookieJar
  import opened Jars
  import opened CookieFile
  import opened AuthPorts

  // ----- What a cycle does -----

  datatype RefreshResult = RefreshResult(ttlBefore: Option<int>, ttlAfter: int, refreshed: bool)

  predicate NeedsRefresh(ttl: Option<int>, threshold: int) {
    ttl == None || ttl.value <= threshold
  }

  /** finalTokens: the remaining lifetime, which must be positive. */
  ghost function Live(r: Reader, jar: seq<Cookie>, now: int): Result<int, AuthError> {
    match TTL(r, jar, now)
    case None => Err(AuthExpiredError(None))
    case Some(ttl) => if ttl <= 0 then Err(AuthExpiredError(Some(ttl))) else Ok(ttl)
  }

  /** verifyRenew: the first fault found in what the renewer left, if any. */
  ghost function FaultOf(r: Reader, before: seq<Cookie>, after: seq<Cookie>, now: int): Option<RenewFault> {
    match TTL(r, after, now)
    case None => Some(NoTokens)
    case Some(ttl) =>
      if ttl <= 0 then Some(StillExpired(ttl))
      else if Changed(Latest(r, before), Latest(r, after)) == {} then Some(Unchanged(ttl))
      else None
  }

  datatype Ready = Ready(jar: seq<Cookie>, url: string, ttlBefore: Option<int>, ttlAfter: int, refreshed: bool)

  /** A cycle up to its save. */
  datatype Prepared = Prepared(outcome: Result<Ready, AuthError>, events: seq<Event>, ticks: nat)

  ghost function Finish(r: Reader, events: seq<Event>, ticks: nat, now: int, ttlBefore: Option<int>,
                        loaded: Loaded, jar: seq<Cookie>, refreshed: bool): Prepared {
    var outcome :=
      match Live(r, jar, now)
      case Err(e) => Err(e)
      case Ok(ttl) => Ok(Ready(jar, loaded.url, ttlBefore, ttl, refreshed));
    Prepared(outcome, events + [Clock(now)], ticks)
  }

  ghost function PrepareLoaded(r: Reader, threshold: int, s: Script, k: nat, loaded: Loaded): Prepared {
    var ttl := TTL(r, loaded.jar, s.clock(k));
    var looked := [Clock(s.clock(k))];
    if !NeedsRefresh(ttl, threshold) then
      Finish(r, looked, 2, s.clock(k + 1), ttl, loaded, loaded.jar, false)
    else if s.renewal.Some? then
      Prepared(Err(s.renewal.value), looked + [Renewed], 1)
    else
      var renewed := PutAll(loaded.jar, s.sets);
      var verified := looked + [Renewed, Clock(s.clock(k + 1))];
      match FaultOf(r, loaded.jar, renewed, s.clock(k + 1))
      case Some(fault) => Prepared(Err(RenewFailedError(fault)), verified, 2)
      case None => Finish(r, verified, 3, s.clock(k + 2), ttl, loaded, Pruned(r, renewed), true)
  }

  ghost function Prepare(r: Reader, threshold: int, s: Script, k: nat, before: Content): Prepared {
    if !s.lockFree then Prepared(Err(LockError), [LockRefused], 0)
    else
      match LoadJar(before)
      case Err(e) => Prepared(Err(e), [Locked, Read], 0)
      case Ok(loaded) =>
        var p := PrepareLoaded(r, threshold, s, k, loaded);
        p.(events := [Locked, Read] + p.events)
  }

  /** From what was prepared to the end of the locked part: the save, if it gets so far. */
  ghost predicate Completes(p: Prepared, s: Script, before: Content, after: Content, events: seq<Event>,
                            result: Result<RefreshResult, AuthError>) {
    match p.outcome
    case Err(e) => events == p.events && after == before && result == Err(e)
    case Ok(ready) =>
      && events == p.events + [Saved(ready.jar, ready.url, s.writable)]
      && (if s.writable
          then Holds(after, ready.jar, ready.url)
               && result == Ok(RefreshResult(ready.ttlBefore, ready.ttlAfter, ready.refreshed))
          else after == before && result == Err(SaveError))
  }

  /** One whole cycle that starts at clock reading `k`. */
  ghost predicate Cycle(r: Reader, threshold: int, s: Script, k: nat, before: Content,
                        after: Content, events: seq<Event>, result: Result<RefreshResult, AuthError>) {
    && (s.lockFree ==> events != [] && events[|events| - 1] == Released)
    && Completes(Prepare(r, threshold, s, k, before), s, before, after,
                 if s.lockFree then events[..|events| - 1] else events, result)
  }

  lemma CycleOfNoLock(r: Reader, threshold: int, s: Script, k: nat, content: Content)
    requires !s.lockFree
    ensures Cycle(r, threshold, s, k, content, content, [LockRefused], Err(LockError))
  {
  }

  lemma CycleOfNoJar(r: Reader, threshold: int, s: Script, k: nat, content: Content)
    requires s.lockFree && LoadJar(content).Err?
    ensures Cycle(r, threshold, s, k, content, content, [Locked, Read, Released], Err(LoadJar(content).error))
  {
    hide LoadJar;
    assert [Locked, Read, Released][..2] == [Locked, Read];
  }

  /** A cycle is the locked part between taking the lock, reading the file, and giving the lock back. */
  lemma CycleOfJar(r: Reader, threshold: int, s: Script, k: nat, before: Content, after: Content,
                   loaded: Loaded, inner: seq<Event>, result: Result<RefreshResult, AuthError>)
    requires s.lockFree && LoadJar(before) == Ok(loaded)
    requires Completes(PrepareLoaded(r, threshold, s, k, loaded), s, before, after, inner, result)
    ensures Cycle(r, threshold, s, k, before, after, [Locked, Read] + inner + [Released], result)
  {
    hide LoadJar, Holds, PrepareLoaded;
    var events := [Locked, Read] + inner + [Released];
    assert events[..|events| - 1] == [Locked, Read] + inner;
    var p := PrepareLoaded(r, threshold, s, k, loaded);
    if p.outcome.Ok? {
      var saved := [Saved(p.outcome.value.jar, p.outcome.value.url, s.writable)];
      assert [Locked, Read] + (p.events + saved) == [Locked, Read] + p.events + saved;
    }
  }

  // ----- The use case -----

  class RefreshAuth {
    const reader: Reader
    const refreshBeforeSecs: int
    const ports: Ports

    constructor (reader: Reader, ports: Ports, refreshBeforeSecs: int)
      ensures this.reader == reader && this.ports == ports && this.refreshBeforeSecs == refreshBeforeSecs
    {
      this.reader, this.ports, this.refreshBeforeSecs := reader, ports, refreshBeforeSecs;
    }

    /** Execute: one cycle under the lock, which is released whatever happens in between. */
    method Execute() returns (result: Result<RefreshResult, AuthError>)
      modifies ports
      ensures |old(ports.events)| <= |ports.events| && ports.events[..|old(ports.events)|] == old(ports.events)
      ensures Cycle(reader, refreshBeforeSecs, ports.script, old(ports.ticks), old(ports.content),
                    ports.content, ports.events[|old(ports.events)|..], result)
      ensures ports.ticks == old(ports.ticks)
              + Prepare(reader, refreshBeforeSecs, ports.script, old(ports.ticks), old(ports.content)).ticks
    {
      hide PrepareLoaded, LoadJar, Holds, Completes, Cycle;
      ghost var log, before, k := ports.events, ports.content, ports.ticks;
      var held := ports.Acquire();
      if !held {
        CycleOfNoLock(reader, refreshBeforeSecs, ports.script, k, before);
        assert ports.events[..|log|] == log && ports.events[|log|..] == [LockRefused];
        return Err(LockError);
      }
      var error, jar, url := ports.Load();
      if error.Some? {
        result := Err(error.value);
        ports.Release();
        assert ports.events == log + [Locked, Read, Released];
        CycleOfNoJar(reader, refreshBeforeSecs, ports.script, k, before);
        assert ports.events[..|log|] == log && ports.events[|log|..] == [Locked, Read, Released];
      } else {
        ghost var loaded := Loaded(jar.cookies, url);
        result := RunLoaded(jar, url);
        ghost var inner := ports.events[|log| + 2..];
        assert ports.events == log + ([Locked, Read] + inner) by {
          assert ports.events[..|log| + 2] == log + [Locked, Read];
        }
        ports.Release();
        assert ports.events == log + ([Locked, Read] + inner + [Released]);
        CycleOfJar(reader, refreshBeforeSecs, ports.script, k, before, ports.content, loaded, inner, result);
        assert ports.events[..|log|] == log && ports.events[|log|..] == [Locked, Read] + inner + [Released];
      }
    }

    method RunLoaded(jar: Jar, url: string) returns (result: Result<RefreshResult, AuthError>)
      modifies ports, jar
      ensures |old(ports.events)| <= |ports.events| && ports.events[..|old(ports.events)|] == old(ports.events)
      ensures var p := PrepareLoaded(reader, refreshBeforeSecs, ports.script, old(ports.ticks),
                                     Loaded(old(jar.cookies), url));
              && ports.ticks == old(ports.ticks) + p.ticks
              && Completes(p, ports.script, old(ports.content), ports.content,
                           ports.events[|old(ports.events)|..], result)
    {
      hide FaultOf, TTL, Holds, Pruned, PutAll, Latest, Changed;
      ghost var log, k := ports.events, ports.ticks;
      ghost var p := PrepareLoaded(reader, refreshBeforeSecs, ports.script, k, Loaded(jar.cookies, url));
      var now := ports.Now();
      var ttl := jar.TokenTTL(reader, now);
      var tokens := jar.LatestTokens(reader);
      var refreshed := RefreshIfNeeded(jar, ttl, tokens);
      if refreshed.Err? {
        assert p.outcome == Err(refreshed.error) && ports.events == log + p.events;
        return Err(refreshed.error);
      }
      var last := FinalTokens(jar);
      assert ports.events == log + p.events && ports.ticks == k + p.ticks;
      if last.Err? {
        assert p.outcome == Err(last.error);
        return Err(last.error);
      }
      assert p.outcome == Ok(Ready(jar.cookies, url, ttl, last.value, refreshed.value));
      hide PrepareLoaded;
      var saved := ports.Save(jar, url);
      assert ports.events == log + (p.events + [Saved(jar.cookies, url, saved)]);
      if !saved { return Err(SaveError); }
      return Ok(RefreshResult(ttl, last.value, refreshed.value));
    }

    method RefreshIfNeeded(jar: Jar, ttl: Option<int>, tokens: Index) returns (refreshed: Result<bool, AuthError>)
      requires tokens == Latest(reader, jar.cookies)
      modifies ports`events, ports`ticks, jar
      ensures if ttl.Some? && ttl.value > refreshBeforeSecs then
                && refreshed == Ok(false) && jar.cookies == old(jar.cookies)
                && ports.events == old(ports.events) && ports.ticks == old(ports.ticks)
              else if ports.script.renewal.Some? then
                && refreshed == Err(ports.script.renewal.value)
                && ports.events == old(ports.events) + [Renewed] && ports.ticks == old(ports.ticks)
              else
                var renewed := PutAll(old(jar.cookies), ports.script.sets);
                var now := ports.script.clock(old(ports.ticks));
                && ports.events == old(ports.events) + [Renewed, Clock(now)]
                && ports.ticks == old(ports.ticks) + 1
                && match FaultOf(reader, old(jar.cookies), renewed, now)
                   case Some(fault) => refreshed == Err(RenewFailedError(fault))
                   case None => refreshed == Ok(true) && jar.cookies == Pruned(reader, renewed)
    {
      hide TTL, Pruned, PutAll, Latest, Changed;
      if !NeedsRefresh(ttl, refreshBeforeSecs) { return Ok(false); }
      var error := ports.Renew(jar);
      if error.Some? { return Err(error.value); }
      ghost var before := old(jar.cookies);
      var fault := VerifyRenew(jar, before, tokens);
      if fault.Some? { return Err(RenewFailedError(fault.value)); }
      var removed := jar.RemoveOldTokenDuplicates(reader);
      return Ok(true);
    }

    method VerifyRenew(jar: Jar, ghost before: seq<Cookie>, tokens: Index) returns (fault: Option<RenewFault>)
      requires tokens == Latest(reader, before)
      modifies ports`events, ports`ticks
      ensures fault == FaultOf(reader, before, jar.cookies, ports.script.clock(old(ports.ticks)))
      ensures ports.events == old(ports.events) + [Clock(ports.script.clock(old(ports.ticks)))]
      ensures ports.ticks == old(ports.ticks) + 1
    {
      hide TTL, Latest, Changed;
      var now := ports.Now();
      var ttl := jar.TokenTTL(reader, now);
      var latest := jar.LatestTokens(reader);
      var changed := ChangedTokens(tokens, latest);
      if ttl == None { return Some(NoTokens); }
      if ttl.value <= 0 { return Some(StillExpired(ttl.value)); }
      if changed == {} { return Some(Unchanged(ttl.value)); }
      return None;
    }

    method FinalTokens(jar: Jar) returns (last: Result<int, AuthError>)
      modifies ports`events, ports`ticks
      ensures last == Live(reader, jar.cookies, ports.script.clock(old(ports.ticks)))
      ensures ports.events == old(ports.events) + [Clock(ports.script.clock(old(ports.ticks)))]
      ensures ports.ticks == old(ports.ticks) + 1
    {
      hide TTL;
      var now := ports.Now();
      var ttl := jar.TokenTTL(reader, now);
      if ttl == None { return Err(AuthExpiredError(None)); }
      if ttl.value <= 0 { return Err(AuthExpiredError(ttl)); }
      return Ok(ttl.value);
    }
  }

  // ----- What a cycle comes to -----

  /** A cycle that holds the lock and loads a jar is what `PrepareLoaded` makes of it, between lock and release. */
  lemma CycleSplits(r: Reader, threshold: int, s: Script, k: nat, before: Content,
                    after: Content, events: seq<Event>, result: Result<RefreshResult, AuthError>)
    returns (inner: seq<Event>)
    requires Cycle(r, threshold, s, k, before, after, events, result)
    requires s.lockFree && LoadJar(before).Ok?
    ensures Completes(PrepareLoaded(r, threshold, s, k, LoadJar(before).value), s, before, after, inner, result)
    ensures events == [Locked, Read] + inner + [Released]
  {
    hide PrepareLoaded, LoadJar, Holds;
    var p := PrepareLoaded(r, threshold, s, k, LoadJar(before).value);
    inner := p.events;
    if p.outcome.Ok? {
      var saved := [Saved(p.outcome.value.jar, p.outcome.value.url, s.writable)];
      inner := p.events + saved;
      assert [Locked, Read] + inner == [Locked, Read] + p.events + saved;
    }
    assert events == events[..|events| - 1] + [events[|events| - 1]];
  }

  /**
   Renew is called exactly when the loaded jar has no readable token, or one whose remaining lifetime
   is at most the threshold, whether the cycle then succeeds or not.
   */
  lemma RenewsIff(r: Reader, threshold: int, s: Script, k: nat, before: Content,
                  after: Content, events: seq<Event>, result: Result<RefreshResult, AuthError>)
    requires Cycle(r, threshold, s, k, before, after, events, result)
    requires s.lockFree && LoadJar(before).Ok?
    ensures var ttl := TTL(r, LoadJar(before).value.jar, s.clock(k));
            Renewed in events <==> ttl == None || ttl.value <= threshold
  {
    hide TTL, LoadJar, PutAll, Holds, Pruned, FaultOf, Live, Cycle;
    var inner := CycleSplits(r, threshold, s, k, before, after, events, result);
    assert Renewed in events <==> Renewed in inner;
  }

  /**
   Without a renewal, the cycle saves the loaded jar when its token is still alive at the second reading
   of the clock, and else reports its lifetime then; the file changes with a successful save only.
   */
  lemma QuietOutcome(r: Reader, threshold: int, s: Script, k: nat, before: Content,
                     after: Content, events: seq<Event>, result: Result<RefreshResult, AuthError>)
    requires Cycle(r, threshold, s, k, before, after, events, result)
    requires s.lockFree && LoadJar(before).Ok?
    requires var ttl := TTL(r, LoadJar(before).value.jar, s.clock(k)); ttl.Some? && ttl.value > threshold
    ensures var jar, url := LoadJar(before).value.jar, LoadJar(before).value.url;
            var last := TTL(r, jar, s.clock(k + 1));
            if !Alive(r, jar, s.clock(k + 1)) then result == Err(AuthExpiredError(last)) && after == before
            else if !s.writable then result == Err(SaveError) && after == before
            else
              && result == Ok(RefreshResult(TTL(r, jar, s.clock(k)), last.value, false))
              && Holds(after, jar, url) && after == Object(url, after.items)
  {
    hide TTL, LoadJar, Cycle, Alive, IsExport;
    var inner := CycleSplits(r, threshold, s, k, before, after, events, result);
    AliveIff(r, LoadJar(before).value.jar, s.clock(k + 1));
  }

  /**
   With a renewal: the renewer's own error, or the first fault of what it left, or the lifetime that
   has run out by the third reading of the clock, or the save error; and when there is none of them, the
   file holds the renewed jar without its old token copies.
   */
  lemma RenewalOutcome(r: Reader, threshold: int, s: Script, k: nat, before: Content,
                       after: Content, events: seq<Event>, result: Result<RefreshResult, AuthError>)
    requires Cycle(r, threshold, s, k, before, after, events, result)
    requires s.lockFree && LoadJar(before).Ok?
    requires var ttl := TTL(r, LoadJar(before).value.jar, s.clock(k)); ttl == None || ttl.value <= threshold
    ensures var jar, url := LoadJar(before).value.jar, LoadJar(before).value.url;
            var renewed := PutAll(jar, s.sets);
            var left, last := TTL(r, renewed, s.clock(k + 1)), TTL(r, renewed, s.clock(k + 2));
            if s.renewal.Some? then result == Err(s.renewal.value) && after == before
            else if left == None then result == Err(RenewFailedError(NoTokens)) && after == before
            else if left.value <= 0 then result == Err(RenewFailedError(StillExpired(left.value))) && after == before
            else if SameTokens(r, jar, renewed) then
              result == Err(RenewFailedError(Unchanged(left.value))) && after == before
            else if !Alive(r, renewed, s.clock(k + 2)) then result == Err(AuthExpiredError(last)) && after == before
            else if !s.writable then result == Err(SaveError) && after == before
            else
              && result == Ok(RefreshResult(TTL(r, jar, s.clock(k)), last.value, true))
              && Holds(after, Pruned(r, renewed), url) && after == Object(url, after.items)
  {
    hide TTL, LoadJar, Cycle, Alive, PutAll, Pruned, Latest, IsExport;
    var inner := CycleSplits(r, threshold, s, k, before, after, events, result);
    var jar := LoadJar(before).value.jar;
    var renewed := PutAll(jar, s.sets);
    LoadedIsDistinct(before);
    PutAllDistinct(jar, s.sets);
    PrunedKeepsTTL(r, renewed, s.clock(k + 2));
    AliveIff(r, renewed, s.clock(k + 2));
    SameTokensIff(r, jar, renewed);
  }

  /** The freshest copy of every token name is one of the same fingerprint and expiry as the one before. */
  predicate SameTokens(r: Reader, before: seq<Cookie>, after: seq<Cookie>) {
    var was, now := Latest(r, before), Latest(r, after);
    forall name | name in TOKEN_COOKIES && name in now ::
      name in was && now[name].fingerprint == was[name].fingerprint && now[name].expiration == was[name].expiration
  }

  lemma SameTokensIff(r: Reader, before: seq<Cookie>, after: seq<Cookie>)
    ensures SameTokens(r, before, after) <==> Changed(Latest(r, before), Latest(r, after)) == {}
  {
    hide Latest;
    var was, now := Latest(r, before), Latest(r, after);
    assert forall name | name in TOKEN_COOKIES && name in now :: name in Changed(was, now) || name in was;
  }

  /**
   A file without any readable token is no dead end: when the renewer leaves a token that is alive at
   both later readings, the cycle ends refreshed, and the file holds a live token.
   */
  lemma MissingTokenIsRenewed(r: Reader, threshold: int, s: Script, k: nat, before: Content,
                              after: Content, events: seq<Event>, result: Result<RefreshResult, AuthError>)
    requires Cycle(r, threshold, s, k, before, after, events, result)
    requires s.lockFree && LoadJar(before).Ok? && s.renewal == None && s.writable
    requires forall c | c in LoadJar(before).value.jar && c.name == "prfr_bo_tkn" :: r.exp(c.value) == None
    requires Alive(r, PutAll(LoadJar(before).value.jar, s.sets), s.clock(k + 1))
    requires Alive(r, PutAll(LoadJar(before).value.jar, s.sets), s.clock(k + 2))
    ensures result.Ok? && result.value.refreshed && result.value.ttlBefore == None && result.value.ttlAfter > 0
    ensures exists jar :: Holds(after, jar, LoadJar(before).value.url) && Alive(r, jar, s.clock(k + 2))
  {
    hide TTL, LoadJar, Holds, Cycle, Alive, PutAll, Pruned, Latest;
    var jar := LoadJar(before).value.jar;
    var renewed := PutAll(jar, s.sets);
    TTLReads(r, jar, s.clock(k));
    AliveIff(r, renewed, s.clock(k + 1));
    AliveIff(r, renewed, s.clock(k + 2));
    NoTokenIsNoIndex(r, jar, renewed, s.clock(k + 1));
    RenewalOutcome(r, threshold, s, k, before, after, events, result);
    LoadedIsDistinct(before);
    PutAllDistinct(jar, s.sets);
    PrunedKeepsTTL(r, renewed, s.clock(k + 2));
    AliveIff(r, Pruned(r, renewed), s.clock(k + 2));
  }

  lemma NoTokenIsNoIndex(r: Reader, before: seq<Cookie>, after: seq<Cookie>, now: int)
    requires forall c | c in before && c.name == "prfr_bo_tkn" :: r.exp(c.value) == None
    requires TTL(r, after, now).Some?
    ensures !SameTokens(r, before, after)
  {
    hide Latest, Freshest;
    assert TOKEN_COOKIES == {"prfr_bo_tkn"};
    TTLReads(r, after, now);
    LatestIsFreshest(r, after);
    LatestIsFreshest(r, before);
    var c :| c in after && c.name == "prfr_bo_tkn" && r.exp(c.value).Some?;
    assert Readable(r, c);
    if "prfr_bo_tkn" in Latest(r, before) {
      assert Indexes(r, before, Latest(r, before), "prfr_bo_tkn");
      var i := IndexedAt(r, before, Latest(r, before), "prfr_bo_tkn");
      assert false;
    }
  }

  // ----- What every cycle keeps -----

  /** An acquired lock is released exactly once, last; without the lock nothing is touched. */
  lemma LockDiscipline(r: Reader, threshold: int, s: Script, k: nat, before: Content,
                       after: Content, events: seq<Event>, result: Result<RefreshResult, AuthError>)
    requires Cycle(r, threshold, s, k, before, after, events, result)
    ensures !s.lockFree ==> events == [LockRefused] && after == before && result == Err(LockError)
    ensures s.lockFree ==> |events| >= 3 && events[0] == Locked && events[|events| - 1] == Released
    ensures s.lockFree ==> forall i | 0 < i < |events| - 1 :: events[i] !in {LockRefused, Locked, Released}
    ensures s.lockFree && LoadJar(before).Err? ==>
              events == [Locked, Read, Released] && after == before && result == Err(LoadJar(before).error)
  {
    hide TTL, LoadJar, FaultOf, Live, Pruned, PutAll, Holds;
  }

  /**
   Save is reached only with a live token: right after the last reading of the clock, at which the
   saved jar's TTL was positive; and the file changes only by a successful save.
   */
  lemma SavesOnlyLiveTokens(r: Reader, threshold: int, s: Script, k: nat, before: Content,
                            after: Content, events: seq<Event>, result: Result<RefreshResult, AuthError>, i: nat)
    requires Cycle(r, threshold, s, k, before, after, events, result)
    requires i < |events| && events[i].Saved?
    ensures i == |events| - 2 && i > 0 && events[i - 1].Clock?
    ensures TTL(r, events[i].jar, events[i - 1].now).Some? && TTL(r, events[i].jar, events[i - 1].now).value > 0
    ensures result.Ok? <==> events[i].ok
    ensures result.Ok? ==> result.value.ttlAfter == TTL(r, events[i].jar, events[i - 1].now).value
    ensures result.Ok? ==> Holds(after, events[i].jar, events[i].url)
  {
    hide TTL, LoadJar, FaultOf, Pruned, PutAll, Holds, NeedsRefresh;
    assert events != [] ==> events == events[..|events| - 1] + [events[|events| - 1]];
  }

  /** Every failing path leaves the stored jar as it was; every successful one saved. */
  lemma FailureKeepsTheFile(r: Reader, threshold: int, s: Script, k: nat, before: Content,
                            after: Content, events: seq<Event>, result: Result<RefreshResult, AuthError>)
    requires Cycle(r, threshold, s, k, before, after, events, result)
    ensures result.Err? ==> after == before
    ensures result.Ok? ==> |events| >= 2 && events[|events| - 2].Saved? && events[|events| - 2].ok
  {
    hide TTL, LoadJar, FaultOf, Live, Pruned, PutAll, Holds;
  }

  /** The jar that a successful cycle saved. */
  function SavedJar(events: seq<Event>): seq<Cookie>
    requires |events| >= 2 && events[|events| - 2].Saved?
  {
    events[|events| - 2].jar
  }

  /**
   A renewal that reported success is refused exactly when it left no readable token, or only one
   that has run out, or the freshest copy of every token name is the one that was there before, as
   far as fingerprint and expiry tell.
   */
  lemma RenewFailedIff(r: Reader, threshold: int, s: Script, k: nat, before: Content,
                       after: Content, events: seq<Event>, result: Result<RefreshResult, AuthError>)
    requires Cycle(r, threshold, s, k, before, after, events, result)
    requires s.lockFree && LoadJar(before).Ok? && s.renewal == None
    requires var ttl := TTL(r, LoadJar(before).value.jar, s.clock(k)); ttl == None || ttl.value <= threshold
    ensures var renewed := PutAll(LoadJar(before).value.jar, s.sets);
            var ttl := TTL(r, renewed, s.clock(k + 1));
            (result.Err? && result.error.RenewFailedError?)
            <==> ttl == None || ttl.value <= 0 || SameTokens(r, LoadJar(before).value.jar, renewed)
  {
    hide TTL, LoadJar, Latest, PutAll, Holds, Pruned;
    SameTokensIff(r, LoadJar(before).value.jar, PutAll(LoadJar(before).value.jar, s.sets));
  }

  /** All that happens in a successful cycle: with a renewal, three readings of the clock; else two. */
  lemma SuccessfulCycle(r: Reader, threshold: int, s: Script, k: nat, before: Content,
                        after: Content, events: seq<Event>, result: Result<RefreshResult, AuthError>)
    requires Cycle(r, threshold, s, k, before, after, events, result) && result.Ok?
    ensures LoadJar(before).Ok? && s.lockFree && s.writable
    ensures var loaded := LoadJar(before).value;
            && result.value.ttlBefore == TTL(r, loaded.jar, s.clock(k))
            && (result.value.refreshed <==> result.value.ttlBefore == None || result.value.ttlBefore.value <= threshold)
            && if result.value.refreshed then
                 var renewed := PutAll(loaded.jar, s.sets);
                 && s.renewal == None && FaultOf(r, loaded.jar, renewed, s.clock(k + 1)) == None
                 && events == [Locked, Read, Clock(s.clock(k)), Renewed, Clock(s.clock(k + 1)), Clock(s.clock(k + 2)),
                               Saved(Pruned(r, renewed), loaded.url, true), Released]
               else
                 events == [Locked, Read, Clock(s.clock(k)), Clock(s.clock(k + 1)),
                            Saved(loaded.jar, loaded.url, true), Released]
  {
    hide TTL, LoadJar, PutAll, Holds, Pruned, FaultOf, Live;
    assert events == events[..|events| - 1] + [events[|events| - 1]];
  }

  /**
   Whatever the renewer does and the clock says: a successful cycle refreshed exactly when the TTL
   was missing or at most the threshold; then Renew was called and some freshest token in the
   saved jar differs from the freshest one of its name in the loaded jar; else Renew was not called
   and the saved jar is the loaded one.
   */
  lemma RefreshedMeansOtherToken(r: Reader, threshold: int, s: Script, k: nat, before: Content,
                               after: Content, events: seq<Event>, result: Result<RefreshResult, AuthError>)
    requires Cycle(r, threshold, s, k, before, after, events, result) && result.Ok?
    ensures |events| >= 2 && events[|events| - 2].Saved? && LoadJar(before).Ok?
    ensures var ttl := TTL(r, LoadJar(before).value.jar, s.clock(k));
            result.value.refreshed <==> ttl == None || ttl.value <= threshold
    ensures Renewed in events <==> result.value.refreshed
    ensures !result.value.refreshed ==> SavedJar(events) == LoadJar(before).value.jar
    ensures result.value.refreshed ==> exists name :: OtherToken(r, LoadJar(before).value.jar, SavedJar(events), name)
  {
    hide TTL, LoadJar, PutAll, Cycle, Pruned, FaultOf, OtherToken;
    SuccessfulCycle(r, threshold, s, k, before, after, events, result);
    if result.value.refreshed {
      var loaded := LoadJar(before).value;
      LoadedIsDistinct(before);
      PutAllDistinct(loaded.jar, s.sets);
      VerifiedHasOtherToken(r, loaded.jar, PutAll(loaded.jar, s.sets), s.clock(k + 1));
      var name :| OtherToken(r, loaded.jar, Pruned(r, PutAll(loaded.jar, s.sets)), name);
      assert OtherToken(r, loaded.jar, SavedJar(events), name);
    }
  }

  lemma VerifiedHasOtherToken(r: Reader, before: seq<Cookie>, renewed: seq<Cookie>, now: int)
    requires Distinct(renewed) && FaultOf(r, before, renewed, now) == None
    ensures exists name :: OtherToken(r, before, Pruned(r, renewed), name)
  {
    hide TTL, Pruned, Latest;
    var name :| name in Changed(Latest(r, before), Latest(r, renewed));
    PruningKeepsTheIndex(r, renewed);
    ChangedMeansOtherText(r, before, renewed, name);
    assert OtherToken(r, before, Pruned(r, renewed), name);
  }

  /** The freshest copy of the name is of a value that was not its freshest before. */
  predicate OtherToken(r: Reader, before: seq<Cookie>, after: seq<Cookie>, name: string) {
    && name in Latest(r, after)
    && (name in Latest(r, before) ==> Latest(r, after)[name].cookie.value != Latest(r, before)[name].cookie.value)
  }

  lemma LoadedIsDistinct(content: Content)
    requires LoadJar(content).Ok?
    ensures Distinct(LoadJar(content).value.jar)
    ensures forall c | c in LoadJar(content).value.jar :: Storable(c)
  {
    hide Import;
    match content
    case BareArray(items) => LoadedIsLegal(items);
    case Object(_, items) => LoadedIsLegal(items);
    case _ =>
  }
}
